/** create_groups.py: list the workspace groups page by page (SCIM 2.0, RFC 7644), create a
    group unless one with its display name exists, add a manager user and a manager group to
    it, and grant permissions. */
module Groups {
  import opened Common

  /** The `count` requested per page (RFC 7644 section 3.4.2.4). */
  const PageSize: int := 100

  /** The SCIM message schema of a PatchOp request (RFC 7644 section 3.5.2). */
  const PatchOpSchema := "urn:ietf:params:scim:api:messages:2.0:PatchOp"

  /** A SCIM resource as a JSON object: its `id`, if present, and the names of its other keys. */
  datatype Resource = Resource(id: Option<string>, otherKeys: set<string>)

  /** Python truthiness of the resource dictionary: it has at least one key. */
  predicate Present(r: Resource)
  {
    r.id.Some? || r.otherKeys != {}
  }

  /** A SCIM list response; `resources` is `None` when the `Resources` key is absent. */
  datatype ResourceList = ResourceList(resources: Option<seq<Resource>>)

  /** `data.get("Resources", [])`. */
  function ResourcesOf(body: ResourceList): seq<Resource>
  {
    if body.resources.Some? then body.resources.value else []
  }

  /** Targets under `/api/2.0`. */
  datatype Endpoint =
    | GroupsPage(startIndex: int, count: int)  // preview/scim/v2/Groups?startIndex=..&count=..
    | GroupsNamed(displayName: string)         // preview/scim/v2/Groups?filter=displayName eq ".."
    | GroupsCollection                         // preview/scim/v2/Groups
    | Group(groupId: string)                   // preview/scim/v2/Groups/{id}
    | UsersNamed(userName: string)             // preview/scim/v2/Users?filter=userName eq ".."
    | GroupPermissions(groupId: string)        // permissions/groups/{id}
    | WorkspacePermissions                     // permissions/workspace

  /** One operation of a SCIM PatchOp message; `members` are the `value`s of the added members. */
  datatype PatchOperation = PatchOperation(op: string, path: string, members: seq<string>)

  datatype AclEntry = AclEntry(groupName: string, permissionLevel: string)

  datatype Payload =
    | NewGroup(displayName: string)
    | PatchOp(schemas: seq<string>, operations: seq<PatchOperation>)
    | Acl(accessControlList: seq<AclEntry>)

  type Request = Call<Endpoint, Payload>

  // ---------------------------------------------------------------------------
  // list_all_groups
  // ---------------------------------------------------------------------------

  /** A page after which `list_all_groups` fetches no more: a failure or a short page. */
  predicate EndsPaging(page: Response<ResourceList>)
  {
    page.status != 200 || |ResourcesOf(page.body)| < PageSize
  }

  ghost predicate Terminates(pages: seq<Response<ResourceList>>)
  {
    exists k :: 0 <= k < |pages| && EndsPaging(pages[k])
  }

  /** The index of the reply that ends paging. */
  function LastPage(pages: seq<Response<ResourceList>>): (k: nat)
    requires Terminates(pages)
    ensures k < |pages| && EndsPaging(pages[k])
    ensures forall j :: 0 <= j < k ==> !EndsPaging(pages[j])
  {
    if EndsPaging(pages[0]) then 0
    else
      var k :| 0 <= k < |pages| && EndsPaging(pages[k]);
      assert EndsPaging(pages[1..][k - 1]);
      var j := LastPage(pages[1..]);
      assert forall i :: 1 <= i < j + 1 ==> pages[i] == pages[1..][i - 1];
      j + 1
  }

  /** The `Resources` of the given pages, concatenated in fetch order. */
  function Concat(pages: seq<Response<ResourceList>>): seq<Resource>
  {
    if pages == [] then [] else Concat(pages[..|pages| - 1]) + ResourcesOf(pages[|pages| - 1].body)
  }

  /** The request for the page that starts at `startIndex`. */
  function PageCall(startIndex: int): Request
  {
    Call(GET, GroupsPage(startIndex, PageSize), None)
  }

  /** The requests of the first `n` pages: start indices 1, 101, 201, ... */
  function PageCalls(n: nat): (calls: seq<Request>)
    ensures |calls| == n
    ensures forall i :: 0 <= i < n ==> calls[i] == PageCall(1 + PageSize * i)
  {
    seq(n, i => PageCall(1 + PageSize * i))
  }

  /** What `list_all_groups` ends with, as a closed form: the pages up to the one that ends
      paging are fetched; a failing last page raises, otherwise all resources are returned. */
  function AllGroups(pages: seq<Response<ResourceList>>): Outcome<seq<Resource>>
    requires Terminates(pages)
  {
    var k := LastPage(pages);
    if pages[k].status != 200 then Raised(HttpStatus(pages[k].status)) else Ok(Concat(pages[..k + 1]))
  }

  /** `list_all_groups`: `pages[i]` is the reply to the `i`-th page request. */
  method ListAllGroups(pages: seq<Response<ResourceList>>)
    returns (calls: seq<Request>, r: Outcome<seq<Resource>>)
    requires Terminates(pages)
    ensures calls == PageCalls(LastPage(pages) + 1)
    ensures r == AllGroups(pages)
  {
    var groups: seq<Resource> := [];
    var startIndex := 1;
    var count := PageSize;
    var i := 0;
    calls := [];
    ghost var last := LastPage(pages);
    while true
      invariant 0 <= i <= last
      invariant startIndex == 1 + PageSize * i
      invariant calls == PageCalls(i)
      invariant groups == Concat(pages[..i])
      decreases last - i
    {
      var response := pages[i];
      calls := calls + [PageCall(startIndex)];
      if response.status != 200 {
        r := Raised(HttpStatus(response.status));
        return;
      }
      var resources := ResourcesOf(response.body);
      assert pages[..i + 1][..i] == pages[..i];
      groups := groups + resources;
      if |resources| < count {
        break;
      }
      startIndex := startIndex + count;
      i := i + 1;
    }
    r := Ok(groups);
  }

  lemma {:induction false} ConcatAtLeast(pages: seq<Response<ResourceList>>, n: nat)
    requires n <= |pages|
    requires forall j :: 0 <= j < n ==> |ResourcesOf(pages[j].body)| >= PageSize
    ensures |Concat(pages[..n])| >= PageSize * n
    decreases n
  {
    if n > 0 {
      assert pages[..n][..n - 1] == pages[..n - 1];
      ConcatAtLeast(pages, n - 1);
    }
  }

  lemma {:induction false} ConcatLast(pages: seq<Response<ResourceList>>, n: nat)
    requires 0 < n <= |pages|
    ensures Concat(pages[..n]) == Concat(pages[..n - 1]) + ResourcesOf(pages[n - 1].body)
  {
    assert pages[..n][..n - 1] == pages[..n - 1];
  }

  /** Every fetched page but the last was full, so a successful listing holds at least 100 groups
      per extra page fetched, and the final page contributes fewer than 100. */
  lemma AllGroupsSize(pages: seq<Response<ResourceList>>)
    requires Terminates(pages) && AllGroups(pages).Ok?
    ensures var k := LastPage(pages);
      && |AllGroups(pages).value| >= PageSize * k
      && AllGroups(pages).value == Concat(pages[..k]) + ResourcesOf(pages[k].body)
      && |ResourcesOf(pages[k].body)| < PageSize
  {
    var k := LastPage(pages);
    forall j | 0 <= j < k ensures |ResourcesOf(pages[j].body)| >= PageSize {
      assert !EndsPaging(pages[j]);
    }
    ConcatAtLeast(pages, k);
    ConcatLast(pages, k + 1);
  }

  /** A failing page after full ones is the last page fetched; the groups gathered from the
      pages before it are not returned. */
  lemma AllGroupsFails(pages: seq<Response<ResourceList>>, j: nat)
    requires j < |pages| && pages[j].status != 200
    requires forall i :: 0 <= i < j ==> !EndsPaging(pages[i])
    ensures Terminates(pages)
    ensures LastPage(pages) == j
    ensures AllGroups(pages) == Raised(HttpStatus(pages[j].status))
  {
    assert EndsPaging(pages[j]);
  }

  // ---------------------------------------------------------------------------
  // One reply each
  // ---------------------------------------------------------------------------

  /** `find_group`. */
  function FindGroup(reply: Response<ResourceList>): (r: Outcome<Option<Resource>>)
    ensures r.Raised? <==> reply.status != 200
    ensures r.Raised? ==> r.error == HttpStatus(reply.status)
    ensures r.Ok? ==> (r.value.None? <==> ResourcesOf(reply.body) == [])
    ensures r.Ok? && r.value.Some? ==> r.value.value == ResourcesOf(reply.body)[0]
  {
    if reply.status != 200 then Raised(HttpStatus(reply.status))
    else
      var resources := ResourcesOf(reply.body);
      if resources != [] then Ok(Some(resources[0])) else Ok(None)
  }

  /** `create_group`: only 201 Created is success; even 200 raises. */
  function CreateGroup(reply: Response<Resource>): (r: Outcome<Resource>)
    ensures r.Ok? <==> reply.status == 201
    ensures r.Ok? ==> r.value == reply.body
    ensures r.Raised? ==> r.error == HttpStatus(reply.status)
  {
    if reply.status == 201 then Ok(reply.body) else Raised(HttpStatus(reply.status))
  }

  /** `get_user_id`. */
  function GetUserId(userName: string, reply: Response<ResourceList>): (r: Outcome<string>)
    ensures reply.status != 200 ==> r == Raised(HttpStatus(reply.status))
    ensures reply.status == 200 && ResourcesOf(reply.body) == [] ==> r == Raised(NotFound("User", userName))
    ensures reply.status == 200 && ResourcesOf(reply.body) != [] ==>
      (r.Ok? <==> ResourcesOf(reply.body)[0].id.Some?)
      && (r.Ok? ==> r.value == ResourcesOf(reply.body)[0].id.value)
      && (r.Raised? ==> r.error == KeyMissing("id"))
  {
    if reply.status != 200 then Raised(HttpStatus(reply.status))
    else
      var resources := ResourcesOf(reply.body);
      if resources == [] then Raised(NotFound("User", userName))
      else
        match resources[0].id
        case None => Raised(KeyMissing("id"))
        case Some(id) => Ok(id)
  }

  /** How `add_member_to_group` ends without raising. */
  datatype Membership = Added | AlreadyMember

  /** `add_member_to_group`: 409 Conflict means the member is already there and is tolerated. */
  function AddMemberToGroup(reply: Response<()>): (r: Outcome<Membership>)
    ensures r.Ok? <==> reply.status == 200 || reply.status == 409
    ensures r == Ok(AlreadyMember) <==> reply.status == 409
    ensures r.Raised? ==> r.error == HttpStatus(reply.status)
  {
    if reply.status == 200 then Ok(Added)
    else if reply.status == 409 then Ok(AlreadyMember)
    else Raised(HttpStatus(reply.status))
  }

  /** `set_group_permissions` and `add_group_to_workspace`: only 200 is success. */
  function PermissionsSet(reply: Response<()>): (r: Outcome<()>)
    ensures r.Ok? <==> reply.status == 200
    ensures r.Raised? ==> r.error == HttpStatus(reply.status)
  {
    if reply.status == 200 then Ok(()) else Raised(HttpStatus(reply.status))
  }

  function FindGroupCall(name: string): Request
  {
    Call(GET, GroupsNamed(name), None)
  }

  function CreateGroupCall(name: string): Request
  {
    Call(POST, GroupsCollection, Some(NewGroup(name)))
  }

  function FindUserCall(userName: string): Request
  {
    Call(GET, UsersNamed(userName), None)
  }

  function AddMemberCall(groupId: string, memberId: string): Request
  {
    Call(PATCH, Group(groupId), Some(PatchOp([PatchOpSchema], [PatchOperation("add", "members", [memberId])])))
  }

  function GroupPermissionsCall(groupId: string, managerGroupName: string): Request
  {
    Call(PATCH, GroupPermissions(groupId), Some(Acl([AclEntry(managerGroupName, "CAN_MANAGE")])))
  }

  function WorkspaceCall(groupName: string): Request
  {
    Call(PATCH, WorkspacePermissions, Some(Acl([AclEntry(groupName, "CAN_USE")])))
  }

  // ---------------------------------------------------------------------------
  // The script
  // ---------------------------------------------------------------------------

  /** The configuration constants `GROUP_NAME`, `GROUP_MANAGER_USER_NAME`, `GROUP_MANAGER_GROUP_NAME`. */
  datatype Config = Config(groupName: string, managerUserName: string, managerGroupName: string)

  /** The reply to each request the script may issue, in script order. */
  datatype GroupReplies = GroupReplies(
    pages: seq<Response<ResourceList>>,
    target: Response<ResourceList>, created: Response<Resource>,
    user: Response<ResourceList>, userAdded: Response<()>,
    manager: Response<ResourceList>, managerAdded: Response<()>,
    permissions: Response<()>, workspace: Response<()>)

  /** The script never propagates an exception: the `except` clause prints it and the run ends. */
  datatype Ending = Completed | Printed(error: Error)

  predicate IsCreate(c: Request)
  {
    c.verb == POST && c.endpoint == GroupsCollection
  }

  predicate IsMemberAdd(c: Request)
  {
    c.verb == PATCH && c.endpoint.Group?
  }

  predicate IsPermissionCall(c: Request)
  {
    c.endpoint.GroupPermissions? || c.endpoint == WorkspacePermissions
  }

  /** The calls of a part of the script and how it ended. */
  datatype Script = Script(calls: seq<Request>, ending: Ending)

  function Then(pre: seq<Request>, s: Script): Script
  {
    Script(pre + s.calls, s.ending)
  }

  function Ended(calls: seq<Request>, r: Outcome<()>): Script
  {
    Script(calls, if r.Raised? then Printed(r.error) else Completed)
  }

  /** Whether `find_group` came back with a group that `if group:` accepts. */
  predicate Found(r: Outcome<Option<Resource>>)
  {
    r.Ok? && r.value.Some? && Present(r.value.value)
  }

  /** Step 2: check for the target group and create it only when absent. */
  function Provision(config: Config, replies: GroupReplies): Script
  {
    var find := FindGroupCall(config.groupName);
    var found := FindGroup(replies.target);
    if found.Raised? then Script([find], Printed(found.error))
    else
      var pre := if Found(found) then [find] else [find, CreateGroupCall(config.groupName)];
      var group := if Found(found) then Ok(found.value.value) else CreateGroup(replies.created);
      if group.Raised? then Script(pre, Printed(group.error))
      else if group.value.id.None? then Script(pre, Printed(KeyMissing("id")))
      else Then(pre, ManageGroup(config, group.value.id.value, replies))
  }

  /** Steps 3 to 6 for the group `groupId`. */
  function ManageGroup(config: Config, groupId: string, replies: GroupReplies): Script
  {
    var c1 := FindUserCall(config.managerUserName);
    var userId := GetUserId(config.managerUserName, replies.user);
    if userId.Raised? then Script([c1], Printed(userId.error))
    else
      var c2 := AddMemberCall(groupId, userId.value);
      var added := AddMemberToGroup(replies.userAdded);
      if added.Raised? then Script([c1, c2], Printed(added.error))
      else
        var c3 := FindGroupCall(config.managerGroupName);
        var manager := FindGroup(replies.manager);
        if manager.Raised? then Script([c1, c2, c3], Printed(manager.error))
        else if !Found(manager) then Script([c1, c2, c3], Printed(NotFound("Manager group", config.managerGroupName)))
        else if manager.value.value.id.None? then Script([c1, c2, c3], Printed(KeyMissing("id")))
        else
          var c4 := AddMemberCall(groupId, manager.value.value.id.value);
          var added' := AddMemberToGroup(replies.managerAdded);
          if added'.Raised? then Script([c1, c2, c3, c4], Printed(added'.error))
          else
            var c5 := GroupPermissionsCall(groupId, config.managerGroupName);
            var granted := PermissionsSet(replies.permissions);
            if granted.Raised? then Script([c1, c2, c3, c4, c5], Printed(granted.error))
            else Ended([c1, c2, c3, c4, c5, WorkspaceCall(config.groupName)], PermissionsSet(replies.workspace))
  }

  /** The main block of create_groups.py inside its `try`/`except`: list the groups, then
      provision the target group. */
  method RunScript(config: Config, replies: GroupReplies) returns (calls: seq<Request>, ending: Ending)
    requires Terminates(replies.pages)
    ensures var pageCalls := PageCalls(LastPage(replies.pages) + 1);
      match AllGroups(replies.pages)
      case Raised(e) => calls == pageCalls && ending == Printed(e)
      case Ok(_) => calls == pageCalls + Provision(config, replies).calls && ending == Provision(config, replies).ending
  {
    var listed;
    calls, listed := ListAllGroups(replies.pages);
    if listed.Raised? {
      return calls, Printed(listed.error);
    }
    var rest := Provision(config, replies);
    calls := calls + rest.calls;
    ending := rest.ending;
  }

  /** A group that `find_group` finds is never created again. */
  lemma ExistingGroupNotCreated(config: Config, replies: GroupReplies)
    requires Found(FindGroup(replies.target))
    ensures forall i :: 0 <= i < |Provision(config, replies).calls| ==> !IsCreate(Provision(config, replies).calls[i])
  {
    var group := FindGroup(replies.target).value.value;
    if group.id.Some? {
      var m := ManageGroup(config, group.id.value, replies);
      assert forall i :: 0 <= i < |m.calls| ==> !IsCreate(m.calls[i]);
    }
  }

  /** The target group is created exactly when the lookup succeeds and finds no group. */
  lemma CreatedExactlyWhenAbsent(config: Config, replies: GroupReplies)
    ensures (exists i :: 0 <= i < |Provision(config, replies).calls| && IsCreate(Provision(config, replies).calls[i]))
        <==> FindGroup(replies.target).Ok? && !Found(FindGroup(replies.target))
  {
    var found := FindGroup(replies.target);
    var s := Provision(config, replies);
    if found.Ok? {
      var group := if Found(found) then Ok(found.value.value) else CreateGroup(replies.created);
      if group.Ok? && group.value.id.Some? {
        var m := ManageGroup(config, group.value.id.value, replies);
        assert forall i :: 0 <= i < |m.calls| ==> !IsCreate(m.calls[i]);
        if Found(found) {
          assert forall i :: 1 <= i < |s.calls| ==> s.calls[i] == m.calls[i - 1];
        } else {
          assert IsCreate(s.calls[1]);
        }
      } else if !Found(found) {
        assert IsCreate(s.calls[1]);
      }
    }
  }

  /** Step 2 stops at its first failure: a failed lookup after its one call, a failed create
      after the lookup and the create, a created group without `id` there too. */
  lemma ProvisionStopsAtFailure(config: Config, replies: GroupReplies)
    ensures FindGroup(replies.target).Raised? ==>
      Provision(config, replies) == Script([FindGroupCall(config.groupName)], Printed(FindGroup(replies.target).error))
    ensures FindGroup(replies.target).Ok? && !Found(FindGroup(replies.target)) && CreateGroup(replies.created).Raised? ==>
      Provision(config, replies) ==
        Script([FindGroupCall(config.groupName), CreateGroupCall(config.groupName)], Printed(CreateGroup(replies.created).error))
    ensures FindGroup(replies.target).Ok? && !Found(FindGroup(replies.target)) && CreateGroup(replies.created).Ok?
            && CreateGroup(replies.created).value.id.None? ==>
      Provision(config, replies) ==
        Script([FindGroupCall(config.groupName), CreateGroupCall(config.groupName)], Printed(KeyMissing("id")))
    ensures Found(FindGroup(replies.target)) && FindGroup(replies.target).value.value.id.None? ==>
      Provision(config, replies) == Script([FindGroupCall(config.groupName)], Printed(KeyMissing("id")))
    ensures Found(FindGroup(replies.target)) && FindGroup(replies.target).value.value.id.Some? ==>
      Provision(config, replies) ==
        Then([FindGroupCall(config.groupName)],
             ManageGroup(config, FindGroup(replies.target).value.value.id.value, replies))
    ensures FindGroup(replies.target).Ok? && !Found(FindGroup(replies.target)) && CreateGroup(replies.created).Ok?
            && CreateGroup(replies.created).value.id.Some? ==>
      Provision(config, replies) ==
        Then([FindGroupCall(config.groupName), CreateGroupCall(config.groupName)],
             ManageGroup(config, CreateGroup(replies.created).value.id.value, replies))
  {
  }

  /** Steps 3 to 6 stop at their first failure: the calls end with the failing one and its
      error is what the `except` clause prints. */
  lemma ManageGroupStopsAtFailure(config: Config, groupId: string, replies: GroupReplies)
    ensures var userId := GetUserId(config.managerUserName, replies.user);
      userId.Raised? ==>
        ManageGroup(config, groupId, replies) == Script([FindUserCall(config.managerUserName)], Printed(userId.error))
    ensures var userId := GetUserId(config.managerUserName, replies.user);
      userId.Ok? && AddMemberToGroup(replies.userAdded).Raised? ==>
        ManageGroup(config, groupId, replies) ==
          Script([FindUserCall(config.managerUserName), AddMemberCall(groupId, userId.value)],
                 Printed(AddMemberToGroup(replies.userAdded).error))
    ensures var userId := GetUserId(config.managerUserName, replies.user);
      userId.Ok? && AddMemberToGroup(replies.userAdded).Ok? && FindGroup(replies.manager).Raised? ==>
        ManageGroup(config, groupId, replies) ==
          Script([FindUserCall(config.managerUserName), AddMemberCall(groupId, userId.value),
                  FindGroupCall(config.managerGroupName)],
                 Printed(FindGroup(replies.manager).error))
    ensures var userId := GetUserId(config.managerUserName, replies.user);
      userId.Ok? && AddMemberToGroup(replies.userAdded).Ok? && Found(FindGroup(replies.manager))
      && FindGroup(replies.manager).value.value.id.None? ==>
        ManageGroup(config, groupId, replies) ==
          Script([FindUserCall(config.managerUserName), AddMemberCall(groupId, userId.value),
                  FindGroupCall(config.managerGroupName)],
                 Printed(KeyMissing("id")))
    ensures var userId := GetUserId(config.managerUserName, replies.user);
      var manager := FindGroup(replies.manager);
      userId.Ok? && AddMemberToGroup(replies.userAdded).Ok? && Found(manager) && manager.value.value.id.Some?
      && AddMemberToGroup(replies.managerAdded).Raised? ==>
        ManageGroup(config, groupId, replies) ==
          Script([FindUserCall(config.managerUserName), AddMemberCall(groupId, userId.value),
                  FindGroupCall(config.managerGroupName), AddMemberCall(groupId, manager.value.value.id.value)],
                 Printed(AddMemberToGroup(replies.managerAdded).error))
    ensures var userId := GetUserId(config.managerUserName, replies.user);
      var manager := FindGroup(replies.manager);
      userId.Ok? && AddMemberToGroup(replies.userAdded).Ok? && Found(manager) && manager.value.value.id.Some?
      && AddMemberToGroup(replies.managerAdded).Ok? && PermissionsSet(replies.permissions).Raised? ==>
        ManageGroup(config, groupId, replies) ==
          Script([FindUserCall(config.managerUserName), AddMemberCall(groupId, userId.value),
                  FindGroupCall(config.managerGroupName), AddMemberCall(groupId, manager.value.value.id.value),
                  GroupPermissionsCall(groupId, config.managerGroupName)],
                 Printed(PermissionsSet(replies.permissions).error))
    ensures var userId := GetUserId(config.managerUserName, replies.user);
      var manager := FindGroup(replies.manager);
      userId.Ok? && AddMemberToGroup(replies.userAdded).Ok? && Found(manager) && manager.value.value.id.Some?
      && AddMemberToGroup(replies.managerAdded).Ok? && PermissionsSet(replies.permissions).Ok?
      && PermissionsSet(replies.workspace).Raised? ==>
        ManageGroup(config, groupId, replies) ==
          Script([FindUserCall(config.managerUserName), AddMemberCall(groupId, userId.value),
                  FindGroupCall(config.managerGroupName), AddMemberCall(groupId, manager.value.value.id.value),
                  GroupPermissionsCall(groupId, config.managerGroupName), WorkspaceCall(config.groupName)],
                 Printed(PermissionsSet(replies.workspace).error))
  {
  }

  /** A missing manager group ends the run right after its lookup, with the not-found error:
      one member was added and no permission call was made. */
  lemma ManagerGroupMissingEndsRun(config: Config, groupId: string, replies: GroupReplies)
    requires GetUserId(config.managerUserName, replies.user).Ok?
    requires AddMemberToGroup(replies.userAdded).Ok?
    requires FindGroup(replies.manager).Ok? && !Found(FindGroup(replies.manager))
    ensures ManageGroup(config, groupId, replies).ending == Printed(NotFound("Manager group", config.managerGroupName))
    ensures ManageGroup(config, groupId, replies).calls == [
      FindUserCall(config.managerUserName),
      AddMemberCall(groupId, GetUserId(config.managerUserName, replies.user).value),
      FindGroupCall(config.managerGroupName)]
    ensures forall c :: c in ManageGroup(config, groupId, replies).calls ==> !IsPermissionCall(c)
    ensures var calls := ManageGroup(config, groupId, replies).calls;
      forall i :: 0 <= i < |calls| ==> (IsMemberAdd(calls[i]) <==> i == 1)
  {
  }

  /** Conversely, a run that ends with the manager-group error found that group missing, after
      one member was added and before any permission call. */
  lemma MissingManagerStopsEarly(config: Config, groupId: string, replies: GroupReplies)
    requires ManageGroup(config, groupId, replies).ending == Printed(NotFound("Manager group", config.managerGroupName))
    ensures FindGroup(replies.manager).Ok? && !Found(FindGroup(replies.manager))
    ensures ManageGroup(config, groupId, replies).calls == [
      FindUserCall(config.managerUserName),
      AddMemberCall(groupId, GetUserId(config.managerUserName, replies.user).value),
      FindGroupCall(config.managerGroupName)]
    ensures forall c :: c in ManageGroup(config, groupId, replies).calls ==> !IsPermissionCall(c)
    ensures var calls := ManageGroup(config, groupId, replies).calls;
      forall i :: 0 <= i < |calls| ==> (IsMemberAdd(calls[i]) <==> i == 1)
  {
  }

  /** When every reply of steps 3 to 6 succeeds, the run makes their six calls, the member adds
      and the permission call all on `groupId`, and completes. */
  lemma ManageGroupCompletes(config: Config, groupId: string, replies: GroupReplies)
    requires GetUserId(config.managerUserName, replies.user).Ok?
    requires AddMemberToGroup(replies.userAdded).Ok?
    requires Found(FindGroup(replies.manager)) && FindGroup(replies.manager).value.value.id.Some?
    requires AddMemberToGroup(replies.managerAdded).Ok?
    requires PermissionsSet(replies.permissions).Ok? && PermissionsSet(replies.workspace).Ok?
    ensures ManageGroup(config, groupId, replies) == Script([
      FindUserCall(config.managerUserName),
      AddMemberCall(groupId, GetUserId(config.managerUserName, replies.user).value),
      FindGroupCall(config.managerGroupName),
      AddMemberCall(groupId, FindGroup(replies.manager).value.value.id.value),
      GroupPermissionsCall(groupId, config.managerGroupName),
      WorkspaceCall(config.groupName)], Completed)
  {
  }

  /** A target group that is absent gets created, and the id in the create reply is the group
      every later member add and permission call goes to. */
  lemma CreatedGroupUsedThroughout(config: Config, replies: GroupReplies)
    requires FindGroup(replies.target).Ok? && !Found(FindGroup(replies.target))
    requires CreateGroup(replies.created).Ok? && CreateGroup(replies.created).value.id.Some?
    requires GetUserId(config.managerUserName, replies.user).Ok?
    requires AddMemberToGroup(replies.userAdded).Ok?
    requires Found(FindGroup(replies.manager)) && FindGroup(replies.manager).value.value.id.Some?
    requires AddMemberToGroup(replies.managerAdded).Ok?
    requires PermissionsSet(replies.permissions).Ok? && PermissionsSet(replies.workspace).Ok?
    ensures var id := CreateGroup(replies.created).value.id.value;
      Provision(config, replies) == Script([
        FindGroupCall(config.groupName),
        CreateGroupCall(config.groupName),
        FindUserCall(config.managerUserName),
        AddMemberCall(id, GetUserId(config.managerUserName, replies.user).value),
        FindGroupCall(config.managerGroupName),
        AddMemberCall(id, FindGroup(replies.manager).value.value.id.value),
        GroupPermissionsCall(id, config.managerGroupName),
        WorkspaceCall(config.groupName)], Completed)
  {
    ProvisionStopsAtFailure(config, replies);
    ManageGroupCompletes(config, CreateGroup(replies.created).value.id.value, replies);
  }

  /** A run that completes made every call of steps 3 to 6, in order, each step succeeding. */
  lemma CompletedRunMadeEveryCall(config: Config, groupId: string, replies: GroupReplies)
    requires ManageGroup(config, groupId, replies).ending == Completed
    ensures GetUserId(config.managerUserName, replies.user).Ok?
    ensures AddMemberToGroup(replies.userAdded).Ok? && AddMemberToGroup(replies.managerAdded).Ok?
    ensures Found(FindGroup(replies.manager)) && FindGroup(replies.manager).value.value.id.Some?
    ensures PermissionsSet(replies.permissions).Ok? && PermissionsSet(replies.workspace).Ok?
    ensures ManageGroup(config, groupId, replies).calls == [
      FindUserCall(config.managerUserName),
      AddMemberCall(groupId, GetUserId(config.managerUserName, replies.user).value),
      FindGroupCall(config.managerGroupName),
      AddMemberCall(groupId, FindGroup(replies.manager).value.value.id.value),
      GroupPermissionsCall(groupId, config.managerGroupName),
      WorkspaceCall(config.groupName)]
    ensures var calls := ManageGroup(config, groupId, replies).calls;
      forall i :: 0 <= i < |calls| ==> (IsMemberAdd(calls[i]) <==> i == 1 || i == 3)
  {
  }
}
