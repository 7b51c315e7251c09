/** create_volume.py: find a Unity Catalog volume by name, create or update it,
    then reconcile the permissions held on it. */
module Volumes {
  import opened Common

  /** The global `volume_config` dictionary. */
  datatype VolumeConfig = VolumeConfig(
    name: string, catalogName: string, schemaName: string,
    volumeType: string, storageLocation: string, comment: string)

  const DefaultVolume := VolumeConfig(
    "my_new_volume", "my_catalog", "my_schema", "EXTERNAL",
    "s3://your-bucket/new-prefix-path/", "Volume created via REST API")

  /** Targets under `/api/2.0/volumes`. */
  datatype Endpoint =
    | Listing(catalog: string, schema: string)  // volumes?catalog_name=..&schema_name=..
    | Collection                                // volumes
    | Volume(volumeId: string)                  // volumes/{id}
    | PermissionsOf(volumeId: string)           // volumes/{id}/permissions

  /** One entry of the `changes` list: a principal and the permissions to add. */
  datatype Change = Change(principal: string, add: seq<string>)

  datatype Payload = VolumeSpec(config: VolumeConfig) | PermissionChanges(changes: seq<Change>)

  type Request = Call<Endpoint, Payload>

  /** Bodies of the replies; a `None` field is a key absent from the JSON. */
  datatype ListedVolume = ListedVolume(name: Option<string>, volumeId: Option<string>)
  datatype VolumeList = VolumeList(volumes: Option<seq<ListedVolume>>)
  datatype VolumeInfo = VolumeInfo(volumeId: Option<string>)
  datatype Holding = Holding(permissions: Option<seq<string>>)
  datatype CurrentAcl = CurrentAcl(accessControlList: Option<map<string, Holding>>)

  /** The change list that `update_permissions` builds before reconciling. */
  const PermissionsConfig: seq<Change> :=
    [Change("xyz", ["READ", "WRITE"]), Change("group A", ["READ"])]

  // ---------------------------------------------------------------------------
  // Lookup and create-or-update
  // ---------------------------------------------------------------------------

  /** The loop of `get_volume_id` over the listed volumes. */
  function FindVolume(volumes: seq<ListedVolume>, name: string): (r: Outcome<Option<string>>)
    ensures r == Ok(None) <==>
      forall j :: 0 <= j < |volumes| ==> volumes[j].name.Some? && volumes[j].name.value != name
    ensures r.Ok? && r.value.Some? ==>
      exists k :: (0 <= k < |volumes| && volumes[k].name == Some(name) && volumes[k].volumeId == r.value
                   && forall j :: 0 <= j < k ==> volumes[j].name.Some? && volumes[j].name.value != name)
    ensures r.Raised? ==> r.error == KeyMissing("name") || r.error == KeyMissing("volume_id")
  {
    if volumes == [] then Ok(None)
    else
      match volumes[0].name
      case None => Raised(KeyMissing("name"))
      case Some(n) =>
        if n == name then
          match volumes[0].volumeId
          case None => Raised(KeyMissing("volume_id"))
          case Some(id) => Ok(Some(id))
        else
          var r := FindVolume(volumes[1..], name);
          assert r.Ok? && r.value.Some? ==>
            exists k :: (1 <= k < |volumes| && volumes[k].name == Some(name) && volumes[k].volumeId == r.value
                         && forall j :: 1 <= j < k ==> volumes[j].name.Some? && volumes[j].name.value != name);
          r
  }

  /** The first volume named `name`, every earlier one being named otherwise, decides the
      search: its id, or the `volume_id` error when that volume has no id. */
  lemma {:induction false} FindVolumeFirstMatch(volumes: seq<ListedVolume>, name: string, k: nat)
    requires k < |volumes| && volumes[k].name == Some(name)
    requires forall j :: 0 <= j < k ==> volumes[j].name.Some? && volumes[j].name.value != name
    ensures FindVolume(volumes, name) ==
      if volumes[k].volumeId.Some? then Ok(volumes[k].volumeId) else Raised(KeyMissing("volume_id"))
    decreases k
  {
    if k > 0 {
      FindVolumeFirstMatch(volumes[1..], name, k - 1);
    }
  }

  /** A volume listed without a `name` raises with that key, unless an earlier volume already
      matched. */
  lemma {:induction false} UnnamedVolumeRaises(volumes: seq<ListedVolume>, name: string, k: nat)
    requires k < |volumes| && volumes[k].name.None?
    requires forall j :: 0 <= j < k ==> volumes[j].name.Some? && volumes[j].name.value != name
    ensures FindVolume(volumes, name) == Raised(KeyMissing("name"))
    decreases k
  {
    if k > 0 {
      UnnamedVolumeRaises(volumes[1..], name, k - 1);
    }
  }

  /** `get_volume_id`: the listing is read only on status 200. */
  function GetVolumeId(listing: Response<VolumeList>, name: string): (r: Outcome<Option<string>>)
    ensures listing.status != 200 ==> r == Ok(None)
    ensures listing.status == 200 && listing.body.volumes.None? ==> r == Raised(KeyMissing("volumes"))
    ensures listing.status == 200 && listing.body.volumes.Some? ==>
      r == FindVolume(listing.body.volumes.value, name)
  {
    if listing.status != 200 then Ok(None)
    else
      match listing.body.volumes
      case None => Raised(KeyMissing("volumes"))
      case Some(vs) => FindVolume(vs, name)
  }

  /** `create_or_update_volume`: one listing call, then exactly one write call. */
  function CreateOrUpdateVolume(config: VolumeConfig, listing: Response<VolumeList>,
                                written: Response<VolumeInfo>): (run: Run<Request, Option<string>>)
    ensures |run.calls| >= 1
    ensures run.calls[0] == Call(GET, Listing(config.catalogName, config.schemaName), None)
    ensures var found := GetVolumeId(listing, config.name);
      if found.Raised? then run == Run(run.calls[..1], Raised(found.error))
      else
        && |run.calls| == 2
        && run.calls[1].body == Some(VolumeSpec(config))
        && (run.calls[1].verb == PATCH <==> NonEmpty(found.value))
        && (run.calls[1].verb == PATCH ==> run.calls[1].endpoint == Volume(found.value.value))
        && (run.calls[1].verb != PATCH ==> run.calls[1].verb == POST && run.calls[1].endpoint == Collection)
        && (written.status != 200 && written.status != 201 ==> run.outcome == Ok(None))
        && (written.status == 200 || written.status == 201 ==>
              run.outcome == if written.body.volumeId.Some? then Ok(written.body.volumeId)
                             else Raised(KeyMissing("volume_id")))
  {
    var lookup := Call(GET, Listing(config.catalogName, config.schemaName), None);
    var found := GetVolumeId(listing, config.name);
    if found.Raised? then Run([lookup], Raised(found.error))
    else
      var write :=
        if NonEmpty(found.value) then Call(PATCH, Volume(found.value.value), Some(VolumeSpec(config)))
        else Call(POST, Collection, Some(VolumeSpec(config)));
      var outcome :=
        if written.status in {200, 201} then
          match written.body.volumeId
          case None => Raised(KeyMissing("volume_id"))
          case Some(id) => Ok(Some(id))
        else Ok(None);
      Run([lookup, write], outcome)
  }

  // ---------------------------------------------------------------------------
  // Permission reconciliation
  // ---------------------------------------------------------------------------

  /** `get_current_permissions`: the body on status 200, otherwise nothing. */
  function CurrentPermissions(reply: Response<CurrentAcl>): (r: Option<CurrentAcl>)
    ensures r.Some? <==> reply.status == 200
    ensures r.Some? ==> r.value == reply.body
  {
    if reply.status == 200 then Some(reply.body) else None
  }

  /** Required minus already held permissions of one change. */
  function Missing(c: Change, held: seq<string>): set<string>
  {
    Elems(c.add) - Elems(held)
  }

  /** `list(missing_permissions)`: the permissions of `add` that are in `keep`, each once. */
  function InOrder(add: seq<string>, keep: set<string>): (r: seq<string>)
    ensures Elems(r) == Elems(add) * keep
    ensures Distinct(r)
    decreases |add|
  {
    if add == [] then []
    else if add[0] in keep then
      var rest := InOrder(add[1..], keep - {add[0]});
      assert Elems(add) == {add[0]} + Elems(add[1..]);
      assert Elems([add[0]] + rest) == {add[0]} + Elems(rest);
      assert add[0] !in rest;
      assert forall j :: 1 <= j < |[add[0]] + rest| ==> ([add[0]] + rest)[j] == rest[j - 1];
      [add[0]] + rest
    else
      assert Elems(add) == {add[0]} + Elems(add[1..]);
      InOrder(add[1..], keep)
  }

  /** What lines 105-117 decide about one examined change. */
  datatype Verdict =
    | Absent                      // principal not in the current ACL: sent as it is
    | Short(missing: set<string>) // some required permission is not held yet
    | Satisfied                   // every required permission is held: the change is removed
    | Unreadable(error: Error)    // a key of the reply is missing

  function Examine(c: Change, acl: Option<map<string, Holding>>): (v: Verdict)
    ensures acl.None? ==> v == Unreadable(KeyMissing("access_control_list"))
    ensures acl.Some? ==> (v.Absent? <==> c.principal !in acl.value)
    ensures acl.Some? ==>
      (v == Unreadable(KeyMissing("permissions")) <==>
         c.principal in acl.value && acl.value[c.principal].permissions.None?)
    ensures v.Satisfied? <==> acl.Some? && HoldsAll(acl.value, c)
    ensures v.Unreadable? <==>
      acl.None? || (c.principal in acl.value && acl.value[c.principal].permissions.None?)
    ensures v.Short? <==>
      && acl.Some? && c.principal in acl.value && acl.value[c.principal].permissions.Some?
      && !HoldsAll(acl.value, c)
    ensures v.Short? ==>
      && acl.Some? && c.principal in acl.value && acl.value[c.principal].permissions.Some?
      && v.missing == Elems(c.add) - Elems(HeldAt(acl.value, c.principal))
      && v.missing != {}
  {
    match acl
    case None => Unreadable(KeyMissing("access_control_list"))
    case Some(m) =>
      if c.principal !in m then Absent
      else
        match m[c.principal].permissions
        case None => Unreadable(KeyMissing("permissions"))
        case Some(held) =>
          if Missing(c, held) == {} then
            assert Elems(c.add) <= Elems(held) by {
              forall x | x in Elems(c.add) ensures x in Elems(held) {
                assert x !in Missing(c, held);
              }
            }
            Satisfied
          else Short(Missing(c, held))
  }

  /** The change that replaces `c` when permissions are short (line 112). */
  function Rewritten(c: Change, missing: set<string>): Change
  {
    Change(c.principal, InOrder(c.add, missing))
  }

  /** Python's `list.remove(x)`: drop the first element equal to `x`. */
  function RemoveFirst<T(==)>(s: seq<T>, x: T): (r: seq<T>)
    requires x in s
    ensures |r| == |s| - 1
  {
    if s[0] == x then s[1..] else [s[0]] + RemoveFirst(s[1..], x)
  }

  /** `list.remove` takes away exactly one occurrence of `x` and keeps everything else. */
  lemma {:induction false} RemoveFirstCount<T>(s: seq<T>, x: T)
    requires x in s
    ensures multiset(RemoveFirst(s, x)) == multiset(s) - multiset{x}
    decreases |s|
  {
    assert s == [s[0]] + s[1..];
    if s[0] != x {
      RemoveFirstCount(s[1..], x);
    }
  }

  lemma {:induction false} RemoveFirstAfter<T>(done: seq<T>, x: T, rest: seq<T>)
    requires x !in done
    ensures RemoveFirst(done + [x] + rest, x) == done + rest
    decreases |done|
  {
    if done != [] {
      assert (done + [x] + rest)[1..] == done[1..] + [x] + rest;
      RemoveFirstAfter(done[1..], x, rest);
    }
  }

  /** The `for change in permissions_config['changes']` loop exactly as Python runs it: the
      iterator holds an index `cursor` into a list that the body rewrites and shrinks. The
      result is the list sent and the `changes_needed` flag. */
  function Pass(list: seq<Change>, cursor: nat, needed: bool, acl: Option<map<string, Holding>>)
    : Outcome<(seq<Change>, bool)>
    decreases |list| - cursor
  {
    if cursor >= |list| then Ok((list, needed))
    else
      var c := list[cursor];
      match Examine(c, acl)
      case Unreadable(e) => Raised(e)
      case Absent => Pass(list, cursor + 1, true, acl)
      case Short(missing) => Pass(list[cursor := Rewritten(c, missing)], cursor + 1, true, acl)
      case Satisfied => Pass(RemoveFirst(list, c), cursor + 1, needed, acl)
  }

  function Prepend(c: Change, flag: bool, r: Outcome<(seq<Change>, bool)>): Outcome<(seq<Change>, bool)>
  {
    match r
    case Raised(e) => Raised(e)
    case Ok((sent, needed)) => Ok(([c] + sent, flag || needed))
  }

  /** The same loop read along the original list: once a change is removed, the change after it
      is never examined, so it is sent as it is and does not set the flag. */
  function Walk(todo: seq<Change>, acl: Option<map<string, Holding>>): Outcome<(seq<Change>, bool)>
    decreases |todo|
  {
    if todo == [] then Ok(([], false))
    else
      var c := todo[0];
      match Examine(c, acl)
      case Unreadable(e) => Raised(e)
      case Absent => Prepend(c, true, Walk(todo[1..], acl))
      case Short(missing) => Prepend(Rewritten(c, missing), true, Walk(todo[1..], acl))
      case Satisfied =>
        if |todo| == 1 then Ok(([], false))
        else Prepend(todo[1], false, Walk(todo[2..], acl))
  }

  function WithPrefix(done: seq<Change>, needed: bool, r: Outcome<(seq<Change>, bool)>)
    : Outcome<(seq<Change>, bool)>
  {
    match r
    case Raised(e) => Raised(e)
    case Ok((sent, n)) => Ok((done + sent, needed || n))
  }

  lemma WithPrefixStep(done: seq<Change>, c: Change, needed: bool, flag: bool, w: Outcome<(seq<Change>, bool)>)
    ensures WithPrefix(done + [c], needed || flag, w) == WithPrefix(done, needed, Prepend(c, flag, w))
  {
    match w
    case Raised(e) =>
    case Ok((s, n)) => assert done + [c] + s == done + ([c] + s);
  }

  /** A rewritten change is never equal to a satisfied one. */
  lemma RewrittenNotSatisfied(c: Change, missing: set<string>, t: Change, acl: Option<map<string, Holding>>)
    requires Examine(c, acl) == Short(missing)
    requires Examine(t, acl).Satisfied?
    ensures Rewritten(c, missing) != t
  {
    var x :| x in missing;
    assert x in Elems(InOrder(c.add, missing));
    var m := acl.value;
    assert t.principal == c.principal ==> x !in Elems(m[c.principal].permissions.value);
  }

  /** No entry already passed equals a satisfied entry still ahead, so `remove` finds the
      current entry and not an earlier copy. */
  ghost predicate NoClash(done: seq<Change>, todo: seq<Change>, acl: Option<map<string, Holding>>)
  {
    forall i, j :: 0 <= i < |done| && 0 <= j < |todo| && Examine(todo[j], acl).Satisfied? ==> done[i] != todo[j]
  }

  lemma NoClashExtend(done: seq<Change>, x: Change, todo: seq<Change>, k: nat, acl: Option<map<string, Holding>>)
    requires k <= |todo| && NoClash(done, todo, acl)
    requires forall j :: k <= j < |todo| && Examine(todo[j], acl).Satisfied? ==> x != todo[j]
    ensures NoClash(done + [x], todo[k..], acl)
  {
    forall i, j | 0 <= i < |done + [x]| && 0 <= j < |todo[k..]| && Examine(todo[k..][j], acl).Satisfied?
      ensures (done + [x])[i] != todo[k..][j]
    {
      assert todo[k..][j] == todo[j + k];
    }
  }

  lemma DistinctSuffix<T>(s: seq<T>, k: nat)
    requires k <= |s| && Distinct(s)
    ensures Distinct(s[k..])
  {
    forall i, j | 0 <= i < j < |s[k..]| ensures s[k..][i] != s[k..][j] {
      assert s[k..][i] == s[i + k] && s[k..][j] == s[j + k];
    }
  }

  lemma {:induction false} PassFromCursor(done: seq<Change>, todo: seq<Change>, needed: bool,
                                          acl: Option<map<string, Holding>>)
    requires Distinct(todo) && NoClash(done, todo, acl)
    ensures Pass(done + todo, |done|, needed, acl) == WithPrefix(done, needed, Walk(todo, acl))
    decreases |todo|, 1
  {
    if todo == [] {
      assert done + todo == done;
    } else {
      assert (done + todo)[|done|] == todo[0];
      match Examine(todo[0], acl)
      case Unreadable(e) =>
      case Absent => PassKeeps(done, todo, todo[0], needed, acl);
      case Short(missing) => PassKeeps(done, todo, Rewritten(todo[0], missing), needed, acl);
      case Satisfied => PassRemoves(done, todo, needed, acl);
    }
  }

  /** The step of the loop for an entry that stays, as it is or rewritten to `x`. */
  lemma {:induction false} PassKeeps(done: seq<Change>, todo: seq<Change>, x: Change, needed: bool,
                                     acl: Option<map<string, Holding>>)
    requires todo != [] && Distinct(todo) && NoClash(done, todo, acl)
    requires (Examine(todo[0], acl).Absent? && x == todo[0])
          || (Examine(todo[0], acl).Short? && x == Rewritten(todo[0], Examine(todo[0], acl).missing))
    ensures Pass(done + todo, |done|, needed, acl) == WithPrefix(done, needed, Walk(todo, acl))
    decreases |todo|, 0
  {
    var c := todo[0];
    assert (done + todo)[|done|] == c;
    DistinctSuffix(todo, 1);
    if Examine(c, acl).Absent? {
      assert done + todo == (done + [x]) + todo[1..];
    } else {
      assert (done + todo)[|done| := x] == (done + [x]) + todo[1..];
      forall j | 1 <= j < |todo| && Examine(todo[j], acl).Satisfied? ensures x != todo[j] {
        RewrittenNotSatisfied(c, Examine(c, acl).missing, todo[j], acl);
      }
    }
    NoClashExtend(done, x, todo, 1, acl);
    PassFromCursor(done + [x], todo[1..], true, acl);
    WithPrefixStep(done, x, needed, true, Walk(todo[1..], acl));
  }

  /** The step of the loop for a satisfied entry: it is removed, and the entry after it, now at
      the cursor, is passed over. */
  lemma {:induction false} PassRemoves(done: seq<Change>, todo: seq<Change>, needed: bool,
                                       acl: Option<map<string, Holding>>)
    requires todo != [] && Distinct(todo) && NoClash(done, todo, acl)
    requires Examine(todo[0], acl).Satisfied?
    ensures Pass(done + todo, |done|, needed, acl) == WithPrefix(done, needed, Walk(todo, acl))
    decreases |todo|, 0
  {
    var c := todo[0];
    assert (done + todo)[|done|] == c;
    assert c !in done;
    assert done + todo == done + [c] + todo[1..];
    RemoveFirstAfter(done, c, todo[1..]);
    if |todo| == 1 {
      assert done + todo[1..] == done;
    } else {
      var b := todo[1];
      assert done + todo[1..] == (done + [b]) + todo[2..];
      DistinctSuffix(todo, 2);
      NoClashExtend(done, b, todo, 2, acl);
      PassFromCursor(done + [b], todo[2..], needed, acl);
      WithPrefixStep(done, b, needed, false, Walk(todo[2..], acl));
    }
  }

  /** For a change list without repeated entries (such as `PermissionsConfig`), Python's loop
      amounts to `Walk`. */
  lemma PassIsWalk(changes: seq<Change>, acl: Option<map<string, Holding>>)
    requires Distinct(changes)
    ensures Pass(changes, 0, false, acl) == Walk(changes, acl)
  {
    PassFromCursor([], changes, false, acl);
    assert [] + changes == changes;
    match Walk(changes, acl)
    case Raised(e) =>
    case Ok((sent, n)) => assert [] + sent == sent;
  }

  /** What is sent for a change whose permissions are not all held: the change as it is when
      its principal is absent, reduced to the missing permissions otherwise. */
  function Reduced(c: Change, m: map<string, Holding>): (s: Change)
    ensures s.principal == c.principal
    ensures c.principal !in m ==> s == c
    ensures !Examine(c, Some(m)).Unreadable? && !HoldsAll(m, c) ==>
      Elems(s.add) == Elems(c.add) - Elems(HeldAt(m, c.principal))
    ensures Examine(c, Some(m)).Short? ==> Distinct(s.add)
  {
    match Examine(c, Some(m))
    case Short(missing) => Rewritten(c, missing)
    case _ => c
  }

  /** Reference definition of what reconciling against `m` sends: the changes whose
      permissions are not all held, in their order, each reduced. */
  function Pending(changes: seq<Change>, m: map<string, Holding>): (r: seq<Change>)
    ensures |r| <= |changes|
    ensures forall s :: s in r ==>
      exists i :: 0 <= i < |changes| && !HoldsAll(m, changes[i]) && s == Reduced(changes[i], m)
    ensures forall i :: 0 <= i < |changes| && !HoldsAll(m, changes[i]) ==> Reduced(changes[i], m) in r
    decreases |changes|
  {
    if changes == [] then []
    else
      var rest := Pending(changes[1..], m);
      assert forall i :: 1 <= i < |changes| ==> changes[i] == changes[1..][i - 1];
      if HoldsAll(m, changes[0]) then rest else [Reduced(changes[0], m)] + rest
  }

  /** Reconciliation as the script evidently intends it (see README, Findings): every change
      is examined, satisfied ones are left out and short ones keep only the missing
      permissions. */
  function Reconcile(changes: seq<Change>, acl: Option<map<string, Holding>>)
    : (r: Outcome<(seq<Change>, bool)>)
    ensures r.Raised? <==> exists i :: 0 <= i < |changes| && Examine(changes[i], acl).Unreadable?
    ensures r.Ok? ==> (r.value.1 <==> r.value.0 != [])
    ensures r.Ok? ==> (r.value.1 <==> exists i :: 0 <= i < |changes| && !Examine(changes[i], acl).Satisfied?)
    ensures r.Ok? && acl.Some? ==> r.value.0 == Pending(changes, acl.value)
    ensures r.Ok? && acl.None? ==> r.value == ([], false)
    ensures r.Ok? ==> |r.value.0| <= |changes|
    decreases |changes|
  {
    if changes == [] then Ok(([], false))
    else
      var c := changes[0];
      var rest := Reconcile(changes[1..], acl);
      assert forall i :: 1 <= i < |changes| ==> changes[i] == changes[1..][i - 1];
      match Examine(c, acl)
      case Unreadable(e) => Raised(e)
      case Absent => Prepend(c, true, rest)
      case Short(missing) => Prepend(Rewritten(c, missing), true, rest)
      case Satisfied => rest
  }

  /** The corrected loop raises exactly where lines 108-109 subscript a missing key: the
      `access_control_list` of the reply, once there is a change to examine, or the
      `permissions` of a listed principal. The error names that key. */
  lemma {:induction false} ReconcileRaises(changes: seq<Change>, acl: Option<map<string, Holding>>)
    ensures Reconcile(changes, acl).Raised? <==>
      changes != [] &&
      (acl.None? ||
       exists i :: 0 <= i < |changes| && changes[i].principal in acl.value &&
                   acl.value[changes[i].principal].permissions.None?)
    ensures Reconcile(changes, acl).Raised? ==>
      Reconcile(changes, acl).error ==
        if acl.None? then KeyMissing("access_control_list") else KeyMissing("permissions")
    decreases |changes|
  {
    if changes != [] {
      assert forall i :: 1 <= i < |changes| ==> changes[i] == changes[1..][i - 1];
      ReconcileRaises(changes[1..], acl);
    }
  }

  /** Whatever the as-written loop reports as needed is needed: it never sends a patch when
      every required permission is held. */
  lemma {:induction false} WalkSound(changes: seq<Change>, acl: Option<map<string, Holding>>)
    requires Walk(changes, acl).Ok? && Reconcile(changes, acl).Ok?
    ensures Walk(changes, acl).value.1 ==> Reconcile(changes, acl).value.1
    decreases |changes|
  {
    if changes != [] {
      match Examine(changes[0], acl)
      case Unreadable(e) =>
      case Absent =>
      case Short(missing) =>
      case Satisfied =>
        if |changes| > 1 {
          assert changes[1..][1..] == changes[2..];
          assert changes[1..][0] == changes[1];
          if Examine(changes[1], acl).Satisfied? {
            WalkSound(changes[2..], acl);
          }
        }
    }
  }

  /** When no satisfied change is followed by another one, nothing is skipped and the
      as-written loop sends exactly what the intended reconciliation sends. */
  lemma {:induction false} WalkWithoutSkips(changes: seq<Change>, acl: Option<map<string, Holding>>)
    requires forall j :: 0 <= j < |changes| - 1 ==> !Examine(changes[j], acl).Satisfied?
    ensures Walk(changes, acl) == Reconcile(changes, acl)
    decreases |changes|
  {
    if |changes| > 1 {
      assert forall j :: 0 <= j < |changes[1..]| - 1 ==> changes[1..][j] == changes[j + 1];
      WalkWithoutSkips(changes[1..], acl);
    }
  }

  /** The change list of `update_permissions` against an ACL where `xyz` already holds
      READ and WRITE and `group A` holds nothing: `group A` is never examined, the flag stays
      false, no patch is sent and the call reports success although `group A` lacks READ. */
  lemma SkippedEntryExample()
    ensures var acl := Some(map["xyz" := Holding(Some(["READ", "WRITE"])), "group A" := Holding(Some([]))]);
      && Pass(PermissionsConfig, 0, false, acl) == Ok(([Change("group A", ["READ"])], false))
      && Reconcile(PermissionsConfig, acl) == Ok(([Change("group A", ["READ"])], true))
  {
    var acl := Some(map["xyz" := Holding(Some(["READ", "WRITE"])), "group A" := Holding(Some([]))]);
    assert Missing(PermissionsConfig[0], ["READ", "WRITE"]) == {} by {
      assert Elems(["READ", "WRITE"]) == {"READ", "WRITE"};
    }
    assert Examine(PermissionsConfig[0], acl) == Satisfied;
    assert Missing(PermissionsConfig[1], []) == {"READ"} by {
      assert Elems(["READ"]) == {"READ"};
    }
    assert Examine(PermissionsConfig[1], acl) == Short({"READ"});
    assert InOrder(["READ"], {"READ"}) == ["READ"];
    assert RemoveFirst(PermissionsConfig, PermissionsConfig[0]) == [Change("group A", ["READ"])];
    var rest := [Change("group A", ["READ"])];
    assert PermissionsConfig[1..] == rest;
    assert rest[1..] == [];
    assert Examine(rest[0], acl) == Short({"READ"});
    assert Rewritten(rest[0], {"READ"}) == rest[0];
    assert Reconcile([], acl) == Ok(([], false));
    assert [rest[0]] + [] == rest;
    assert Reconcile(rest, acl) == Prepend(rest[0], true, Reconcile([], acl)) == Ok((rest, true));
    assert Reconcile(PermissionsConfig, acl) == Reconcile(rest, acl);
  }

  // ---------------------------------------------------------------------------
  // Idempotence of the intended reconciliation
  // ---------------------------------------------------------------------------

  function HeldAt(m: map<string, Holding>, p: string): seq<string>
  {
    if p in m && m[p].permissions.Some? then m[p].permissions.value else []
  }

  /** The platform's effect of a permissions patch, as assumed here: each listed principal
      holds its old permissions plus the added ones. */
  function Granted(m: map<string, Holding>, sent: seq<Change>): map<string, Holding>
    decreases |sent|
  {
    if sent == [] then m
    else
      var p := sent[0].principal;
      Granted(m[p := Holding(Some(HeldAt(m, p) + sent[0].add))], sent[1..])
  }

  predicate HoldsAll(m: map<string, Holding>, c: Change)
  {
    c.principal in m && m[c.principal].permissions.Some? && Elems(c.add) <= Elems(HeldAt(m, c.principal))
  }

  lemma {:induction false} GrantedGrows(m: map<string, Holding>, sent: seq<Change>, p: string)
    ensures p in m && m[p].permissions.Some? ==>
      p in Granted(m, sent) && Granted(m, sent)[p].permissions.Some?
    ensures Elems(HeldAt(m, p)) <= Elems(HeldAt(Granted(m, sent), p))
    decreases |sent|
  {
    if sent != [] {
      var q := sent[0].principal;
      var m' := m[q := Holding(Some(HeldAt(m, q) + sent[0].add))];
      assert Elems(HeldAt(m, p)) <= Elems(HeldAt(m', p));
      GrantedGrows(m', sent[1..], p);
    }
  }

  lemma {:induction false} GrantedCovers(m: map<string, Holding>, sent: seq<Change>, i: nat)
    requires i < |sent|
    ensures HoldsAll(Granted(m, sent), sent[i])
    decreases |sent|
  {
    var q := sent[0].principal;
    var m' := m[q := Holding(Some(HeldAt(m, q) + sent[0].add))];
    if i == 0 {
      assert HoldsAll(m', sent[0]);
      GrantedGrows(m', sent[1..], q);
    } else {
      GrantedCovers(m', sent[1..], i - 1);
    }
  }

  /** After every change is satisfied, the intended reconciliation needs nothing. */
  lemma {:induction false} AllHeldNothingNeeded(changes: seq<Change>, m: map<string, Holding>)
    requires forall i :: 0 <= i < |changes| ==> HoldsAll(m, changes[i])
    ensures Reconcile(changes, Some(m)) == Ok(([], false))
    decreases |changes|
  {
    if changes != [] {
      assert Examine(changes[0], Some(m)) == Satisfied;
      assert forall i :: 0 <= i < |changes[1..]| ==> changes[1..][i] == changes[i + 1];
      AllHeldNothingNeeded(changes[1..], Some(m).value);
    }
  }

  /** Any ACL that holds at least what `m` holds and at least what the intended reconciliation
      sends satisfies every change. */
  lemma {:induction false} SentCoversChanges(changes: seq<Change>, m: map<string, Holding>,
                                             after: map<string, Holding>)
    requires Reconcile(changes, Some(m)).Ok?
    requires forall p :: p in m && m[p].permissions.Some? ==> p in after && after[p].permissions.Some?
    requires forall p :: Elems(HeldAt(m, p)) <= Elems(HeldAt(after, p))
    requires forall s :: s in Reconcile(changes, Some(m)).value.0 ==> HoldsAll(after, s)
    ensures forall i :: 0 <= i < |changes| ==> HoldsAll(after, changes[i])
    decreases |changes|
  {
    if changes != [] {
      var c := changes[0];
      var rest := Reconcile(changes[1..], Some(m));
      assert rest.Ok?;
      forall s | s in rest.value.0 ensures HoldsAll(after, s) {
        match Examine(c, Some(m))
        case Absent => assert s in Reconcile(changes, Some(m)).value.0;
        case Short(missing) => assert s in Reconcile(changes, Some(m)).value.0;
        case Satisfied =>
      }
      SentCoversChanges(changes[1..], m, after);
      match Examine(c, Some(m))
      case Absent =>
        assert c in Reconcile(changes, Some(m)).value.0;
      case Short(missing) =>
        var c' := Rewritten(c, missing);
        assert c' in Reconcile(changes, Some(m)).value.0;
        assert HoldsAll(after, c');
        assert Elems(c.add) <= missing + Elems(HeldAt(m, c.principal));
      case Satisfied =>
        forall x | x in Elems(c.add) ensures x in Elems(HeldAt(m, c.principal)) {
          assert x !in Missing(c, HeldAt(m, c.principal));
        }
        assert HoldsAll(m, c);
      forall i | 0 <= i < |changes| ensures HoldsAll(after, changes[i]) {
        if i > 0 { assert changes[i] == changes[1..][i - 1]; }
      }
    }
  }

  /** Reconciling again after the platform applied the patch needs no call: the intended
      reconciliation is idempotent. */
  lemma ReconcileIdempotent(changes: seq<Change>, m: map<string, Holding>)
    requires Reconcile(changes, Some(m)).Ok?
    ensures Reconcile(changes, Some(Granted(m, Reconcile(changes, Some(m)).value.0))) == Ok(([], false))
  {
    var sent := Reconcile(changes, Some(m)).value.0;
    var after := Granted(m, sent);
    forall p ensures (p in m && m[p].permissions.Some? ==> p in after && after[p].permissions.Some?)
                  && Elems(HeldAt(m, p)) <= Elems(HeldAt(after, p)) {
      GrantedGrows(m, sent, p);
    }
    forall s | s in sent ensures HoldsAll(after, s) {
      var i :| 0 <= i < |sent| && sent[i] == s;
      GrantedCovers(m, sent, i);
    }
    SentCoversChanges(changes, m, after);
    AllHeldNothingNeeded(changes, after);
  }

  // ---------------------------------------------------------------------------
  // update_permissions and main
  // ---------------------------------------------------------------------------

  /** The calls and result of `update_permissions` once its loop over the fetched ACL has
      come to `loop`: the ACL is fetched; a status other than 200 gives `False`, an error of
      the loop propagates, and the changes are patched only when the loop set
      `changes_needed`, the result then being whether the patch got 200. */
  function PermissionStep(volumeId: string, current: Response<CurrentAcl>,
                          loop: Outcome<(seq<Change>, bool)>, patched: Response<()>): Run<Request, bool>
  {
    var fetch := [Call(GET, PermissionsOf(volumeId), None)];
    if current.status != 200 then Run(fetch, Ok(false))
    else
      match loop
      case Raised(e) => Run(fetch, Raised(e))
      case Ok((sent, needed)) =>
        if !needed then Run(fetch, Ok(true))
        else Run(fetch + [Call(PATCH, PermissionsOf(volumeId), Some(PermissionChanges(sent)))],
                 Ok(patched.status == 200))
  }

  /** `update_permissions`: fetch the ACL, run the loop over `changes` in place, and patch
      only when the loop set `changes_needed`. */
  method UpdatePermissions(volumeId: string, changes: seq<Change>, current: Response<CurrentAcl>,
                           patched: Response<()>)
    returns (calls: seq<Request>, r: Outcome<bool>)
    ensures |calls| >= 1 && calls[0] == Call(GET, PermissionsOf(volumeId), None)
    ensures current.status != 200 ==> calls == calls[..1] && r == Ok(false)
    ensures current.status == 200 ==>
      match Pass(changes, 0, false, current.body.accessControlList)
      case Raised(e) => calls == calls[..1] && r == Raised(e)
      case Ok((sent, needed)) =>
        if !needed then calls == calls[..1] && r == Ok(true)
        else calls == calls[..1] + [Call(PATCH, PermissionsOf(volumeId), Some(PermissionChanges(sent)))]
             && r == Ok(patched.status == 200)
    ensures Run(calls, r) == PermissionStep(volumeId, current, Pass(changes, 0, false, current.body.accessControlList), patched)
  {
    calls := [Call(GET, PermissionsOf(volumeId), None)];
    var fetched := CurrentPermissions(current);
    if fetched.None? {
      return calls, Ok(false);
    }
    var acl := fetched.value.accessControlList;
    var list := changes;
    var needed := false;
    var i := 0;
    while i < |list|
      invariant Pass(list, i, needed, acl) == Pass(changes, 0, false, acl)
      decreases |list| - i
    {
      var change := list[i];
      if acl.None? {
        return calls, Raised(KeyMissing("access_control_list"));
      }
      var principal := change.principal;
      if principal in acl.value {
        var held := acl.value[principal].permissions;
        if held.None? {
          return calls, Raised(KeyMissing("permissions"));
        }
        var missing := Elems(change.add) - Elems(held.value);
        if missing != {} {
          list := list[i := Change(principal, InOrder(change.add, missing))];
          needed := true;
        } else {
          list := RemoveFirst(list, change);
        }
      } else {
        needed := true;
      }
      i := i + 1;
    }
    if !needed {
      return calls, Ok(true);
    }
    calls := calls + [Call(PATCH, PermissionsOf(volumeId), Some(PermissionChanges(list)))];
    r := Ok(patched.status == 200);
  }

  /** One step of `Reconcile` from position `i`. */
  lemma ReconcileAt(changes: seq<Change>, i: nat, acl: Option<map<string, Holding>>)
    requires i < |changes|
    ensures Reconcile(changes[i..], acl) ==
      match Examine(changes[i], acl)
      case Unreadable(e) => Raised(e)
      case Absent => Prepend(changes[i], true, Reconcile(changes[i + 1..], acl))
      case Short(missing) => Prepend(Rewritten(changes[i], missing), true, Reconcile(changes[i + 1..], acl))
      case Satisfied => Reconcile(changes[i + 1..], acl)
  {
    assert changes[i..][1..] == changes[i + 1..];
  }

  /** `update_permissions` with the loop corrected (see README, Findings): every change is
      examined, and the changes still to send are collected in `sent`; `changes` itself is never
      shortened inside the loop. */
  method ReconcilePermissions(volumeId: string, changes: seq<Change>, current: Response<CurrentAcl>,
                              patched: Response<()>)
    returns (calls: seq<Request>, r: Outcome<bool>)
    ensures |calls| >= 1 && calls[0] == Call(GET, PermissionsOf(volumeId), None)
    ensures current.status != 200 ==> calls == calls[..1] && r == Ok(false)
    ensures current.status == 200 ==>
      match Reconcile(changes, current.body.accessControlList)
      case Raised(e) => calls == calls[..1] && r == Raised(e)
      case Ok((sent, needed)) =>
        if !needed then calls == calls[..1] && r == Ok(true)
        else calls == calls[..1] + [Call(PATCH, PermissionsOf(volumeId), Some(PermissionChanges(sent)))]
             && r == Ok(patched.status == 200)
    ensures Run(calls, r) == PermissionStep(volumeId, current, Reconcile(changes, current.body.accessControlList), patched)
  {
    calls := [Call(GET, PermissionsOf(volumeId), None)];
    var fetched := CurrentPermissions(current);
    if fetched.None? {
      return calls, Ok(false);
    }
    var acl := fetched.value.accessControlList;
    var sent: seq<Change> := [];
    var needed := false;
    var i := 0;
    assert changes[0..] == changes;
    match Reconcile(changes, acl) {
      case Raised(_) =>
      case Ok((all, _)) => assert [] + all == all;
    }
    while i < |changes|
      invariant i <= |changes|
      invariant WithPrefix(sent, needed, Reconcile(changes[i..], acl)) == Reconcile(changes, acl)
    {
      var c := changes[i];
      ReconcileAt(changes, i, acl);
      match Examine(c, acl) {
        case Unreadable(e) =>
          return calls, Raised(e);
        case Absent =>
          WithPrefixStep(sent, c, needed, true, Reconcile(changes[i + 1..], acl));
          sent := sent + [c];
          needed := true;
        case Short(missing) =>
          WithPrefixStep(sent, Rewritten(c, missing), needed, true, Reconcile(changes[i + 1..], acl));
          sent := sent + [Rewritten(c, missing)];
          needed := true;
        case Satisfied =>
      }
      i := i + 1;
    }
    assert sent + [] == sent;
    if !needed {
      return calls, Ok(true);
    }
    calls := calls + [Call(PATCH, PermissionsOf(volumeId), Some(PermissionChanges(sent)))];
    r := Ok(patched.status == 200);
  }

  datatype VolumeReplies = VolumeReplies(
    listing: Response<VolumeList>, written: Response<VolumeInfo>,
    current: Response<CurrentAcl>, patched: Response<()>)

  /** `main`: update the permissions only when a truthy volume id came back. The result of
      `update_permissions` is discarded; an error raised anywhere ends the script. */
  method RunScript(config: VolumeConfig, changes: seq<Change>, replies: VolumeReplies)
    returns (calls: seq<Request>, r: Outcome<()>)
    ensures var run := CreateOrUpdateVolume(config, replies.listing, replies.written);
      match run.outcome
      case Raised(e) => calls == run.calls && r == Raised(e)
      case Ok(id) =>
        if !NonEmpty(id) then calls == run.calls && r == Ok(())
        else
          var step := PermissionStep(id.value, replies.current,
                                     Pass(changes, 0, false, replies.current.body.accessControlList),
                                     replies.patched);
          && calls == run.calls + step.calls
          && r == (if step.outcome.Raised? then Raised(step.outcome.error) else Ok(()))
  {
    var run := CreateOrUpdateVolume(config, replies.listing, replies.written);
    calls := run.calls;
    if run.outcome.Raised? {
      return calls, Raised(run.outcome.error);
    }
    var volumeId := run.outcome.value;
    r := Ok(());
    if NonEmpty(volumeId) {
      var more, updated := UpdatePermissions(volumeId.value, changes, replies.current, replies.patched);
      calls := calls + more;
      if updated.Raised? {
        r := Raised(updated.error);
      }
    }
  }

  /** `main` with the corrected permission step of `ReconcilePermissions`. */
  method RunScriptCorrected(config: VolumeConfig, changes: seq<Change>, replies: VolumeReplies)
    returns (calls: seq<Request>, r: Outcome<()>)
    ensures var run := CreateOrUpdateVolume(config, replies.listing, replies.written);
      match run.outcome
      case Raised(e) => calls == run.calls && r == Raised(e)
      case Ok(id) =>
        if !NonEmpty(id) then calls == run.calls && r == Ok(())
        else
          var step := PermissionStep(id.value, replies.current,
                                     Reconcile(changes, replies.current.body.accessControlList),
                                     replies.patched);
          && calls == run.calls + step.calls
          && r == (if step.outcome.Raised? then Raised(step.outcome.error) else Ok(()))
  {
    var run := CreateOrUpdateVolume(config, replies.listing, replies.written);
    calls := run.calls;
    if run.outcome.Raised? {
      return calls, Raised(run.outcome.error);
    }
    var volumeId := run.outcome.value;
    r := Ok(());
    if NonEmpty(volumeId) {
      var more, updated := ReconcilePermissions(volumeId.value, changes, replies.current, replies.patched);
      calls := calls + more;
      if updated.Raised? {
        r := Raised(updated.error);
      }
    }
  }

  /** The finding at the level of the script: against the ACL of `SkippedEntryExample`, the
      as-written permission step reports success without a patch, while the corrected one
      patches the change that `group A` still needs. */
  lemma SkippedEntryNotPatched(volumeId: string, patched: Response<()>)
    ensures var acl := Some(map["xyz" := Holding(Some(["READ", "WRITE"])), "group A" := Holding(Some([]))]);
      var current := Response(200, CurrentAcl(acl));
      && PermissionStep(volumeId, current, Pass(PermissionsConfig, 0, false, acl), patched)
         == Run([Call(GET, PermissionsOf(volumeId), None)], Ok(true))
      && PermissionStep(volumeId, current, Reconcile(PermissionsConfig, acl), patched)
         == Run([Call(GET, PermissionsOf(volumeId), None),
                 Call(PATCH, PermissionsOf(volumeId), Some(PermissionChanges([Change("group A", ["READ"])])))],
                Ok(patched.status == 200))
  {
    SkippedEntryExample();
  }

  /** The default volume, found under `id` in a listing that answers 200, is looked up in its
      catalog and schema and then patched in place. */
  lemma DefaultVolumeUpdated(id: string, others: seq<ListedVolume>, written: Response<VolumeInfo>)
    requires id != ""
    ensures var listing := Response(200, VolumeList(Some([ListedVolume(Some(DefaultVolume.name), Some(id))] + others)));
      CreateOrUpdateVolume(DefaultVolume, listing, written).calls ==
        [Call(GET, Listing("my_catalog", "my_schema"), None),
         Call(PATCH, Volume(id), Some(VolumeSpec(DefaultVolume)))]
  {
  }
}
