# Databricks provisioning scripts, modelled in Dafny

Four Python scripts set up workspace objects through the Databricks REST API:

- `create_volume.py` creates or updates a Unity Catalog volume, then grants permissions on it.
- `create_groups.py` lists every SCIM group page by page, then creates a group if it is absent. It adds a manager user and a manager group as members, gives the manager group `CAN_MANAGE` on the group, and adds the group to the workspace with `CAN_USE`.
- `create_job_2.py` resolves a service principal and a group, finds the job that runs a given notebook, updates that job or creates it, and sets its ACL.
- `create_job.py` finds a job by name, writes the found id into the caller's configuration, and updates or creates the job. It also builds the job's permission request.

The model turns every reply of the platform into an input value, `Common.Response(status, body)`. A body is a typed record. Each JSON key the script reads is an `Option` field, and `None` means the key is absent.

A script becomes a function or a method that returns two things:

- `calls`: the HTTP requests it issues, in order, each as `Call(verb, endpoint, body)`;
- an `Outcome`: either `Ok(value)` or `Raised(error)`.

Python behaviours are modelled as follows:

- A subscript `d["k"]` on an absent key raises `KeyMissing("k")`; `d.get("k", default)` yields the default.
- An exception with a message about a status becomes `HttpStatus(status)`; one about a missing principal becomes `NotFound(kind, name)`.
- Truthiness is written out. A string id is truthy when present and non-empty (`NonEmpty`), an integer id when present and non-zero (`NonZero`). A SCIM resource is truthy when it has some key (`Groups.Present`).

Modules follow the files:

| module | models |
|---|---|
| `Common` | the values shared by all four scripts |
| `Volumes` | create_volume.py |
| `Groups` | create_groups.py |
| `JobListing` | the `jobs/list` reply, which both job scripts read |
| `NotebookJob` | create_job_2.py |
| `NamedJob` | create_job.py |

Pure classification and search code is written as functions. Three parts of the source work step by step, and the model keeps that form:

- The `for` loop of `update_permissions` is a `while` loop in `Volumes.UpdatePermissions`, the as-written model. It rewrites the change list in place and removes the first equal element, exactly as `list.remove` does. Its literal iterator semantics are the function `Volumes.Pass`, which keeps a cursor into a list that shrinks.
- The paging loop of `list_all_groups` is a `while` loop in `Groups.ListAllGroups`. It is proved against the closed-form account `Groups.AllGroups` and `Groups.PageCalls`.
- The caller's `job_config` dictionary, which `create_or_update_job` writes to, is the class `NamedJob.JobConfig`.

## Model

| member | source | states |
|---|---|---|
| Volumes.FindVolume | create_volume.py:42-44 | The result is `None` exactly when every listed volume has a name and none equals the argument. A returned id belongs to the first volume with that name, and every earlier volume has a different name. Any error is a missing `name` or `volume_id` key. |
| Volumes.FindVolumeFirstMatch | create_volume.py:42-44 | If volume k is named as asked and all earlier volumes have other names, the search returns volume k's id, or raises the missing `volume_id` when volume k has none. |
| Volumes.UnnamedVolumeRaises | create_volume.py:43 | A volume listed without `name`, with every earlier volume named otherwise, makes the search raise the missing `name` key. |
| Volumes.GetVolumeId | create_volume.py:34-45 | A status other than 200 gives `None`. A 200 body without `volumes` raises. Otherwise the result is the first-match search over the listed volumes. |
| Volumes.CreateOrUpdateVolume | create_volume.py:47-75 | One listing GET comes first. If the lookup succeeds, exactly one write follows: a PATCH to `volumes/{id}` exactly when a truthy id was found, otherwise a POST to `volumes`, each carrying the configuration. Status 200 or 201 returns the body's `volume_id` and raises when it is absent. Any other status returns `None`. |
| Volumes.CurrentPermissions | create_volume.py:77-82 | The parsed body is returned exactly when the status is 200. Otherwise nothing is returned. |
| Volumes.InOrder | create_volume.py:110-112 | The rewritten `add` list holds exactly the missing permissions, each once. |
| Volumes.Examine | create_volume.py:105-117 | A missing `access_control_list` is unreadable. A principal absent from the ACL is `Absent`, and one present without `permissions` is unreadable. A change is `Satisfied` exactly when its principal holds every requested permission. A change is unreadable exactly when the ACL or that principal's `permissions` is missing, and `Short` exactly when its principal is listed with `permissions` but lacks a requested one. `Short` carries exactly the requested permissions minus the held ones, a non-empty set. |
| Volumes.RemoveFirst | create_volume.py:115 | `list.remove` on a list holding the element gives a list one shorter. Which occurrence goes is stated by `RemoveFirstCount` and `RemoveFirstAfter`. |
| Volumes.RemoveFirstCount | create_volume.py:115 | `list.remove` takes away exactly one occurrence of the element. |
| Volumes.RemoveFirstAfter | create_volume.py:115 | When no earlier entry equals the removed one, `list.remove` deletes exactly the entry at the cursor. |
| Volumes.Pass | create_volume.py:104-117 | Definition of the literal loop, with a cursor into a list the body rewrites and shrinks. Its properties are stated by `PassKeeps`, `PassRemoves`, `PassFromCursor`, `PassIsWalk` and `SkippedEntryExample`. |
| Volumes.Walk | create_volume.py:104-117 | Definition of the same loop read along the original list, where the entry after a removed one is sent unexamined. It is related to `Pass` by `PassIsWalk` and to `Reconcile` by `WalkSound` and `WalkWithoutSkips`. |
| Volumes.PassFromCursor | create_volume.py:104-117 | From any cursor position, the in-place loop over pairwise-distinct entries equals the head-recursive walk over the entries not yet visited. |
| Volumes.PassKeeps | create_volume.py:108-117 | Induction step for an entry that is absent or short, so stays in the list: the loop from this entry equals the prefix so far followed by `Walk` of the entries from here on. |
| Volumes.PassRemoves | create_volume.py:114-115 | Induction step for a satisfied entry, which is removed: the loop from this entry equals the prefix so far followed by `Walk` of the entries from here on, a walk that passes over the next entry. |
| Volumes.PassIsWalk | create_volume.py:104-117 | For pairwise-distinct changes, the in-place loop, with its shrinking list and cursor, equals the head-recursive walk `Walk`. After a removal, that walk skips the next entry. |
| Volumes.Reduced | create_volume.py:108-117 | A change that is not satisfied keeps its principal. An absent principal's change is sent unchanged. A short one asks for exactly the requested permissions minus the held ones, each once. |
| Volumes.Pending | create_volume.py:104-117 | The reference list of what must be sent: no longer than the changes. Every entry is the reduced form of a change whose permissions are not all held. Every such change has its reduced form in the list. |
| Volumes.Reconcile | create_volume.py:103-117 | The corrected loop, which examines every entry. It raises exactly when some entry is unreadable in `Examine`'s sense; `ReconcileRaises` spells that out key by key. Otherwise the list sent is exactly `Pending`: the unsatisfied changes in order, each reduced to what it lacks. `changes_needed` holds exactly when that list is non-empty, that is, exactly when some entry is not satisfied. |
| Volumes.ReconcileRaises | create_volume.py:104-109 | The corrected loop raises exactly when the change list is non-empty and either the `access_control_list` key is missing or some listed principal has no `permissions` key. The error names that missing key. |
| Volumes.WalkSound | create_volume.py:103-117 | Whenever the as-written loop sets `changes_needed`, the corrected loop does too. |
| Volumes.WalkWithoutSkips | create_volume.py:104-117 | If no entry except possibly the last is already satisfied, nothing is skipped, and the as-written loop equals the corrected one. |
| Volumes.SkippedEntryExample | create_volume.py:104-117 | Take the script's own two changes, with `xyz` already holding READ and WRITE and `group A` holding nothing. The as-written loop keeps `group A`'s change in the list but never examines it, so it reports no change needed and no PATCH is sent. The corrected loop sends `group A: [READ]` and reports a change needed. |
| Volumes.GrantedCovers | create_volume.py:123-129 | If the PATCH grants what it sends, then afterwards every principal sent holds every permission sent for it. |
| Volumes.AllHeldNothingNeeded | create_volume.py:103-121 | If every principal already holds what it asks for, the corrected loop sends nothing and needs no change. |
| Volumes.SentCoversChanges | create_volume.py:104-129 | If an ACL keeps what it held and holds everything that was sent, then it satisfies every original change. |
| Volumes.ReconcileIdempotent | create_volume.py:103-129 | Reconcile, then grant what it sent: a second reconciliation against the resulting ACL finds nothing to change. |
| Volumes.PermissionStep | create_volume.py:84-137 | Definition of the calls and result of `update_permissions` for a given loop result. It is stated through `UpdatePermissions`, `ReconcilePermissions` and `SkippedEntryNotPatched`. |
| Volumes.UpdatePermissions | create_volume.py:84-137 | The method is tied to the literal loop `Pass`, and its calls and result are `PermissionStep` of that loop. It first GETs the permissions. On a status other than 200 it returns False with no PATCH. An unreadable ACL raises. When no change is needed it returns True with no PATCH. Otherwise it PATCHes the rewritten list and returns whether that status is 200. |
| Volumes.ReconcilePermissions | create_volume.py:84-137 | The corrected `update_permissions`, tied to `Reconcile`, whose calls and result are `PermissionStep` of that loop. It first GETs the permissions. On a status other than 200 it returns False with no PATCH. An unreadable ACL raises. When every change is already satisfied it returns True with no PATCH. Otherwise it PATCHes exactly the changes not yet satisfied, with short ones reduced to what they lack, and returns whether that status is 200. |
| Volumes.RunScript | create_volume.py:140-143 | `main` as written. An exception from create-or-update ends the run after its calls. Without a truthy volume id the run is just those calls. With one, the calls are followed by exactly those of the as-written permission step (`PermissionStep` of `Pass`) for that id. Its boolean result is discarded and its exception propagates. |
| Volumes.RunScriptCorrected | create_volume.py:140-143 | The same `main` with the corrected permission step (`PermissionStep` of `Reconcile`). |
| Volumes.SkippedEntryNotPatched | create_volume.py:103-129 | Against the ACL of `SkippedEntryExample`, the as-written step makes only the GET and returns True. The corrected step also PATCHes `group A`'s change for READ. |
| Volumes.DefaultVolumeUpdated | create_volume.py:25-64 | The default volume configuration, found under id `id` in a 200 listing, is looked up in `my_catalog`.`my_schema` and then PATCHed to `volumes/{id}` with that configuration. |
| Groups.AllGroups | create_groups.py:17-37 | Definition of what the paging ends with, as a closed form. It is stated through `ListAllGroups`, `AllGroupsSize` and `AllGroupsFails`. |
| Groups.LastPage | create_groups.py:21-35 | Paging stops at the first page that is not 200 or has fewer than 100 resources. Every earlier page is full and 200. |
| Groups.PageCalls | create_groups.py:19-23 | Request i asks for `startIndex = 1 + 100*i` with `count = 100`. |
| Groups.ListAllGroups | create_groups.py:17-37 | The loop issues exactly the page requests up to and including the last page. It returns the concatenation, in fetch order, of every page's `Resources` (a missing list counts as empty), or raises on a non-200 page. |
| Groups.ConcatAtLeast | create_groups.py:31-35 | n full pages contribute at least 100*n groups. |
| Groups.ConcatLast | create_groups.py:31 | Each page extends the accumulated list at its end. |
| Groups.AllGroupsSize | create_groups.py:29-35 | A successful listing holds at least 100 times the number of full pages, and all of the last page. |
| Groups.AllGroupsFails | create_groups.py:26-27 | A non-200 page after full pages raises with that status. The groups gathered so far are not returned. |
| Groups.FindGroup | create_groups.py:40-48 | It raises exactly on a status other than 200. Otherwise it returns the first filtered resource, or `None` exactly when there is none. |
| Groups.CreateGroup | create_groups.py:51-61 | Only 201 succeeds, returning the body. Every other status raises, 200 included. |
| Groups.GetUserId | create_groups.py:64-75 | A status other than 200 raises. An empty result raises user-not-found. Otherwise the first resource's `id` is returned, raising if that key is missing. |
| Groups.AddMemberToGroup | create_groups.py:78-95 | The call returns normally exactly on 200 (added) or 409 (already a member, section 3.5.2.1 of RFC 7644). Every other status raises. |
| Groups.PermissionsSet | create_groups.py:112-115 | A permission call succeeds exactly on 200 and raises otherwise. |
| Groups.RunScript | create_groups.py:138-170 | The listing comes first. A failed listing is printed and ends the run. Otherwise provisioning follows. No exception escapes. |
| Groups.Provision | create_groups.py:144-151 | Definition of step 2: look up the group and create it only when absent. It is stated through `ExistingGroupNotCreated`, `CreatedExactlyWhenAbsent` and `ProvisionStopsAtFailure`. |
| Groups.ProvisionStopsAtFailure | create_groups.py:144-151 | A failed lookup ends the run after that one call. A found group without `id` ends it there too. A failed create, or a created group without `id`, ends it after the lookup and the create. In each case the error is what gets printed, and steps 3 to 6 are never reached. A group with an `id`, found or created, is followed by exactly the calls of steps 3 to 6 for that id. |
| Groups.ManageGroup | create_groups.py:153-167 | Definition of steps 3 to 6. It is stated through `ManageGroupStopsAtFailure`, `ManagerGroupMissingEndsRun`, `ManageGroupCompletes`, `MissingManagerStopsEarly` and `CompletedRunMadeEveryCall`. |
| Groups.ManageGroupStopsAtFailure | create_groups.py:153-167 | A failed user lookup, a failed user add, a failed manager-group lookup, a manager group without `id`, a failed manager add, a failed `set_group_permissions` or a failed workspace call ends the run right after that call. The calls made are exactly those up to it, and its error is what gets printed. |
| Groups.ManagerGroupMissingEndsRun | create_groups.py:153-160 | With the user found and added, a manager-group lookup that finds nothing ends the run with the not-found error after exactly three calls. The user add, the second call, is the only member add, and no permission call is made. |
| Groups.ManageGroupCompletes | create_groups.py:153-167 | When every reply succeeds, steps 3 to 6 make exactly six calls and complete: the user lookup, the user add to `groupId`, the manager-group lookup, the manager-group add to `groupId`, the permissions call for `groupId` and the workspace call. |
| Groups.ExistingGroupNotCreated | create_groups.py:144-149 | When `find_group` finds the target group, no create request is ever sent. |
| Groups.CreatedExactlyWhenAbsent | create_groups.py:144-151 | A create request is sent exactly when the lookup succeeds and finds no truthy group. |
| Groups.CreatedGroupUsedThroughout | create_groups.py:144-167 | A target group that is absent is created. When every later reply succeeds, the id from the create reply is the one both member adds and the permissions call use, and the run completes after eight calls. |
| Groups.MissingManagerStopsEarly | create_groups.py:153-167 | The converse: a run that ended with the manager-group error found that group missing. By then only the manager user was added, the second call being the only member add, and neither permission call was made. |
| Groups.CompletedRunMadeEveryCall | create_groups.py:153-167 | A completed run made, in order: the user lookup, the user add, the manager-group lookup, the manager-group add, the group permissions call and the workspace call. Each of them succeeded, and the two adds are the only member-add calls. |
| NotebookJob.BaseParameters | create_job_2.py:71 | Definition of the dict comprehension, built left to right. It is stated through `BaseParametersKeys` and `BaseParametersLast`. |
| NotebookJob.BaseParametersKeys | create_job_2.py:71 | The keys of `base_parameters` are exactly the input names. |
| NotebookJob.BaseParametersLast | create_job_2.py:71 | A name maps to the default of its last occurrence, so a later duplicate overrides an earlier one. |
| NotebookJob.Parameters | create_job_2.py:86-92 | There is one entry per input, in the same order, with the input's name and default, and type always "text". |
| NotebookJob.CreatePayload | create_job_2.py:59-94 | Definition of the create body. It is stated through `UpdateCarriesCreateSettings`, `DefaultPayload` and `CreateJob`. |
| NotebookJob.UpdatePayload | create_job_2.py:97-135 | Definition of the update body. It is stated through `UpdateCarriesCreateSettings` and `UpdateJob`. |
| NotebookJob.UpdateCarriesCreateSettings | create_job_2.py:59-135 | The update body's `new_settings` equals the create body, with the job id at the top level. |
| NotebookJob.DefaultPayload | create_job_2.py:13-16 | The configured inputs map `env` to `dev` and `date` to `2025-08-04`, and they become two text parameters in that order. |
| NotebookJob.ApiCall | create_job_2.py:21-28 | The request targets `/api/{version}/{endpoint}` with the given verb, and it carries exactly the given data as its body: none when no data is given. |
| NotebookJob.Classify | create_job_2.py:29-31 | It raises exactly for a status other than 200 or 201. An empty body reads as `{}`. |
| NotebookJob.FirstId | create_job_2.py:36-39 | The first resource's `id` is returned. A missing or empty `Resources` raises not-found. |
| NotebookJob.GetServicePrincipalId | create_job_2.py:34-39 | One GET is made, with the filter on the service principal's name, at version 2.0. The result is the first id, or a not-found error. |
| NotebookJob.GetGroupId | create_job_2.py:42-47 | One GET is made, with the filter on the group's name, at version 2.0. The result is the first id, or a not-found error. |
| NotebookJob.HasNotebookTask | create_job_2.py:53-54 | It holds exactly when some task's `notebook_task.notebook_path` equals the path. Missing keys count as non-matching. |
| NotebookJob.FindJob | create_job_2.py:52-56 | The result is `None` exactly when no job has such a task. Otherwise it is the `job_id` of the first such job, in list order, and it raises when that key is missing. |
| NotebookJob.FindJobFirstMatch | create_job_2.py:52-56 | If job k is the first with a task for the path, the search returns job k's `job_id`, or raises the missing `job_id` when job k has none. |
| NotebookJob.FindJobByNotebook | create_job_2.py:50-56 | One GET of `jobs/list` is made. A missing `jobs` or an empty body counts as no jobs. A status other than 200 or 201 raises. |
| NotebookJob.CreateJob | create_job_2.py:59-94 | One POST of the create payload to `jobs/create` is made, and the reply is classified. |
| NotebookJob.UpdateJob | create_job_2.py:97-135 | One POST of the update payload to `jobs/update` is made, and the reply is classified. |
| NotebookJob.SetJobPermissions | create_job_2.py:138-152 | One PATCH of the job ACL to `permissions/jobs/{id}` at version 2.0 is made. It raises exactly for a status other than 200 or 201, and the error carries that status. |
| NotebookJob.JobAcl | create_job_2.py:139-150 | Definition of the job ACL. It is stated through `JobAclGrants` and `SetJobPermissions`. |
| NotebookJob.JobAclGrants | create_job_2.py:139-150 | The ACL has two entries: the group with `CAN_MANAGE_RUN` and the service principal with `IS_OWNER`. |
| NotebookJob.ChooseJob | create_job_2.py:161-168 | A truthy existing id is updated and kept. Otherwise the job is created, and the reply's `job_id` is used. A failed write raises with its status, and a create reply without `job_id` raises the missing key. |
| NotebookJob.Configure | create_job_2.py:161-170 | A job write that raises ends the step with no further call. Otherwise the write is followed by exactly the permission PATCH for the chosen id, and a failed PATCH raises with its status. The step succeeds exactly when both succeed. |
| NotebookJob.RunScript | create_job_2.py:155-172 | The run starts with the service-principal lookup and makes at most five calls. |
| NotebookJob.LookupFailureEndsRun | create_job_2.py:155-159 | The first lookup that raises ends the run: the calls are the lookups up to and including it, and the outcome is its error. This holds in turn for the service principal, the group and `jobs/list`. |
| NotebookJob.PrincipalsFirst | create_job_2.py:156-157 | A missing service principal or group raises before any job call. |
| NotebookJob.LookupsThenConfigure | create_job_2.py:155-170 | After three successful lookups, the run is those three calls followed by the configure step. |
| NotebookJob.ExistingJobUpdated | create_job_2.py:159-164 | With a truthy existing id, the fourth call is the update, no create is sent, and that id is the result. |
| NotebookJob.MissingJobCreated | create_job_2.py:165-168 | Without a truthy existing id, the fourth call is the create, no update is sent, and the result is the create reply's `job_id`. |
| NotebookJob.CompletedRunSetsPermissions | create_job_2.py:155-172 | A completed run made exactly five calls: a job write fourth, and the permission PATCH for the resulting id last. |
| NamedJob.JobConfig.constructor | create_job.py:22-37 | The new configuration holds exactly the given name, job id and other keys. |
| NamedJob.FindJobNamed | create_job.py:44-46 | The result is `None` exactly when every job has a `settings.name` and none equals the name. A returned id is the first match's `job_id`. Errors are missing `settings`, `name` or `job_id`. |
| NamedJob.FindJobNamedFirstMatch | create_job.py:44-46 | If job k is the first named as asked, and every earlier job has a different name, the search returns job k's `job_id`, or raises the missing `job_id` when job k has none. |
| NamedJob.UnnamedJobRaises | create_job.py:45 | A job without `settings`, or whose settings lack `name`, before any match makes the search raise that missing key. |
| NamedJob.GetJobIdByName | create_job.py:39-47 | A status other than 200 gives `None`. A 200 body without `jobs` raises. Otherwise the result is the first-match search. |
| NamedJob.WriteResult | create_job.py:74-81 | On 200 the result is the body's `job_id`, possibly `None`. Otherwise it is `None`. |
| NamedJob.CreateOrUpdateJob | create_job.py:49-81 | A missing `name` raises before any call. With a truthy found id, the id is written into the caller's configuration and that configuration is POSTed to `jobs/update`. Otherwise the configuration is POSTed unchanged to `jobs/create`. Nothing else in the configuration changes. |
| NamedJob.SetJobPermissions | create_job.py:83-108 | One PUT replaces the job's ACL with the owner as `IS_OWNER` and the group as `CAN_MANAGE_RUN`. The result says whether the reply status is 200, which is where the script goes on to branch. |
| NamedJob.JobAcl | create_job.py:87-98 | Definition of `desired_permissions`. It is stated through `AclRoles` and `SetJobPermissions`. |
| NamedJob.AclRoles | create_job.py:87-98 | The owner is the only `IS_OWNER` entry, and the group the only `CAN_MANAGE_RUN` entry. |
| NamedJob.DefaultUpdate | create_job.py:22-62 | Take the default configuration and a listing whose first job has that name. The script sends the listing GET, then an update carrying the default body with that job's id added. |

## Left out

- HTTP transport, TLS, connection pools and disabling warnings. A request is a `Call` value, and its reply is an input.
- JSON encoding and decoding, URL query strings, headers and the bearer-token constants. A body is a typed record. A reply that does not parse as JSON, and JSON `null` values, are not modelled.
- Key order inside JSON objects is not modelled.
- `print` output, including the lines that report success or failure.
- What the platform does with a create, update or permission call. `Volumes.Granted` is an assumed effect of a successful permissions PATCH: every principal sent now holds what was sent. It is used only to state idempotence.
- Concurrent runs racing on the remote state.
- `set(...)` iteration order. Python orders `list(missing_permissions)` by hash. `Volumes.InOrder` fixes the order of first appearance in `add`, and the contract states only the set of permissions and that each appears once.
- Termination of `list_all_groups` against a server that always returns full pages. `Groups.ListAllGroups` requires the page sequence to contain a page that ends paging.
- `NamedJob.JobConfig`: only `name` and `job_id` are modelled. The other keys of `job_config` are carried as a set of key names, because the script never reads or writes their values.
- `NamedJob.SetJobPermissions`: create_job.py is cut off in the middle of line 108, so only the request and the test for status 200 are modelled.
- `Volumes.RunScript` passes the change list as a parameter; the script fixes it as the constant `Volumes.PermissionsConfig`. It calls the as-written `Volumes.UpdatePermissions`. `Volumes.RunScriptCorrected` is the same script with the corrected `Volumes.ReconcilePermissions` (see Findings).
- `Volumes.PassFromCursor` and `Volumes.PassIsWalk` assume pairwise-distinct change entries when relating the literal loop to `Walk`. The literal loop `Volumes.Pass` itself has no such assumption.

## Findings

| source | as written | input that shows it | evidently intended | confidence | as-written member | corrected member |
|---|---|---|---|---|---|---|
| create_volume.py:104-117 | `permissions_config['changes'].remove(change)` inside `for change in permissions_config['changes']` shifts the list under the iterator, so the entry after a removed one is never examined | the script's own changes `xyz: [READ, WRITE]` and `group A: [READ]` against an ACL where `xyz` holds READ and WRITE and `group A` holds nothing: `group A` is skipped, `changes_needed` stays False, and no PATCH is sent although `group A` lacks READ | examine every entry; send the entries that still lack permissions, reduced to what they lack; patch when that list is non-empty | not executed | Volumes.SkippedEntryExample | Volumes.Reconcile |
