/** create_job_2.py: resolve a service principal and a group, find the job that runs a given
    notebook, update it or create it from the same settings, and set its permissions. */
module NotebookJob {
  import opened Common
  import opened JobListing

  /** One entry of `INPUT_PARAMETERS`. */
  datatype InputParameter = InputParameter(name: string, default: string, paramType: string)

  /** The configuration constants of the script. */
  datatype Config = Config(
    notebookPath: string, jobName: string, servicePrincipalName: string,
    groupName: string, jobDescription: string, inputParameters: seq<InputParameter>)

  const DefaultConfig := Config(
    "/Repos/Analytics/Reports/MyNotebook", "Sample Job with Service Principal", "xvy", "data-engineers",
    "This job runs a notebook using service principal 'xvy' and allows 'data-engineers' to manage runs.",
    [InputParameter("env", "dev", "text"), InputParameter("date", "2025-08-04", "text")])

  // ---------------------------------------------------------------------------
  // Payloads
  // ---------------------------------------------------------------------------

  datatype NewCluster = NewCluster(sparkVersion: string, nodeTypeId: string, numWorkers: int)
  datatype JobCluster = JobCluster(jobClusterKey: string, newCluster: NewCluster)
  datatype NotebookSpec = NotebookSpec(notebookPath: string, baseParameters: map<string, string>)
  datatype TaskSpec = TaskSpec(taskKey: string, notebookTask: NotebookSpec, jobClusterKey: string)
  datatype JobParameter = JobParameter(name: string, default: string, paramType: string)

  /** The job settings object; `runAs` is `run_as.service_principal_name`. */
  datatype JobSettings = JobSettings(
    name: string, description: string, runAs: string,
    tasks: seq<TaskSpec>, jobClusters: seq<JobCluster>, parameters: seq<JobParameter>)

  datatype AclEntry =
    | GroupAcl(groupName: string, permissionLevel: string)
    | ServicePrincipalAcl(servicePrincipalName: string, permissionLevel: string)

  datatype Payload =
    | CreateBody(settings: JobSettings)
    | UpdateBody(jobId: int, newSettings: JobSettings)
    | AclBody(accessControlList: seq<AclEntry>)

  /** Paths under `/api/{version}/`. */
  datatype Path =
    | ServicePrincipalsNamed(name: string)  // preview/scim/v2/ServicePrincipals?filter=displayName eq ".."
    | GroupsNamed(name: string)             // preview/scim/v2/Groups?filter=displayName eq ".."
    | JobsList                              // jobs/list
    | JobsCreate                            // jobs/create
    | JobsUpdate                            // jobs/update
    | JobPermissions(jobId: int)            // permissions/jobs/{id}

  datatype Endpoint = Endpoint(version: string, path: Path)

  type Request = Call<Endpoint, Payload>

  /** The default `version` of `databricks_api`. */
  const JobsVersion := "2.2"

  /** `{p["name"]: p["default"] for p in INPUT_PARAMETERS}`, built left to right. */
  function BaseParameters(ps: seq<InputParameter>): map<string, string>
    decreases |ps|
  {
    if ps == [] then map[]
    else BaseParameters(ps[..|ps| - 1])[ps[|ps| - 1].name := ps[|ps| - 1].default]
  }

  /** The names of the inputs. */
  function Names(ps: seq<InputParameter>): set<string>
  {
    set p | p in ps :: p.name
  }

  /** The base parameters have exactly the input names as keys. */
  lemma {:induction false} BaseParametersKeys(ps: seq<InputParameter>)
    ensures BaseParameters(ps).Keys == Names(ps)
    decreases |ps|
  {
    if ps != [] {
      var init := ps[..|ps| - 1];
      BaseParametersKeys(init);
      assert ps == init + [ps[|ps| - 1]];
      assert Names(ps) == Names(init) + {ps[|ps| - 1].name};
    }
  }

  /** A name maps to the default of its last occurrence: a later duplicate overrides. */
  lemma {:induction false} BaseParametersLast(ps: seq<InputParameter>, i: nat)
    requires i < |ps|
    requires forall j :: i < j < |ps| ==> ps[j].name != ps[i].name
    ensures ps[i].name in BaseParameters(ps) && BaseParameters(ps)[ps[i].name] == ps[i].default
    decreases |ps|
  {
    if i < |ps| - 1 {
      var init := ps[..|ps| - 1];
      assert init[i] == ps[i];
      BaseParametersLast(init, i);
    }
  }

  /** The `parameters` list comprehension: one entry per input, in order, always of type "text". */
  function Parameters(ps: seq<InputParameter>): (r: seq<JobParameter>)
    ensures |r| == |ps|
    ensures forall i :: 0 <= i < |ps| ==>
      r[i].name == ps[i].name && r[i].default == ps[i].default && r[i].paramType == "text"
  {
    seq(|ps|, i requires 0 <= i < |ps| => JobParameter(ps[i].name, ps[i].default, "text"))
  }

  /** The `job_data` of `create_job`. */
  function CreatePayload(config: Config): Payload
  {
    CreateBody(JobSettings(
      config.jobName, config.jobDescription, config.servicePrincipalName,
      [TaskSpec("notebook_task_1",
                NotebookSpec(config.notebookPath, BaseParameters(config.inputParameters)),
                "default_cluster")],
      [JobCluster("default_cluster", NewCluster("13.3.x-scala2.12", "i3.xlarge", 2))],
      Parameters(config.inputParameters)))
  }

  /** The `job_data` of `update_job`, written out separately as the script does. */
  function UpdatePayload(config: Config, jobId: int): Payload
  {
    UpdateBody(jobId, JobSettings(
      config.jobName, config.jobDescription, config.servicePrincipalName,
      [TaskSpec("notebook_task_1",
                NotebookSpec(config.notebookPath, BaseParameters(config.inputParameters)),
                "default_cluster")],
      [JobCluster("default_cluster", NewCluster("13.3.x-scala2.12", "i3.xlarge", 2))],
      Parameters(config.inputParameters)))
  }

  /** The update body carries exactly the create body's settings, plus the job id. */
  lemma UpdateCarriesCreateSettings(config: Config, jobId: int)
    ensures UpdatePayload(config, jobId) == UpdateBody(jobId, CreatePayload(config).settings)
  {
  }

  /** The payload of `DefaultConfig`: both inputs become base parameters and text parameters. */
  lemma DefaultPayload()
    ensures CreatePayload(DefaultConfig).settings.tasks[0].notebookTask.baseParameters
            == map["env" := "dev", "date" := "2025-08-04"]
    ensures CreatePayload(DefaultConfig).settings.parameters
            == [JobParameter("env", "dev", "text"), JobParameter("date", "2025-08-04", "text")]
  {
    var ps := DefaultConfig.inputParameters;
    assert ps[..1][..0] == [];
    assert BaseParameters(ps[..1]) == map["env" := "dev"];
    assert BaseParameters(ps) == BaseParameters(ps[..1])["date" := "2025-08-04"];
  }

  // ---------------------------------------------------------------------------
  // databricks_api and the lookups
  // ---------------------------------------------------------------------------

  /** The request `databricks_api(method, endpoint, data, version)` sends. Every payload the
      script builds is a non-empty JSON object, so `data` is falsy exactly when it is absent and
      then no body is sent. */
  function ApiCall(verb: Verb, path: Path, data: Option<Payload>, version: string): (c: Request)
    ensures c.endpoint == Endpoint(version, path) && c.verb == verb
    ensures data.None? ==> c.body.None?
    ensures c.body == data
  {
    Call(verb, Endpoint(version, path), data)
  }

  /** The status classification of `databricks_api`: anything but 200 and 201 raises, an empty
      body reads as `{}`. A reply body of `None` stands for empty response data. */
  function Classify<B>(reply: Response<Option<B>>, empty: B): (r: Outcome<B>)
    ensures r.Raised? <==> reply.status != 200 && reply.status != 201
    ensures r.Raised? ==> r.error == HttpStatus(reply.status)
    ensures r.Ok? && reply.body.None? ==> r.value == empty
    ensures r.Ok? && reply.body.Some? ==> r.value == reply.body.value
  {
    if reply.status !in {200, 201} then Raised(HttpStatus(reply.status))
    else if reply.body.Some? then Ok(reply.body.value)
    else Ok(empty)
  }

  datatype ScimResource = ScimResource(id: Option<string>)
  datatype ScimList = ScimList(resources: Option<seq<ScimResource>>)

  /** The `id` of the first filtered resource; raises when there is none. */
  function FirstId(kind: string, name: string, reply: Response<Option<ScimList>>): (r: Outcome<string>)
    ensures reply.status != 200 && reply.status != 201 ==> r == Raised(HttpStatus(reply.status))
    ensures var resources := Classify(reply, ScimList(None));
      resources.Ok? ==>
        if resources.value.resources.None? || resources.value.resources.value == [] then
          r == Raised(NotFound(kind, name))
        else
          var first := resources.value.resources.value[0];
          r == if first.id.Some? then Ok(first.id.value) else Raised(KeyMissing("id"))
  {
    match Classify(reply, ScimList(None))
    case Raised(e) => Raised(e)
    case Ok(body) =>
      var resources := if body.resources.Some? then body.resources.value else [];
      if resources == [] then Raised(NotFound(kind, name))
      else if resources[0].id.None? then Raised(KeyMissing("id"))
      else Ok(resources[0].id.value)
  }

  /** `get_service_principal_id`. */
  function GetServicePrincipalId(name: string, reply: Response<Option<ScimList>>): (run: Run<Request, string>)
    ensures run.calls == [ApiCall(GET, ServicePrincipalsNamed(name), None, "2.0")]
    ensures run.outcome == FirstId("Service Principal", name, reply)
  {
    Run([ApiCall(GET, ServicePrincipalsNamed(name), None, "2.0")], FirstId("Service Principal", name, reply))
  }

  /** `get_group_id`. */
  function GetGroupId(name: string, reply: Response<Option<ScimList>>): (run: Run<Request, string>)
    ensures run.calls == [ApiCall(GET, GroupsNamed(name), None, "2.0")]
    ensures run.outcome == FirstId("Group", name, reply)
  {
    Run([ApiCall(GET, GroupsNamed(name), None, "2.0")], FirstId("Group", name, reply))
  }

  /** `task.get("notebook_task", {}).get("notebook_path")`. */
  function TaskPath(task: ListedTask): Option<string>
  {
    if task.notebookTask.Some? then task.notebookTask.value.notebookPath else None
  }

  /** `job.get("settings", {}).get("tasks", [])`. */
  function TasksOf(job: ListedJob): seq<ListedTask>
  {
    if job.settings.Some? && job.settings.value.tasks.Some? then job.settings.value.tasks.value else []
  }

  /** The inner loop: does any task run the notebook at `path`? */
  function HasNotebookTask(tasks: seq<ListedTask>, path: string): (b: bool)
    ensures b <==> exists i :: 0 <= i < |tasks| && TaskPath(tasks[i]) == Some(path)
    decreases |tasks|
  {
    if tasks == [] then false
    else if TaskPath(tasks[0]) == Some(path) then true
    else
      var b := HasNotebookTask(tasks[1..], path);
      assert forall i :: 1 <= i < |tasks| ==> tasks[i] == tasks[1..][i - 1];
      b
  }

  /** The outer loop of `find_job_by_notebook`: the first job, in list order, with such a task. */
  function FindJob(jobs: seq<ListedJob>, path: string): (r: Outcome<Option<int>>)
    ensures r == Ok(None) <==> forall j :: 0 <= j < |jobs| ==> !HasNotebookTask(TasksOf(jobs[j]), path)
    ensures r.Ok? && r.value.Some? ==>
      exists k :: (0 <= k < |jobs| && HasNotebookTask(TasksOf(jobs[k]), path) && jobs[k].jobId == r.value
                   && forall j :: 0 <= j < k ==> !HasNotebookTask(TasksOf(jobs[j]), path))
    ensures r.Raised? ==> r.error == KeyMissing("job_id")
    decreases |jobs|
  {
    if jobs == [] then Ok(None)
    else if HasNotebookTask(TasksOf(jobs[0]), path) then
      if jobs[0].jobId.Some? then Ok(jobs[0].jobId) else Raised(KeyMissing("job_id"))
    else
      var r := FindJob(jobs[1..], path);
      assert forall i :: 1 <= i < |jobs| ==> jobs[i] == jobs[1..][i - 1];
      r
  }

  /** The first job with a task for `path` decides the search: its id, or the `job_id` error
      when that job has no id. */
  lemma {:induction false} FindJobFirstMatch(jobs: seq<ListedJob>, path: string, k: nat)
    requires k < |jobs| && HasNotebookTask(TasksOf(jobs[k]), path)
    requires forall j :: 0 <= j < k ==> !HasNotebookTask(TasksOf(jobs[j]), path)
    ensures FindJob(jobs, path) ==
      if jobs[k].jobId.Some? then Ok(jobs[k].jobId) else Raised(KeyMissing("job_id"))
    decreases k
  {
    if k > 0 {
      assert jobs[1..][k - 1] == jobs[k];
      assert forall j :: 0 <= j < k - 1 ==> jobs[1..][j] == jobs[j + 1];
      FindJobFirstMatch(jobs[1..], path, k - 1);
    }
  }

  /** `find_job_by_notebook`. */
  function FindJobByNotebook(path: string, reply: Response<Option<JobList>>): (run: Run<Request, Option<int>>)
    ensures run.calls == [ApiCall(GET, JobsList, None, JobsVersion)]
    ensures reply.status != 200 && reply.status != 201 ==> run.outcome == Raised(HttpStatus(reply.status))
    ensures reply.status in {200, 201} && (reply.body.None? || reply.body.value.jobs.None?) ==>
      run.outcome == Ok(None)
    ensures reply.status in {200, 201} && reply.body.Some? && reply.body.value.jobs.Some? ==>
      run.outcome == FindJob(reply.body.value.jobs.value, path)
  {
    var outcome :=
      match Classify(reply, JobList(None))
      case Raised(e) => Raised(e)
      case Ok(body) => FindJob(if body.jobs.Some? then body.jobs.value else [], path);
    Run([ApiCall(GET, JobsList, None, JobsVersion)], outcome)
  }

  // ---------------------------------------------------------------------------
  // Create, update, permissions, main
  // ---------------------------------------------------------------------------

  datatype Created = Created(jobId: Option<int>)

  /** `create_job`: returns the parsed reply. */
  function CreateJob(config: Config, reply: Response<Option<Created>>): (run: Run<Request, Created>)
    ensures run.calls == [ApiCall(POST, JobsCreate, Some(CreatePayload(config)), JobsVersion)]
    ensures run.outcome == Classify(reply, Created(None))
  {
    Run([ApiCall(POST, JobsCreate, Some(CreatePayload(config)), JobsVersion)], Classify(reply, Created(None)))
  }

  /** `update_job`: its reply is only classified. */
  function UpdateJob(config: Config, jobId: int, reply: Response<Option<Created>>): (run: Run<Request, Created>)
    ensures run.calls == [ApiCall(POST, JobsUpdate, Some(UpdatePayload(config, jobId)), JobsVersion)]
    ensures run.outcome == Classify(reply, Created(None))
  {
    Run([ApiCall(POST, JobsUpdate, Some(UpdatePayload(config, jobId)), JobsVersion)], Classify(reply, Created(None)))
  }

  /** The ACL of `set_job_permissions`. */
  function JobAcl(config: Config): seq<AclEntry>
  {
    [GroupAcl(config.groupName, "CAN_MANAGE_RUN"), ServicePrincipalAcl(config.servicePrincipalName, "IS_OWNER")]
  }

  /** `set_job_permissions`: a PATCH on the permissions API, version 2.0. */
  function SetJobPermissions(config: Config, jobId: int, reply: Response<Option<()>>): (run: Run<Request, ()>)
    ensures |run.calls| == 1 && run.calls[0].verb == PATCH
    ensures run.calls[0].endpoint == Endpoint("2.0", JobPermissions(jobId))
    ensures run.calls[0].body == Some(AclBody(JobAcl(config)))
    ensures run.outcome.Raised? <==> reply.status != 200 && reply.status != 201
    ensures run.outcome.Raised? ==> run.outcome.error == HttpStatus(reply.status)
  {
    var data := Some(AclBody(JobAcl(config)));
    Run([ApiCall(PATCH, JobPermissions(jobId), data, "2.0")], match Classify(reply, ()) case Raised(e) => Raised(e) case Ok(_) => Ok(()))
  }

  /** The job ACL names the group as CAN_MANAGE_RUN and the service principal as IS_OWNER. */
  lemma JobAclGrants(config: Config)
    ensures GroupAcl(config.groupName, "CAN_MANAGE_RUN") in JobAcl(config)
    ensures ServicePrincipalAcl(config.servicePrincipalName, "IS_OWNER") in JobAcl(config)
    ensures |JobAcl(config)| == 2
  {
  }

  /** The reply to each request the script may issue, in script order; `written` answers
      whichever of `jobs/update` and `jobs/create` is sent. */
  datatype JobReplies = JobReplies(
    servicePrincipal: Response<Option<ScimList>>, group: Response<Option<ScimList>>,
    jobs: Response<Option<JobList>>, written: Response<Option<Created>>,
    permissions: Response<Option<()>>)

  /** Run `next` after the calls `pre` made by earlier steps. */
  function After<T>(pre: seq<Request>, next: Run<Request, T>): Run<Request, T>
  {
    Run(pre + next.calls, next.outcome)
  }

  /** The id the job is configured under: the existing one, updated, or the `job_id` of the
      job created. */
  function ChooseJob(config: Config, existing: Option<int>, replies: JobReplies): (run: Run<Request, int>)
    ensures |run.calls| == 1
    ensures NonZero(existing) ==>
      && run.calls[0] == ApiCall(POST, JobsUpdate, Some(UpdatePayload(config, existing.value)), JobsVersion)
      && (run.outcome.Ok? <==> Classify(replies.written, Created(None)).Ok?)
      && (run.outcome.Ok? ==> run.outcome.value == existing.value)
      && (run.outcome.Raised? ==> run.outcome.error == HttpStatus(replies.written.status))
    ensures !NonZero(existing) ==>
      && run.calls[0] == ApiCall(POST, JobsCreate, Some(CreatePayload(config)), JobsVersion)
      && (run.outcome.Ok? <==> Classify(replies.written, Created(None)).Ok?
                               && Classify(replies.written, Created(None)).value.jobId.Some?)
      && (run.outcome.Ok? ==> Some(run.outcome.value) == Classify(replies.written, Created(None)).value.jobId)
      && (run.outcome.Raised? ==>
            run.outcome.error ==
              if Classify(replies.written, Created(None)).Raised? then HttpStatus(replies.written.status)
              else KeyMissing("job_id"))
  {
    if NonZero(existing) then
      var update := UpdateJob(config, existing.value, replies.written);
      Run(update.calls, if update.outcome.Raised? then Raised(update.outcome.error) else Ok(existing.value))
    else
      var create := CreateJob(config, replies.written);
      Run(create.calls,
          match create.outcome
          case Raised(e) => Raised(e)
          case Ok(job) => if job.jobId.Some? then Ok(job.jobId.value) else Raised(KeyMissing("job_id")))
  }

  /** Steps after the lookups: write the job, then set its permissions. */
  function Configure(config: Config, existing: Option<int>, replies: JobReplies): (run: Run<Request, int>)
    ensures 1 <= |run.calls| <= 2
    ensures run.calls[..1] == ChooseJob(config, existing, replies).calls
    ensures forall c :: c in run.calls[1..] ==> c.endpoint.path.JobPermissions?
    ensures ChooseJob(config, existing, replies).outcome.Raised? ==> run == ChooseJob(config, existing, replies)
    ensures ChooseJob(config, existing, replies).outcome.Ok? ==>
      run.calls == ChooseJob(config, existing, replies).calls
                   + [ApiCall(PATCH, JobPermissions(ChooseJob(config, existing, replies).outcome.value),
                              Some(AclBody(JobAcl(config))), "2.0")]
    ensures run.outcome.Ok? <==>
      ChooseJob(config, existing, replies).outcome.Ok? && replies.permissions.status in {200, 201}
    ensures run.outcome.Raised? && ChooseJob(config, existing, replies).outcome.Ok? ==>
      run.outcome.error == HttpStatus(replies.permissions.status)
    ensures run.outcome.Ok? ==>
      && run.outcome == ChooseJob(config, existing, replies).outcome
      && run.calls == ChooseJob(config, existing, replies).calls
                      + [ApiCall(PATCH, JobPermissions(run.outcome.value), Some(AclBody(JobAcl(config))), "2.0")]
  {
    var chosen := ChooseJob(config, existing, replies);
    if chosen.outcome.Raised? then chosen
    else
      var perms := After(chosen.calls, SetJobPermissions(config, chosen.outcome.value, replies.permissions));
      Run(perms.calls, if perms.outcome.Raised? then Raised(perms.outcome.error) else chosen.outcome)
  }

  /** The three lookup calls, in order. */
  function Lookups(config: Config): seq<Request>
  {
    [ApiCall(GET, ServicePrincipalsNamed(config.servicePrincipalName), None, "2.0"),
     ApiCall(GET, GroupsNamed(config.groupName), None, "2.0"),
     ApiCall(GET, JobsList, None, JobsVersion)]
  }

  /** The `__main__` block; nothing is caught, so the first exception ends the run. */
  function RunScript(config: Config, replies: JobReplies): (run: Run<Request, int>)
    ensures 1 <= |run.calls| <= 5 && run.calls[0] == Lookups(config)[0]
  {
    var sp := GetServicePrincipalId(config.servicePrincipalName, replies.servicePrincipal);
    if sp.outcome.Raised? then Run(sp.calls, Raised(sp.outcome.error))
    else
      var group := After(sp.calls, GetGroupId(config.groupName, replies.group));
      if group.outcome.Raised? then Run(group.calls, Raised(group.outcome.error))
      else
        var found := After(group.calls, FindJobByNotebook(config.notebookPath, replies.jobs));
        if found.outcome.Raised? then Run(found.calls, Raised(found.outcome.error))
        else After(found.calls, Configure(config, found.outcome.value, replies))
  }

  predicate IsJobWrite(c: Request)
  {
    c.endpoint.path == JobsCreate || c.endpoint.path == JobsUpdate
  }

  /** A missing service principal or group raises before any job call. */
  lemma PrincipalsFirst(config: Config, replies: JobReplies)
    requires FirstId("Service Principal", config.servicePrincipalName, replies.servicePrincipal).Raised?
          || FirstId("Group", config.groupName, replies.group).Raised?
    ensures RunScript(config, replies).outcome.Raised?
    ensures forall c :: c in RunScript(config, replies).calls ==> c.endpoint.path.ServicePrincipalsNamed? || c.endpoint.path.GroupsNamed?
  {
  }

  /** The first lookup that raises ends the run: its error is the outcome and no later call
      is made. */
  lemma LookupFailureEndsRun(config: Config, replies: JobReplies)
    ensures var sp := FirstId("Service Principal", config.servicePrincipalName, replies.servicePrincipal);
      sp.Raised? ==> RunScript(config, replies) == Run(Lookups(config)[..1], Raised(sp.error))
    ensures var sp := FirstId("Service Principal", config.servicePrincipalName, replies.servicePrincipal);
      var group := FirstId("Group", config.groupName, replies.group);
      sp.Ok? && group.Raised? ==> RunScript(config, replies) == Run(Lookups(config)[..2], Raised(group.error))
    ensures var sp := FirstId("Service Principal", config.servicePrincipalName, replies.servicePrincipal);
      var group := FirstId("Group", config.groupName, replies.group);
      var found := FindJobByNotebook(config.notebookPath, replies.jobs);
      sp.Ok? && group.Ok? && found.outcome.Raised? ==>
        RunScript(config, replies) == Run(Lookups(config), Raised(found.outcome.error))
  {
  }

  /** Once the lookups succeed, the run is the three lookup calls followed by `Configure`. */
  lemma LookupsThenConfigure(config: Config, replies: JobReplies)
    requires FirstId("Service Principal", config.servicePrincipalName, replies.servicePrincipal).Ok?
    requires FirstId("Group", config.groupName, replies.group).Ok?
    requires FindJobByNotebook(config.notebookPath, replies.jobs).outcome.Ok?
    ensures var existing := FindJobByNotebook(config.notebookPath, replies.jobs).outcome.value;
      RunScript(config, replies) == After(Lookups(config), Configure(config, existing, replies))
  {
    var sp := GetServicePrincipalId(config.servicePrincipalName, replies.servicePrincipal);
    var group := After(sp.calls, GetGroupId(config.groupName, replies.group));
    var found := After(group.calls, FindJobByNotebook(config.notebookPath, replies.jobs));
    assert found.calls == Lookups(config);
  }

  /** An existing job (a truthy id) is updated and keeps its id; no job is created. */
  lemma ExistingJobUpdated(config: Config, replies: JobReplies)
    requires FirstId("Service Principal", config.servicePrincipalName, replies.servicePrincipal).Ok?
    requires FirstId("Group", config.groupName, replies.group).Ok?
    requires FindJobByNotebook(config.notebookPath, replies.jobs).outcome.Ok?
    requires NonZero(FindJobByNotebook(config.notebookPath, replies.jobs).outcome.value)
    ensures var id := FindJobByNotebook(config.notebookPath, replies.jobs).outcome.value.value;
      && RunScript(config, replies).calls[3] == ApiCall(POST, JobsUpdate, Some(UpdatePayload(config, id)), JobsVersion)
      && (forall c :: c in RunScript(config, replies).calls ==> c.endpoint.path != JobsCreate)
      && (RunScript(config, replies).outcome.Ok? ==> RunScript(config, replies).outcome.value == id)
  {
    var existing := FindJobByNotebook(config.notebookPath, replies.jobs).outcome.value;
    LookupsThenConfigure(config, replies);
    var rest := Configure(config, existing, replies);
    assert RunScript(config, replies).calls == Lookups(config) + rest.calls;
    forall c | c in RunScript(config, replies).calls
      ensures c.endpoint.path != JobsCreate
    {
      if c !in Lookups(config) && c != rest.calls[0] {
        assert c in rest.calls[1..];
      }
    }
  }

  /** Without a truthy existing id the job is created, and the id in the create reply is used. */
  lemma MissingJobCreated(config: Config, replies: JobReplies)
    requires FirstId("Service Principal", config.servicePrincipalName, replies.servicePrincipal).Ok?
    requires FirstId("Group", config.groupName, replies.group).Ok?
    requires FindJobByNotebook(config.notebookPath, replies.jobs).outcome.Ok?
    requires !NonZero(FindJobByNotebook(config.notebookPath, replies.jobs).outcome.value)
    ensures RunScript(config, replies).calls[3] == ApiCall(POST, JobsCreate, Some(CreatePayload(config)), JobsVersion)
    ensures forall c :: c in RunScript(config, replies).calls ==> c.endpoint.path != JobsUpdate
    ensures RunScript(config, replies).outcome.Ok? ==>
      Classify(replies.written, Created(None)).Ok? &&
      Some(RunScript(config, replies).outcome.value) == Classify(replies.written, Created(None)).value.jobId
  {
    var existing := FindJobByNotebook(config.notebookPath, replies.jobs).outcome.value;
    LookupsThenConfigure(config, replies);
    var rest := Configure(config, existing, replies);
    assert RunScript(config, replies).calls == Lookups(config) + rest.calls;
    forall c | c in RunScript(config, replies).calls
      ensures c.endpoint.path != JobsUpdate
    {
      if c !in Lookups(config) && c != rest.calls[0] {
        assert c in rest.calls[1..];
      }
    }
  }

  /** A run that ends normally made exactly five calls and set the permissions of its job last. */
  lemma CompletedRunSetsPermissions(config: Config, replies: JobReplies)
    requires RunScript(config, replies).outcome.Ok?
    ensures |RunScript(config, replies).calls| == 5
    ensures var id := RunScript(config, replies).outcome.value;
      RunScript(config, replies).calls[4] == ApiCall(PATCH, JobPermissions(id), Some(AclBody(JobAcl(config))), "2.0")
    ensures IsJobWrite(RunScript(config, replies).calls[3])
  {
    LookupsThenConfigure(config, replies);
  }
}
