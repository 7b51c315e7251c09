/** create_job.py: look a job up by name, then update it (after writing its id into the
    caller's configuration) or create it; and the permissions request for a job. */
module NamedJob {
  import opened Common
  import opened JobListing

  /** Request targets; the jobs API is at version 2.1, the permissions API at 2.0. */
  datatype Endpoint =
    | JobsList                    // /api/2.1/jobs/list
    | JobsUpdate                  // /api/2.1/jobs/update
    | JobsCreate                  // /api/2.1/jobs/create
    | JobPermissions(jobId: int)  // /api/2.0/permissions/jobs/{id}

  /** The JSON object a job configuration is sent as. `others` are its remaining top-level keys
      (`existing_cluster_id`, `notebook_task`, `run_as_owner`, `settings`), which the script
      never reads or writes. */
  datatype ConfigBody = ConfigBody(name: Option<string>, jobId: Option<int>, others: set<string>)

  datatype AclEntry =
    | UserAcl(userName: string, permissionLevel: string)
    | GroupAcl(groupName: string, permissionLevel: string)

  datatype Payload = JobBody(config: ConfigBody) | AclBody(accessControlList: seq<AclEntry>)

  type Request = Call<Endpoint, Payload>

  /** The caller's `job_config` dictionary, which `create_or_update_job` changes in place. */
  class JobConfig {
    var name: Option<string>
    var jobId: Option<int>
    var others: set<string>

    constructor (name: Option<string>, jobId: Option<int>, others: set<string>)
      ensures this.name == name && this.jobId == jobId && this.others == others
    {
      this.name := name;
      this.jobId := jobId;
      this.others := others;
    }

    /** `json.dumps(job_config)`, as a value. */
    function Body(): ConfigBody
      reads this
    {
      ConfigBody(name, jobId, others)
    }
  }

  /** The module-level `job_config`: named, with no `job_id` key. */
  const DefaultBody := ConfigBody(Some("My Databricks Job"), None,
                                  {"existing_cluster_id", "notebook_task", "run_as_owner", "settings"})

  /** A job passed over by the search: its `settings.name` is present and different. */
  predicate PassedOver(job: ListedJob, name: string)
  {
    job.settings.Some? && job.settings.value.name.Some? && job.settings.value.name.value != name
  }

  /** The loop of `get_job_id_by_name`: every job up to the first match is subscripted with
      `['settings']['name']`, the match with `['job_id']`. */
  function FindJobNamed(jobs: seq<ListedJob>, name: string): (r: Outcome<Option<int>>)
    ensures r == Ok(None) <==> forall j :: 0 <= j < |jobs| ==> PassedOver(jobs[j], name)
    ensures r.Ok? && r.value.Some? ==>
      exists k :: (0 <= k < |jobs| && jobs[k].settings.Some? && jobs[k].settings.value.name == Some(name)
                   && jobs[k].jobId == r.value
                   && forall j :: 0 <= j < k ==> PassedOver(jobs[j], name))
    ensures r.Raised? ==> r.error in {KeyMissing("settings"), KeyMissing("name"), KeyMissing("job_id")}
    decreases |jobs|
  {
    if jobs == [] then Ok(None)
    else if jobs[0].settings.None? then Raised(KeyMissing("settings"))
    else if jobs[0].settings.value.name.None? then Raised(KeyMissing("name"))
    else if jobs[0].settings.value.name.value == name then
      if jobs[0].jobId.Some? then Ok(jobs[0].jobId) else Raised(KeyMissing("job_id"))
    else
      var r := FindJobNamed(jobs[1..], name);
      assert forall i :: 1 <= i < |jobs| ==> jobs[i] == jobs[1..][i - 1];
      r
  }

  /** A job without `settings`, or whose settings lack a name, raises with that key, unless an
      earlier job already matched. */
  lemma {:induction false} UnnamedJobRaises(jobs: seq<ListedJob>, name: string, k: int)
    requires 0 <= k < |jobs| && (jobs[k].settings.None? || jobs[k].settings.value.name.None?)
    requires forall j :: 0 <= j < k ==> PassedOver(jobs[j], name)
    ensures FindJobNamed(jobs, name) ==
      Raised(if jobs[k].settings.None? then KeyMissing("settings") else KeyMissing("name"))
    decreases k
  {
    if k > 0 {
      assert jobs[1..][k - 1] == jobs[k];
      UnnamedJobRaises(jobs[1..], name, k - 1);
    }
  }

  /** The first job named `name`, every earlier one being passed over, decides the search: its
      id, or the `job_id` error when that job has no id. */
  lemma {:induction false} FindJobNamedFirstMatch(jobs: seq<ListedJob>, name: string, k: nat)
    requires k < |jobs| && jobs[k].settings.Some? && jobs[k].settings.value.name == Some(name)
    requires forall j :: 0 <= j < k ==> PassedOver(jobs[j], name)
    ensures FindJobNamed(jobs, name) ==
      if jobs[k].jobId.Some? then Ok(jobs[k].jobId) else Raised(KeyMissing("job_id"))
    decreases k
  {
    if k > 0 {
      assert jobs[1..][k - 1] == jobs[k];
      assert forall j :: 0 <= j < k - 1 ==> jobs[1..][j] == jobs[j + 1];
      FindJobNamedFirstMatch(jobs[1..], name, k - 1);
    }
  }

  /** `get_job_id_by_name`: any status but 200 gives `None`; a 200 body without `jobs` raises. */
  function GetJobIdByName(name: string, listing: Response<JobList>): (r: Outcome<Option<int>>)
    ensures listing.status != 200 ==> r == Ok(None)
    ensures listing.status == 200 && listing.body.jobs.None? ==> r == Raised(KeyMissing("jobs"))
    ensures listing.status == 200 && listing.body.jobs.Some? ==> r == FindJobNamed(listing.body.jobs.value, name)
  {
    if listing.status != 200 then Ok(None)
    else if listing.body.jobs.None? then Raised(KeyMissing("jobs"))
    else FindJobNamed(listing.body.jobs.value, name)
  }

  datatype Written = Written(jobId: Option<int>)

  /** What `create_or_update_job` returns once its write is answered: on 200 the body's
      `job_id` read with `.get`, so possibly `None`; on any other status `None`. */
  function WriteResult(written: Response<Written>): (r: Option<int>)
    ensures written.status == 200 ==> r == written.body.jobId
    ensures written.status != 200 ==> r == None
  {
    if written.status == 200 then written.body.jobId else None
  }

  /** `create_or_update_job`. A found truthy id is written into `config` before the update is
      posted; the create is posted with `config` as it was. Returns the calls made. */
  method CreateOrUpdateJob(config: JobConfig, listing: Response<JobList>, written: Response<Written>)
    returns (calls: seq<Request>, r: Outcome<Option<int>>)
    modifies config
    ensures config.name == old(config.name) && config.others == old(config.others)
    ensures old(config.name).None? ==>
      calls == [] && r == Raised(KeyMissing("name")) && config.jobId == old(config.jobId)
    ensures old(config.name).Some? ==>
      var found := GetJobIdByName(old(config.name).value, listing);
      && |calls| >= 1 && calls[0] == Call(GET, JobsList, None)
      && (found.Raised? ==> calls == [calls[0]] && r == found && config.jobId == old(config.jobId))
      && (found.Ok? && NonZero(found.value) ==>
            && config.jobId == found.value
            && calls == [calls[0], Call(POST, JobsUpdate, Some(JobBody(config.Body())))]
            && r == Ok(WriteResult(written)))
      && (found.Ok? && !NonZero(found.value) ==>
            && config.jobId == old(config.jobId)
            && calls == [calls[0], Call(POST, JobsCreate, Some(JobBody(old(config.Body()))))]
            && r == Ok(WriteResult(written)))
  {
    if config.name.None? {
      return [], Raised(KeyMissing("name"));
    }
    var lookup := Call(GET, JobsList, None);
    var found := GetJobIdByName(config.name.value, listing);
    if found.Raised? {
      return [lookup], found;
    }
    var write: Request;
    if NonZero(found.value) {
      config.jobId := found.value;
      write := Call(POST, JobsUpdate, Some(JobBody(config.Body())));
    } else {
      write := Call(POST, JobsCreate, Some(JobBody(config.Body())));
    }
    calls := [lookup, write];
    r := Ok(WriteResult(written));
  }

  /** The `desired_permissions` of `set_job_permissions`. */
  function JobAcl(owner: string, groupName: string): seq<AclEntry>
  {
    [UserAcl(owner, "IS_OWNER"), GroupAcl(groupName, "CAN_MANAGE_RUN")]
  }

  /** `set_job_permissions` up to where the file ends: one PUT replacing the job's ACL, and
      whether the reply is the 200 the script goes on to test. */
  function SetJobPermissions(jobId: int, owner: string, groupName: string, reply: Response<()>): (run: Run<Request, bool>)
    ensures |run.calls| == 1
    ensures run.calls[0].verb == PUT && run.calls[0].endpoint == JobPermissions(jobId)
    ensures run.calls[0].body == Some(AclBody(JobAcl(owner, groupName)))
    ensures run.outcome == Ok(reply.status == 200)
  {
    Run([Call(PUT, JobPermissions(jobId), Some(AclBody(JobAcl(owner, groupName))))], Ok(reply.status == 200))
  }

  /** The owner is the only `IS_OWNER` entry and the group the only `CAN_MANAGE_RUN` entry. */
  lemma AclRoles(owner: string, groupName: string)
    ensures forall e :: e in JobAcl(owner, groupName) && e.permissionLevel == "IS_OWNER" ==> e == UserAcl(owner, "IS_OWNER")
    ensures forall e :: e in JobAcl(owner, groupName) && e.permissionLevel == "CAN_MANAGE_RUN" ==> e == GroupAcl(groupName, "CAN_MANAGE_RUN")
  {
  }

  /** Running the default configuration against a listing that already holds the job by that name
      updates it, sending the default body with the found id added. */
  method DefaultUpdate(id: int, others: seq<ListedJob>, written: Response<Written>)
    returns (calls: seq<Request>)
    requires id != 0
    ensures calls == [Call(GET, JobsList, None),
                      Call(POST, JobsUpdate, Some(JobBody(DefaultBody.(jobId := Some(id)))))]
  {
    var config := new JobConfig(DefaultBody.name, DefaultBody.jobId, DefaultBody.others);
    var named := ListedJob(Some(id), Some(ListedSettings(DefaultBody.name, None)));
    var listing := Response(200, JobList(Some([named] + others)));
    assert FindJobNamed([named] + others, DefaultBody.name.value) == Ok(Some(id));
    var r;
    calls, r := CreateOrUpdateJob(config, listing, written);
  }
}
