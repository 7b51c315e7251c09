/** The body of a `jobs/list` reply, as both job scripts read it. A `None` field is a key
    absent from the JSON. */
module JobListing {
  import opened Common

  datatype NotebookRef = NotebookRef(notebookPath: Option<string>)
  datatype ListedTask = ListedTask(notebookTask: Option<NotebookRef>)
  datatype ListedSettings = ListedSettings(name: Option<string>, tasks: Option<seq<ListedTask>>)
  datatype ListedJob = ListedJob(jobId: Option<int>, settings: Option<ListedSettings>)
  datatype JobList = JobList(jobs: Option<seq<ListedJob>>)
}
