/** The job record of the AI-protect service: its status and type enumerations
    and the `Job.create` factory. */
module AiProtectModels {
  import opened Wrappers

  datatype JobStatus = Pending | Processing | Completed | Failed

  /** The string value each status member carries (`JobStatus.PENDING == "pending"`, ...). */
  function StatusValue(s: JobStatus): string {
    match s
    case Pending => "pending"
    case Processing => "processing"
    case Completed => "completed"
    case Failed => "failed"
  }

  /** `JobStatus(v)`: the member whose value is `v`, if any. */
  function ParseStatus(v: string): (r: Option<JobStatus>)
    ensures r.Some? ==> StatusValue(r.value) == v
    ensures r.None? ==> forall s :: StatusValue(s) != v
  {
    if v == "pending" then Some(Pending)
    else if v == "processing" then Some(Processing)
    else if v == "completed" then Some(Completed)
    else if v == "failed" then Some(Failed)
    else None
  }

  datatype JobType = Fawkes | Mist | Photoguard

  function TypeValue(t: JobType): string {
    match t
    case Fawkes => "fawkes"
    case Mist => "mist"
    case Photoguard => "photoguard"
  }

  /** `JobType(v)`, which is how the `type` form field of `/add` is validated. */
  function ParseType(v: string): (r: Option<JobType>)
    ensures r.Some? ==> TypeValue(r.value) == v
    ensures r.None? ==> forall t :: TypeValue(t) != v
  {
    if v == "fawkes" then Some(Fawkes)
    else if v == "mist" then Some(Mist)
    else if v == "photoguard" then Some(Photoguard)
    else None
  }

  /** A job; times are clock ticks, paths are opaque strings. */
  datatype Job = Job(
    id: string,
    jobType: JobType,
    status: JobStatus,
    createdAt: int,
    completedAt: Option<int>,
    inputPath: string,
    outputPath: Option<string>,
    error: Option<string>)

  /** `Job.create(job_type, input_path)`, with the generated uuid and the clock
      reading passed in. */
  function CreateJob(id: string, jobType: JobType, inputPath: string, now: int): (j: Job)
    ensures j.id == id && j.jobType == jobType && j.inputPath == inputPath && j.createdAt == now
    ensures j.status == Pending
    ensures j.completedAt == None && j.outputPath == None && j.error == None
  {
    Job(id, jobType, Pending, now, None, inputPath, None, None)
  }
}
