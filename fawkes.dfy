/** The Fawkes face-cloaking route: an in-memory `jobs` dictionary whose
    entries go pending -> processing -> completed | failed, an image
    content-type gate on upload, and a gate on downloading the result.

    The functions over `map<string, Entry>` say what each step does to the
    dictionary; class `FawkesJobs` holds the dictionary and performs the steps
    in place. The background task is split at its `await` into the part before
    the pause and the part after it, so a status read can fall between them. */
module Fawkes {
  import opened Wrappers
  import opened Text
  import opened AiProtectModels

  /** One entry of the `jobs` dictionary. Its status strings are the four
      values of the service's `JobStatus`. */
  datatype Entry = Entry(status: JobStatus, resultUrl: Option<string>, error: Option<string>)

  /** The `JobStatus` response model of `/status/{job_id}`. */
  datatype StatusView = StatusView(jobId: string, status: string, resultUrl: Option<string>, error: Option<string>)

  /** The body `{"job_id": ..., "status": "pending"}` of an accepted upload. */
  datatype Accepted = Accepted(jobId: string, status: string)

  /** A `FileResponse`: the path served and the download file name. */
  datatype FileReply = FileReply(path: string, fileName: string)

  /** How the work after the pause ends: the result file is written, or a
      step raises an exception with the given message. */
  datatype Outcome = Copied | Raised(message: string)

  /** How saving the upload ends in `fawkes_protect`: the directory is made
      and the file read and written, or one of those steps raises. */
  datatype Upload = Saved | SaveRaised

  const UploadDir := "/app/data/uploads"
  const OutputDir := "/app/data/outputs"

  function UploadPath(jobId: string, fileName: string): string {
    UploadDir + "/" + jobId + "_" + fileName
  }

  function ResultPath(jobId: string): string {
    OutputDir + "/" + jobId + "_protected.png"
  }

  function DownloadUrl(jobId: string): string {
    "/api/protect/download/" + jobId
  }

  function DownloadName(jobId: string): string {
    "protected_" + jobId + ".png"
  }

  const NewEntry := Entry(Pending, None, None)

  /** What every entry keeps: a completed job advertises its own download URL,
      any advertised URL is that one, and a failed job carries an error. */
  ghost predicate Valid(jobs: map<string, Entry>) {
    forall id :: id in jobs ==>
      && (jobs[id].status == Completed ==> jobs[id].resultUrl == Some(DownloadUrl(id)))
      && (jobs[id].resultUrl.Some? ==> jobs[id].resultUrl == Some(DownloadUrl(id)))
      && (jobs[id].status == Failed ==> jobs[id].error.Some?)
  }

  // ---------------------------------------------------------------------------
  // The steps, as functions of the dictionary

  /** `fawkes_protect`: 400 unless the content type starts with "image/";
      otherwise a fresh pending entry under `jobId` is stored before the
      upload is saved. When saving raises, the exception escapes the handler
      (a 500) and no task is scheduled, but the entry stays. */
  function Protect(jobs: map<string, Entry>, contentType: string, jobId: string, upload: Upload)
    : (r: (Reply<Accepted>, map<string, Entry>))
    ensures r.0.Ok? <==> StartsWith(contentType, "image/") && upload.Saved?
    ensures !StartsWith(contentType, "image/") ==> r == (Err(400, "File must be an image"), jobs)
    ensures StartsWith(contentType, "image/") ==> r.1 == jobs[jobId := NewEntry]
    ensures StartsWith(contentType, "image/") && upload.SaveRaised? ==> r.0 == Err(500, "Internal Server Error")
    ensures r.0.Ok? ==> r.0.value == Accepted(jobId, StatusValue(Pending))
  {
    if !StartsWith(contentType, "image/") then (Err(400, "File must be an image"), jobs)
    else if upload.SaveRaised? then (Err(500, "Internal Server Error"), jobs[jobId := NewEntry])
    else (Ok(Accepted(jobId, "pending")), jobs[jobId := NewEntry])
  }

  /** `process_fawkes` up to its pause: the entry becomes processing. For an
      unknown id the lookup raises again inside the handler, so nothing changes. */
  function Begin(jobs: map<string, Entry>, jobId: string): map<string, Entry> {
    if jobId in jobs then jobs[jobId := jobs[jobId].(status := Processing)] else jobs
  }

  /** `process_fawkes` after its pause: completed with the download URL, or
      failed with the exception message. */
  function Finish(jobs: map<string, Entry>, jobId: string, outcome: Outcome): map<string, Entry> {
    if jobId !in jobs then jobs
    else match outcome
      case Copied =>
        jobs[jobId := jobs[jobId].(status := Completed, resultUrl := Some(DownloadUrl(jobId)))]
      case Raised(message) =>
        jobs[jobId := jobs[jobId].(status := Failed, error := Some(message))]
  }

  /** `get_status`: 404 for an unknown id; otherwise the stored fields as they are. */
  function GetStatus(jobs: map<string, Entry>, jobId: string): (r: Reply<StatusView>)
    ensures r.Ok? <==> jobId in jobs
    ensures r.Err? ==> r == Err(404, "Job not found")
    ensures r.Ok? ==> && r.value.jobId == jobId
                      && ParseStatus(r.value.status) == Some(jobs[jobId].status)
                      && r.value.resultUrl == jobs[jobId].resultUrl
                      && r.value.error == jobs[jobId].error
  {
    if jobId !in jobs then Err(404, "Job not found")
    else
      var e := jobs[jobId];
      Ok(StatusView(jobId, StatusValue(e.status), e.resultUrl, e.error))
  }

  /** `download_result`: 404 "Result not available" unless the job exists and
      is completed, 404 "File not found" when the result file is missing,
      otherwise the result file under its download name. */
  function Download(jobs: map<string, Entry>, jobId: string, fileExists: bool): (r: Reply<FileReply>)
    ensures r.Ok? <==> jobId in jobs && jobs[jobId].status == Completed && fileExists
    ensures !(jobId in jobs && jobs[jobId].status == Completed) ==> r == Err(404, "Result not available")
    ensures jobId in jobs && jobs[jobId].status == Completed && !fileExists ==> r == Err(404, "File not found")
    ensures r.Ok? ==> r.value == FileReply(ResultPath(jobId), DownloadName(jobId))
  {
    if jobId !in jobs || jobs[jobId].status != Completed then Err(404, "Result not available")
    else if !fileExists then Err(404, "File not found")
    else Ok(FileReply(ResultPath(jobId), DownloadName(jobId)))
  }

  // ---------------------------------------------------------------------------
  // Properties

  /** An image upload reads back as pending with no URL and no error, even
      when saving it failed and no task will ever move it on; a rejected
      content type creates nothing. */
  lemma ProtectThenStatus(jobs: map<string, Entry>, contentType: string, jobId: string, upload: Upload)
    ensures var (reply, t) := Protect(jobs, contentType, jobId, upload);
      && (StartsWith(contentType, "image/") ==> GetStatus(t, jobId) == Ok(StatusView(jobId, "pending", None, None)))
      && (!StartsWith(contentType, "image/") ==> GetStatus(t, jobId) == GetStatus(jobs, jobId))
      && (Valid(jobs) ==> Valid(t))
  {
  }

  /** Every step keeps the entries well formed. */
  lemma StepsKeepValid(jobs: map<string, Entry>, jobId: string, outcome: Outcome)
    requires Valid(jobs)
    ensures Valid(Begin(jobs, jobId))
    ensures Valid(Finish(jobs, jobId, outcome))
  {
  }

  /** The whole task on a freshly accepted job: while paused the job reads as
      processing; afterwards it is completed with its download URL and can be
      downloaded once the file exists, or failed with the message and cannot. */
  lemma Lifecycle(jobs: map<string, Entry>, jobId: string, outcome: Outcome)
    requires jobId in jobs && jobs[jobId] == NewEntry
    ensures GetStatus(Begin(jobs, jobId), jobId) == Ok(StatusView(jobId, "processing", None, None))
    ensures var t := Finish(Begin(jobs, jobId), jobId, outcome);
      && (outcome.Copied? ==>
            && GetStatus(t, jobId) == Ok(StatusView(jobId, "completed", Some(DownloadUrl(jobId)), None))
            && Download(t, jobId, true) == Ok(FileReply(ResultPath(jobId), DownloadName(jobId))))
      && (outcome.Raised? ==>
            && GetStatus(t, jobId) == Ok(StatusView(jobId, "failed", None, Some(outcome.message)))
            && Download(t, jobId, true) == Err(404, "Result not available"))
      && (forall other :: other != jobId && other in jobs ==> other in t && t[other] == jobs[other])
  {
  }

  /** A download is served exactly when the status route reports the job
      completed, and the URL it advertises then is the download route. */
  lemma DownloadAgreesWithStatus(jobs: map<string, Entry>, jobId: string)
    requires Valid(jobs)
    ensures Download(jobs, jobId, true).Ok? <==>
              GetStatus(jobs, jobId).Ok? && GetStatus(jobs, jobId).value.status == "completed"
    ensures Download(jobs, jobId, true).Ok? ==>
              GetStatus(jobs, jobId).value.resultUrl == Some(DownloadUrl(jobId))
  {
    if jobId in jobs {
      var v := GetStatus(jobs, jobId).value;
      assert v.status == "completed" <==> jobs[jobId].status == Completed by {
        assert ParseStatus(v.status) == Some(jobs[jobId].status);
      }
    }
  }

  // ---------------------------------------------------------------------------
  // The module-level dictionary and the steps that change it

  class FawkesJobs {
    var jobs: map<string, Entry>

    constructor ()
      ensures jobs == map[] && Valid(jobs)
    {
      jobs := map[];
    }

    /** `fawkes_protect` with `jobId` the fresh uuid and `upload` how saving
        the file ends; on success `filePath` is where the upload is saved and
        what the background task receives. */
    method FawkesProtect(contentType: string, fileName: string, jobId: string, upload: Upload)
      returns (r: Reply<Accepted>, filePath: string)
      requires Valid(jobs)
      modifies this
      ensures Valid(jobs)
      ensures (r, jobs) == Protect(old(jobs), contentType, jobId, upload)
      ensures r.Ok? ==> filePath == UploadPath(jobId, fileName)
    {
      filePath := "";
      if !StartsWith(contentType, "image/") {
        r := Err(400, "File must be an image");
        return;
      }
      jobs := jobs[jobId := Entry(Pending, None, None)];
      if upload.SaveRaised? {
        r := Err(500, "Internal Server Error");
        return;
      }
      filePath := UploadPath(jobId, fileName);
      r := Ok(Accepted(jobId, "pending"));
    }

    /** `process_fawkes` up to `await asyncio.sleep(2)`. */
    method BeginProcessing(jobId: string)
      requires Valid(jobs)
      modifies this
      ensures Valid(jobs)
      ensures jobs == Begin(old(jobs), jobId)
    {
      if jobId in jobs {
        jobs := jobs[jobId := jobs[jobId].(status := Processing)];
      }
    }

    /** `process_fawkes` after the pause: the field assignments of the success
        path, or those of the exception handler. */
    method FinishProcessing(jobId: string, outcome: Outcome)
      requires Valid(jobs)
      modifies this
      ensures Valid(jobs)
      ensures jobs == Finish(old(jobs), jobId, outcome)
    {
      if jobId !in jobs {
        return;
      }
      match outcome {
        case Copied =>
          jobs := jobs[jobId := jobs[jobId].(status := Completed)];
          jobs := jobs[jobId := jobs[jobId].(resultUrl := Some(DownloadUrl(jobId)))];
        case Raised(message) =>
          jobs := jobs[jobId := jobs[jobId].(status := Failed)];
          jobs := jobs[jobId := jobs[jobId].(error := Some(message))];
      }
    }

    /** The whole background task, with nothing interleaved at the pause. */
    method ProcessFawkes(jobId: string, outcome: Outcome)
      requires Valid(jobs)
      modifies this
      ensures Valid(jobs)
      ensures jobs == Finish(Begin(old(jobs), jobId), jobId, outcome)
    {
      BeginProcessing(jobId);
      FinishProcessing(jobId, outcome);
    }
  }
}
