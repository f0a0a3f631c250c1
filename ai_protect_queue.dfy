/** The AI-protect job queue: a dictionary `jobs` from id to Job and a list
    `queue` of ids in the order they were added. A dashboard adds jobs; a
    remote worker claims the first pending one, fetches its image, and reports
    completion or failure.

    `Store` and the functions over it give the meaning of each route handler;
    class `JobQueue` holds the two globals and implements the handlers that
    change them, each proved to produce the state its function describes. */
module AiProtectQueue {
  import opened Wrappers
  import opened Text
  import opened AiProtectModels

  const UploadDir := "/app/data/uploads"
  const OutputDir := "/app/data/outputs"
  const NotFound: Reply<Job> := Err(404, "Job not found")

  /** `filename.split('.')[-1]`: the text after the last dot. */
  function Extension(fileName: string): string {
    LastField(fileName, '.')
  }

  /** Where `/add` saves an upload: `os.path.join(UPLOAD_DIR, f"{uuid}.{ext}")`. */
  function UploadPath(fileId: string, uploadName: string): string {
    UploadDir + "/" + fileId + "." + Extension(uploadName)
  }

  /** Where `/complete` saves a result: `os.path.join(OUTPUT_DIR, f"processed_{job_id}.{ext}")`. */
  function OutputPath(jobId: string, uploadName: string): string {
    OutputDir + "/processed_" + jobId + "." + Extension(uploadName)
  }

  // ---------------------------------------------------------------------------
  // The store and its invariant

  datatype Store = Store(jobs: map<string, Job>, queue: seq<string>)

  predicate Live(st: JobStatus) {
    st == Pending || st == Processing
  }

  /** What the handlers keep true: each job is stored under its own id; the
      queue holds distinct ids of stored jobs that are pending or processing;
      and every pending job is in the queue. */
  ghost predicate Consistent(s: Store) {
    && (forall id :: id in s.jobs ==> s.jobs[id].id == id)
    && (forall i :: 0 <= i < |s.queue| ==> s.queue[i] in s.jobs && Live(s.jobs[s.queue[i]].status))
    && Distinct(s.queue)
    && (forall id :: id in s.jobs && s.jobs[id].status == Pending ==> id in s.queue)
  }

  ghost predicate Distinct(q: seq<string>) {
    forall i, j :: 0 <= i < j < |q| ==> q[i] != q[j]
  }

  predicate IsPendingAt(q: seq<string>, jobs: map<string, Job>, i: int)
    requires 0 <= i < |q|
  {
    q[i] in jobs && jobs[q[i]].status == Pending
  }

  /** The ids in `q` whose job is pending, in queue order. */
  function PendingIds(q: seq<string>, jobs: map<string, Job>): (p: seq<string>)
    ensures forall x :: x in p ==> x in q && x in jobs && jobs[x].status == Pending
    decreases |q|
  {
    if |q| == 0 then []
    else (if IsPendingAt(q, jobs, 0) then [q[0]] else []) + PendingIds(q[1..], jobs)
  }

  /** The jobs still waiting for a worker, in the order they will be claimed. */
  function Waiting(s: Store): seq<string> {
    PendingIds(s.queue, s.jobs)
  }

  // ---------------------------------------------------------------------------
  // The handlers, as functions of the store

  /** `add_job`: store `Job.create(...)` under its id and append the id to the queue. */
  function Add(s: Store, id: string, jobType: JobType, inputPath: string, now: int): Store {
    Store(s.jobs[id := CreateJob(id, jobType, inputPath, now)], s.queue + [id])
  }

  /** The position of the first pending job at or after `k`, scanning the queue in order. */
  function FirstPending(q: seq<string>, jobs: map<string, Job>, k: nat): (r: Option<nat>)
    requires k <= |q|
    ensures r.Some? ==> k <= r.value < |q| && IsPendingAt(q, jobs, r.value)
    ensures r.Some? ==> forall j :: k <= j < r.value ==> !IsPendingAt(q, jobs, j)
    ensures r.None? ==> forall j :: k <= j < |q| ==> !IsPendingAt(q, jobs, j)
    decreases |q| - k
  {
    if k == |q| then None
    else if IsPendingAt(q, jobs, k) then Some(k)
    else FirstPending(q, jobs, k + 1)
  }

  /** The scan stops at the first pending position. */
  lemma {:induction false} FirstPendingIs(q: seq<string>, jobs: map<string, Job>, k: nat, i: nat)
    requires k <= i < |q| && IsPendingAt(q, jobs, i)
    requires forall j :: k <= j < i ==> !IsPendingAt(q, jobs, j)
    ensures FirstPending(q, jobs, k) == Some(i)
    decreases i - k
  {
    if k < i {
      FirstPendingIs(q, jobs, k + 1, i);
    }
  }

  /** `get_pending_job`: switch the first pending job in the queue to processing
      and return it, leaving it in the queue. */
  function Claim(s: Store): (Option<Job>, Store) {
    match FirstPending(s.queue, s.jobs, 0)
    case None => (None, s)
    case Some(i) =>
      var id := s.queue[i];
      var job := s.jobs[id].(status := Processing);
      (Some(job), Store(s.jobs[id := job], s.queue))
  }

  /** The first position of `x` in `q`. */
  function IndexOf(q: seq<string>, x: string): (i: nat)
    requires x in q
    ensures i < |q| && q[i] == x && x !in q[..i]
    decreases |q|
  {
    if q[0] == x then 0
    else
      var i := IndexOf(q[1..], x) + 1;
      assert q[..i] == [q[0]] + q[1..][..i - 1];
      i
  }

  /** Python's `q.remove(x)` after `x in q`: drop the first occurrence. */
  function RemoveFirst(q: seq<string>, x: string): seq<string> {
    if x in q then q[..IndexOf(q, x)] + q[IndexOf(q, x) + 1..] else q
  }

  /** Record `done` under `id` and take `id` out of the queue if it is there;
      the common tail of `complete_job` and `fail_job`. */
  function Finish(s: Store, id: string, done: Job): Store {
    Store(s.jobs[id := done], if id in s.queue then RemoveFirst(s.queue, id) else s.queue)
  }

  /** `complete_job`: 404 for an unknown id; otherwise completed, stamped and
      given its output path, whatever its status was; an error left by an
      earlier failure stays. */
  function Complete(s: Store, id: string, uploadName: string, now: int): (r: (Reply<Job>, Store))
    ensures id !in s.jobs ==> r == (NotFound, s)
    ensures id in s.jobs ==> r.0.Ok? && id in r.1.jobs && r.1.jobs[id] == r.0.value
    ensures id in s.jobs ==> var j, prior := r.1.jobs[id], s.jobs[id];
      && j.status == Completed && j.completedAt == Some(now)
      && j.outputPath == Some(OutputPath(id, uploadName)) && j.error == prior.error
      && j.id == prior.id && j.jobType == prior.jobType && j.createdAt == prior.createdAt
      && j.inputPath == prior.inputPath
    ensures forall k :: k in s.jobs && k != id ==> k in r.1.jobs && r.1.jobs[k] == s.jobs[k]
  {
    if id !in s.jobs then (NotFound, s)
    else
      var done := s.jobs[id].(status := Completed, completedAt := Some(now),
                              outputPath := Some(OutputPath(id, uploadName)));
      (Ok(done), Finish(s, id, done))
  }

  /** `fail_job`: 404 for an unknown id; otherwise failed with the reason and
      stamped, whatever its status was; the output path is left as it was. */
  function Fail(s: Store, id: string, reason: string, now: int): (r: (Reply<Job>, Store))
    ensures id !in s.jobs ==> r == (NotFound, s)
    ensures id in s.jobs ==> r.0.Ok? && id in r.1.jobs && r.1.jobs[id] == r.0.value
    ensures id in s.jobs ==> var j, prior := r.1.jobs[id], s.jobs[id];
      && j.status == Failed && j.completedAt == Some(now) && j.error == Some(reason)
      && j.id == prior.id && j.jobType == prior.jobType && j.createdAt == prior.createdAt
      && j.inputPath == prior.inputPath && j.outputPath == prior.outputPath
    ensures forall k :: k in s.jobs && k != id ==> k in r.1.jobs && r.1.jobs[k] == s.jobs[k]
  {
    if id !in s.jobs then (NotFound, s)
    else
      var done := s.jobs[id].(status := Failed, error := Some(reason), completedAt := Some(now));
      (Ok(done), Finish(s, id, done))
  }

  /** `get_job_image`: the stored input path, or 404. */
  function Image(s: Store, id: string): (r: Reply<string>)
    ensures r.Ok? <==> id in s.jobs
    ensures r.Ok? ==> r.value == s.jobs[id].inputPath
    ensures r.Err? ==> r == Err(404, "Job not found")
  {
    if id in s.jobs then Ok(s.jobs[id].inputPath) else Err(404, "Job not found")
  }

  /** `get_job_status`: the stored job, or 404. */
  function StatusOf(s: Store, id: string): (r: Reply<Job>)
    ensures r.Ok? <==> id in s.jobs
    ensures r.Ok? ==> r.value == s.jobs[id]
    ensures r.Err? ==> r == NotFound
  {
    if id in s.jobs then Ok(s.jobs[id]) else NotFound
  }

  /** `get_job_result`: the output path of a completed job; 404 for an unknown
      id, 400 when not completed or without an output path. */
  function ResultOf(s: Store, id: string): (r: Reply<string>)
    ensures r.Ok? <==> id in s.jobs && s.jobs[id].status == Completed
                       && s.jobs[id].outputPath.Some? && s.jobs[id].outputPath.value != ""
    ensures r.Ok? ==> Some(r.value) == s.jobs[id].outputPath
    ensures id !in s.jobs ==> r == Err(404, "Job not found")
    ensures id in s.jobs && r.Err? ==> r == Err(400, "Job not completed")
  {
    if id !in s.jobs then Err(404, "Job not found")
    else
      var job := s.jobs[id];
      if job.status != Completed || job.outputPath.None? || job.outputPath.value == "" then
        Err(400, "Job not completed")
      else Ok(job.outputPath.value)
  }

  // ---------------------------------------------------------------------------
  // Facts about PendingIds

  lemma {:induction false} PendingConcat(a: seq<string>, b: seq<string>, jobs: map<string, Job>)
    ensures PendingIds(a + b, jobs) == PendingIds(a, jobs) + PendingIds(b, jobs)
    decreases |a|
  {
    if |a| > 0 {
      PendingConcat(a[1..], b, jobs);
      assert (a + b)[1..] == a[1..] + b;
      assert (a + b)[0] == a[0];
      assert IsPendingAt(a + b, jobs, 0) == IsPendingAt(a, jobs, 0);
    } else {
      assert a + b == b;
    }
  }

  /** Changing the job of an id that is not in `q` does not change who is waiting in `q`. */
  lemma {:induction false} PendingFrame(q: seq<string>, jobs: map<string, Job>, id: string, job: Job)
    requires id !in q
    ensures PendingIds(q, jobs[id := job]) == PendingIds(q, jobs)
    decreases |q|
  {
    if |q| > 0 {
      PendingFrame(q[1..], jobs, id, job);
    }
  }

  lemma {:induction false} PendingNone(q: seq<string>, jobs: map<string, Job>)
    requires forall j :: 0 <= j < |q| ==> !IsPendingAt(q, jobs, j)
    ensures PendingIds(q, jobs) == []
    decreases |q|
  {
    if |q| > 0 {
      forall j | 0 <= j < |q| - 1 ensures !IsPendingAt(q[1..], jobs, j) {
        assert q[1..][j] == q[j + 1] && !IsPendingAt(q, jobs, j + 1);
      }
      PendingNone(q[1..], jobs);
    }
  }

  lemma PendingSingle(x: string, jobs: map<string, Job>)
    ensures PendingIds([x], jobs) == if x in jobs && jobs[x].status == Pending then [x] else []
  {
    assert [x][1..] == [];
  }

  lemma RemoveFirstSplit(a: seq<string>, x: string, b: seq<string>)
    requires x !in a
    ensures RemoveFirst(a + [x] + b, x) == a + b
  {
    var q := a + [x] + b;
    var i := IndexOf(q, x);
    assert q[|a|] == x;
    assert forall k :: 0 <= k < |a| ==> q[k] == a[k];
    assert i == |a|;
    assert q[..|a|] == a && q[|a| + 1..] == b;
  }

  // ---------------------------------------------------------------------------
  // The queue is a FIFO of pending jobs

  lemma AddKeepsConsistent(s: Store, id: string, jobType: JobType, inputPath: string, now: int)
    requires Consistent(s) && id !in s.jobs
    ensures Consistent(Add(s, id, jobType, inputPath, now))
  {
    var t := Add(s, id, jobType, inputPath, now);
    assert id !in s.queue;
    forall i | 0 <= i < |t.queue| ensures t.queue[i] in t.jobs && Live(t.jobs[t.queue[i]].status) {
      if i < |s.queue| { assert t.queue[i] == s.queue[i]; }
    }
    forall i, j | 0 <= i < j < |t.queue| ensures t.queue[i] != t.queue[j] {
      assert t.queue[i] == s.queue[i];
      if j < |s.queue| { assert t.queue[j] == s.queue[j]; }
    }
    forall x | x in t.jobs && t.jobs[x].status == Pending ensures x in t.queue {
      if x != id { assert x in s.queue; }
      else { assert t.queue[|s.queue|] == id; }
    }
  }

  /** Adding a job whose id is not queued appends it to the waiting line. */
  lemma AddWaiting(s: Store, id: string, jobType: JobType, inputPath: string, now: int)
    requires id !in s.queue
    ensures Waiting(Add(s, id, jobType, inputPath, now)) == Waiting(s) + [id]
    ensures Distinct(s.queue) ==> Distinct(Add(s, id, jobType, inputPath, now).queue)
  {
    var t := Add(s, id, jobType, inputPath, now);
    PendingConcat(s.queue, [id], t.jobs);
    PendingFrame(s.queue, s.jobs, id, CreateJob(id, jobType, inputPath, now));
    PendingSingle(id, t.jobs);
  }

  /** Adding a job under a fresh id appends it to the waiting line and keeps the store consistent. */
  lemma AddEnqueuesAtTail(s: Store, id: string, jobType: JobType, inputPath: string, now: int)
    requires Consistent(s) && id !in s.jobs
    ensures var t := Add(s, id, jobType, inputPath, now);
      && Consistent(t)
      && Waiting(t) == Waiting(s) + [id]
      && t.jobs[id] == CreateJob(id, jobType, inputPath, now)
      && (forall other :: other in s.jobs ==> other in t.jobs && t.jobs[other] == s.jobs[other])
  {
    AddKeepsConsistent(s, id, jobType, inputPath, now);
    assert id !in s.queue;
    AddWaiting(s, id, jobType, inputPath, now);
  }

  /** The waiting line of a queue, cut around position `i`. */
  lemma PendingSplit(q: seq<string>, jobs: map<string, Job>, i: int)
    requires 0 <= i < |q|
    ensures PendingIds(q, jobs)
            == PendingIds(q[..i], jobs) + PendingIds([q[i]], jobs) + PendingIds(q[i + 1..], jobs)
  {
    var id, a, b := q[i], q[..i], q[i + 1..];
    assert q == a + [id] + b;
    PendingConcat(a + [id], b, jobs);
    PendingConcat(a, [id], jobs);
  }

  /** In a distinct queue the id at `i` occurs neither before nor after `i`. */
  lemma PendingCut(q: seq<string>, jobs: map<string, Job>, i: int)
    requires Distinct(q) && 0 <= i < |q|
    ensures q[i] !in q[..i] && q[i] !in q[i + 1..]
    ensures PendingIds(q, jobs)
            == PendingIds(q[..i], jobs) + PendingIds([q[i]], jobs) + PendingIds(q[i + 1..], jobs)
  {
    var id, a, b := q[i], q[..i], q[i + 1..];
    assert id !in a by {
      forall k | 0 <= k < |a| ensures a[k] != id { assert a[k] == q[k]; }
    }
    assert id !in b by {
      forall k | 0 <= k < |b| ensures b[k] != id { assert b[k] == q[i + 1 + k]; }
    }
    PendingSplit(q, jobs, i);
  }

  /** The same cut after the job at `i` is replaced: only the middle part can change. */
  lemma PendingCutUpdated(q: seq<string>, jobs: map<string, Job>, i: int, job: Job)
    requires Distinct(q) && 0 <= i < |q|
    ensures PendingIds(q, jobs[q[i] := job])
            == PendingIds(q[..i], jobs) + PendingIds([q[i]], jobs[q[i] := job]) + PendingIds(q[i + 1..], jobs)
  {
    PendingCut(q, jobs[q[i] := job], i);
    PendingFrame(q[..i], jobs, q[i], job);
    PendingFrame(q[i + 1..], jobs, q[i], job);
  }

  lemma ClaimKeepsConsistent(s: Store)
    requires Consistent(s)
    ensures Consistent(Claim(s).1) && Claim(s).1.queue == s.queue
  {
  }

  /** Nothing before the position the scan stops at is waiting. */
  lemma NothingBefore(q: seq<string>, jobs: map<string, Job>, i: nat)
    requires FirstPending(q, jobs, 0) == Some(i)
    ensures PendingIds(q[..i], jobs) == []
  {
    var a := q[..i];
    forall j | 0 <= j < |a| ensures !IsPendingAt(a, jobs, j) {
      assert a[j] == q[j] && !IsPendingAt(q, jobs, j);
    }
    PendingNone(a, jobs);
  }

  /** With nothing waiting before `i` and the job at `i` waiting, the waiting
      line is the id at `i` followed by the pending ids after it. */
  lemma WaitingFrom(q: seq<string>, jobs: map<string, Job>, i: nat)
    requires i < |q| && PendingIds(q[..i], jobs) == [] && IsPendingAt(q, jobs, i)
    ensures PendingIds(q, jobs) == [q[i]] + PendingIds(q[i + 1..], jobs)
  {
    PendingSplit(q, jobs, i);
    PendingSingle(q[i], jobs);
    assert [] + [q[i]] + PendingIds(q[i + 1..], jobs) == [q[i]] + PendingIds(q[i + 1..], jobs);
  }

  /** Once the job at `i` is processing, only the pending ids after `i` are left. */
  lemma WaitingAfter(q: seq<string>, jobs: map<string, Job>, i: nat, job: Job)
    requires Distinct(q) && i < |q| && PendingIds(q[..i], jobs) == [] && job.status == Processing
    ensures PendingIds(q, jobs[q[i] := job]) == PendingIds(q[i + 1..], jobs)
  {
    PendingCutUpdated(q, jobs, i, job);
    PendingSingle(q[i], jobs[q[i] := job]);
    assert [] + [] + PendingIds(q[i + 1..], jobs) == PendingIds(q[i + 1..], jobs);
  }

  lemma ClaimAt(s: Store, i: nat)
    requires Distinct(s.queue) && FirstPending(s.queue, s.jobs, 0) == Some(i)
    ensures Waiting(s) == [s.queue[i]] + PendingIds(s.queue[i + 1..], s.jobs)
    ensures Waiting(Claim(s).1) == PendingIds(s.queue[i + 1..], s.jobs)
  {
    var job := s.jobs[s.queue[i]].(status := Processing);
    assert Claim(s).1 == Store(s.jobs[s.queue[i] := job], s.queue);
    NothingBefore(s.queue, s.jobs, i);
    WaitingFrom(s.queue, s.jobs, i);
    WaitingAfter(s.queue, s.jobs, i, job);
  }

  /** The position the scan stops at holds the head of the waiting line, and
      the line after the claim is the rest of it. */
  lemma ClaimWaiting(s: Store)
    requires Distinct(s.queue)
    ensures FirstPending(s.queue, s.jobs, 0).None? <==> Waiting(s) == []
    ensures FirstPending(s.queue, s.jobs, 0).Some? ==>
              && s.queue[FirstPending(s.queue, s.jobs, 0).value] == Waiting(s)[0]
              && Waiting(Claim(s).1) == Waiting(s)[1..]
  {
    match FirstPending(s.queue, s.jobs, 0)
    case None =>
      PendingNone(s.queue, s.jobs);
    case Some(i) =>
      ClaimAt(s, i);
  }

  lemma ClaimResult(s: Store)
    requires Distinct(s.queue)
    ensures Waiting(s) == [] ==> Claim(s) == (None, s)
    ensures Waiting(s) != [] ==>
              && Claim(s).0 == Some(s.jobs[Waiting(s)[0]].(status := Processing))
              && Claim(s).1 == Store(s.jobs[Waiting(s)[0] := Claim(s).0.value], s.queue)
              && Waiting(Claim(s).1) == Waiting(s)[1..]
  {
    ClaimWaiting(s);
  }

  /** Claiming takes the head of the waiting line: with nobody waiting it
      returns nothing and changes nothing; otherwise it returns the first
      waiting job, now processing, and the line loses exactly its head. */
  lemma ClaimTakesHead(s: Store)
    requires Consistent(s)
    ensures Consistent(Claim(s).1) && Claim(s).1.queue == s.queue
    ensures Waiting(s) == [] ==> Claim(s) == (None, s)
    ensures Waiting(s) != [] ==>
              && Claim(s).0 == Some(s.jobs[Waiting(s)[0]].(status := Processing))
              && Claim(s).1.jobs == s.jobs[Waiting(s)[0] := Claim(s).0.value]
              && Waiting(Claim(s).1) == Waiting(s)[1..]
  {
    ClaimKeepsConsistent(s);
    ClaimResult(s);
  }

  /** In a queue without repeats, the first position of an entry is its only one. */
  lemma IndexOfDistinct(q: seq<string>, i: int)
    requires Distinct(q) && 0 <= i < |q|
    ensures IndexOf(q, q[i]) == i
  {
    var k := IndexOf(q, q[i]);
    assert q[k] == q[i];
  }

  /** Cutting position `i` out of a queue without repeats leaves a queue
      without repeats holding every other entry. */
  lemma CutAt(q: seq<string>, i: int)
    requires Distinct(q) && 0 <= i < |q|
    ensures Distinct(q[..i] + q[i + 1..])
    ensures forall x :: x in q[..i] + q[i + 1..] <==> x in q && x != q[i]
  {
    var r := q[..i] + q[i + 1..];
    assert forall k :: 0 <= k < |r| ==> r[k] == q[if k < i then k else k + 1];
    forall x | x in q && x != q[i] ensures x in r {
      var j :| 0 <= j < |q| && q[j] == x;
      assert r[if j < i then j else j - 1] == x;
    }
  }

  /** In a queue without repeats, `remove` drops exactly the one entry. */
  lemma RemoveAt(q: seq<string>, i: int)
    requires Distinct(q) && 0 <= i < |q|
    ensures RemoveFirst(q, q[i]) == q[..i] + q[i + 1..]
    ensures Distinct(RemoveFirst(q, q[i]))
    ensures forall x :: x in RemoveFirst(q, q[i]) <==> x in q && x != q[i]
  {
    IndexOfDistinct(q, i);
    CutAt(q, i);
  }

  /** The waiting line of a distinct queue split around position `i`, and
      of the queue without `i` once the job there is no longer pending. */
  lemma DropParts(q: seq<string>, jobs: map<string, Job>, i: int, done: Job)
    requires Distinct(q) && 0 <= i < |q| && done.status != Pending
    ensures var pa, pb := PendingIds(q[..i], jobs), PendingIds(q[i + 1..], jobs);
      && PendingIds(q[..i] + q[i + 1..], jobs[q[i] := done]) == pa + pb
      && PendingIds(q, jobs) == pa + PendingIds([q[i]], jobs) + pb
      && q[i] !in pa && q[i] !in pb
  {
    var id, a, b := q[i], q[..i], q[i + 1..];
    PendingCut(q, jobs, i);
    PendingConcat(a, b, jobs[id := done]);
    PendingFrame(a, jobs, id, done);
    PendingFrame(b, jobs, id, done);
  }

  lemma DropWaiting(q: seq<string>, jobs: map<string, Job>, i: int, done: Job)
    requires Distinct(q) && 0 <= i < |q| && done.status != Pending
    ensures PendingIds(q[..i] + q[i + 1..], jobs[q[i] := done]) == RemoveFirst(PendingIds(q, jobs), q[i])
  {
    DropParts(q, jobs, i, done);
    PendingSingle(q[i], jobs);
    DropSplit(PendingIds(q[..i], jobs), q[i], PendingIds(q[i + 1..], jobs));
  }

  /** Removing `x` from a line where it stands between `pa` and `pb`, or
      where it does not stand at all, leaves `pa + pb`. */
  lemma DropSplit(pa: seq<string>, x: string, pb: seq<string>)
    requires x !in pa && x !in pb
    ensures RemoveFirst(pa + [x] + pb, x) == pa + pb
    ensures RemoveFirst(pa + [] + pb, x) == pa + pb
  {
    RemoveFirstSplit(pa, x, pb);
    assert pa + [] + pb == pa + pb;
    RemoveAbsent(pa + pb, x);
  }

  lemma RemoveAbsent(p: seq<string>, x: string)
    requires x !in p
    ensures RemoveFirst(p, x) == p
  {
  }

  /** Completing or failing takes the id out of the waiting line, wherever it stood. */
  lemma FinishWaiting(s: Store, id: string, done: Job)
    requires Distinct(s.queue) && done.status != Pending
    ensures id !in Finish(s, id, done).queue
    ensures Waiting(Finish(s, id, done)) == RemoveFirst(Waiting(s), id)
  {
    var q := s.queue;
    if id in q {
      var i := IndexOf(q, id);
      RemoveAt(q, i);
      DropWaiting(q, s.jobs, i, done);
    } else {
      PendingFrame(q, s.jobs, id, done);
      assert id !in Waiting(s);
    }
  }

  lemma FinishKeepsConsistent(s: Store, id: string, done: Job)
    requires Consistent(s) && id in s.jobs
    requires done.id == id && !Live(done.status)
    ensures Consistent(Finish(s, id, done))
  {
    var q := s.queue;
    var t := Finish(s, id, done);
    if id in q {
      RemoveAt(q, IndexOf(q, id));
    }
    forall k | 0 <= k < |t.queue| ensures t.queue[k] in t.jobs && Live(t.jobs[t.queue[k]].status) {
      assert t.queue[k] in q && t.queue[k] != id;
      var j :| 0 <= j < |q| && q[j] == t.queue[k];
    }
  }

  /** Completing or failing a known job takes its id out of the waiting line
      (and out of the queue) and keeps the store consistent. */
  lemma FinishDropsId(s: Store, id: string, done: Job)
    requires Consistent(s) && id in s.jobs
    requires done.id == id && !Live(done.status)
    ensures Consistent(Finish(s, id, done))
    ensures id !in Finish(s, id, done).queue
    ensures Waiting(Finish(s, id, done)) == RemoveFirst(Waiting(s), id)
  {
    FinishKeepsConsistent(s, id, done);
    FinishWaiting(s, id, done);
  }

  /** Claiming from a line headed by `x` returns `x`, now processing, and
      leaves the rest of the line. */
  lemma ClaimNext(s: Store, x: string, rest: seq<string>)
    requires Distinct(s.queue) && Waiting(s) == [x] + rest
    ensures Claim(s).0 == Some(s.jobs[x].(status := Processing))
    ensures Claim(s).1 == Store(s.jobs[x := Claim(s).0.value], s.queue)
    ensures Waiting(Claim(s).1) == rest
  {
    ClaimResult(s);
    assert Waiting(s)[0] == x && Waiting(s)[1..] == rest;
  }

  /** Two adds under fresh ids to a store with nobody waiting: the two jobs,
      in that order, are the whole waiting line. */
  lemma AddTwo(s: Store, a: string, b: string, ta: JobType, tb: JobType,
               pa: string, pb: string, t1: int, t2: int)
    requires Consistent(s) && Waiting(s) == []
    requires a !in s.jobs && b !in s.jobs && a != b
    ensures var s2 := Add(Add(s, a, ta, pa, t1), b, tb, pb, t2);
      && Distinct(s2.queue) && Waiting(s2) == [a] + [b]
      && s2.jobs[a] == CreateJob(a, ta, pa, t1) && s2.jobs[b] == CreateJob(b, tb, pb, t2)
  {
    assert a !in s.queue && b !in s.queue;
    AddWaiting(s, a, ta, pa, t1);
    AddWaiting(Add(s, a, ta, pa, t1), b, tb, pb, t2);
  }

  /** The end-to-end order promise: from a store with nobody waiting, two jobs
      added one after the other are claimed in that order, and a third claim
      finds nothing. */
  lemma FifoTwoJobs(s: Store, a: string, b: string, ta: JobType, tb: JobType,
                    pa: string, pb: string, t1: int, t2: int)
    requires Consistent(s) && Waiting(s) == []
    requires a !in s.jobs && b !in s.jobs && a != b
    ensures var s2 := Add(Add(s, a, ta, pa, t1), b, tb, pb, t2);
      && Claim(s2).0 == Some(CreateJob(a, ta, pa, t1).(status := Processing))
      && Claim(Claim(s2).1).0 == Some(CreateJob(b, tb, pb, t2).(status := Processing))
      && Claim(Claim(Claim(s2).1).1).0 == None
  {
    var s2 := Add(Add(s, a, ta, pa, t1), b, tb, pb, t2);
    AddTwo(s, a, b, ta, tb, pa, pb, t1, t2);
    ClaimNext(s2, a, [b]);
    var s3 := Claim(s2).1;
    ClaimNext(s3, b, []);
    ClaimResult(Claim(s3).1);
  }

  // ---------------------------------------------------------------------------
  // Runs of handler calls

  datatype Op =
    | AddOp(id: string, jobType: JobType, inputPath: string, now: int)
    | ClaimOp
    | CompleteOp(id: string, uploadName: string, now: int)
    | FailOp(id: string, reason: string, now: int)

  function Step(s: Store, op: Op): Store {
    match op
    case AddOp(id, jobType, inputPath, now) => Add(s, id, jobType, inputPath, now)
    case ClaimOp => Claim(s).1
    case CompleteOp(id, uploadName, now) => Complete(s, id, uploadName, now).1
    case FailOp(id, reason, now) => Fail(s, id, reason, now).1
  }

  function Run(s: Store, ops: seq<Op>): Store
    decreases |ops|
  {
    if |ops| == 0 then s else Run(Step(s, ops[0]), ops[1..])
  }

  /** Every add in the run uses an id not yet stored (what uuid4 provides). */
  ghost predicate FreshAdds(s: Store, ops: seq<Op>)
    decreases |ops|
  {
    |ops| == 0 || ((ops[0].AddOp? ==> ops[0].id !in s.jobs) && FreshAdds(Step(s, ops[0]), ops[1..]))
  }

  lemma StepKeepsConsistent(s: Store, op: Op)
    requires Consistent(s)
    requires op.AddOp? ==> op.id !in s.jobs
    ensures Consistent(Step(s, op))
    ensures forall id :: id in s.jobs ==> id in Step(s, op).jobs
    ensures forall id :: id in s.jobs && s.jobs[id].status != Pending ==> Step(s, op).jobs[id].status != Pending
  {
    match op
    case AddOp(id, jobType, inputPath, now) =>
      AddEnqueuesAtTail(s, id, jobType, inputPath, now);
    case ClaimOp =>
      ClaimTakesHead(s);
    case CompleteOp(id, uploadName, now) =>
      if id in s.jobs {
        FinishDropsId(s, id, Complete(s, id, uploadName, now).0.value);
      }
    case FailOp(id, reason, now) =>
      if id in s.jobs {
        FinishDropsId(s, id, Fail(s, id, reason, now).0.value);
      }
  }

  /** At most once: a job that has left the pending state never becomes pending
      again, whatever handlers run afterwards, so no later claim returns it. */
  lemma {:induction false} ClaimedNeverReturned(s: Store, ops: seq<Op>, id: string)
    requires Consistent(s) && FreshAdds(s, ops)
    requires id in s.jobs && s.jobs[id].status != Pending
    ensures var t := Run(s, ops);
      && Consistent(t)
      && id in t.jobs && t.jobs[id].status != Pending
      && (Claim(t).0.Some? ==> Claim(t).0.value.id != id)
    decreases |ops|
  {
    if |ops| > 0 {
      StepKeepsConsistent(s, ops[0]);
      ClaimedNeverReturned(Step(s, ops[0]), ops[1..], id);
    } else {
      match FirstPending(s.queue, s.jobs, 0)
      case None =>
      case Some(i) =>
        assert s.jobs[s.queue[i]].id == s.queue[i];
    }
  }

  /** A result becomes downloadable exactly through completion: after
      `complete_job` the result route serves the new output path; after
      `fail_job` the job is failed, stamped with the time and the reason, and
      the result route answers 400. */
  lemma CompleteThenFailResult(s: Store, id: string, uploadName: string, reason: string, now: int)
    requires id in s.jobs
    ensures var t := Complete(s, id, uploadName, now).1;
      && ResultOf(t, id) == Ok(OutputPath(id, uploadName))
      && t.jobs[id].completedAt == Some(now)
    ensures var t := Fail(s, id, reason, now).1;
      && ResultOf(t, id) == Err(400, "Job not completed")
      && t.jobs[id].status == Failed && t.jobs[id].completedAt == Some(now)
      && t.jobs[id].error == Some(reason)
      && t.jobs[id].outputPath == s.jobs[id].outputPath
  {
    var p := OutputPath(id, uploadName);
    assert |p| > 0 by { assert p[0] == '/'; }
  }

  // ---------------------------------------------------------------------------
  // The module-level globals and the handlers that change them

  class JobQueue {
    var jobs: map<string, Job>
    var queue: seq<string>

    function State(): Store
      reads this
    {
      Store(jobs, queue)
    }

    constructor ()
      ensures State() == Store(map[], [])
      ensures Consistent(State())
    {
      jobs := map[];
      queue := [];
    }

    /** `add_job`: the upload is saved under `fileId` (a fresh uuid), the job
        under `jobId` (another fresh uuid). */
    method AddJob(jobType: JobType, uploadName: string, fileId: string, jobId: string, now: int)
      returns (job: Job)
      requires Consistent(State()) && jobId !in jobs
      modifies this
      ensures Consistent(State())
      ensures job == CreateJob(jobId, jobType, UploadPath(fileId, uploadName), now)
      ensures State() == Add(old(State()), jobId, jobType, UploadPath(fileId, uploadName), now)
      ensures Waiting(State()) == Waiting(old(State())) + [jobId]
    {
      AddEnqueuesAtTail(State(), jobId, jobType, UploadPath(fileId, uploadName), now);
      job := CreateJob(jobId, jobType, UploadPath(fileId, uploadName), now);
      jobs := jobs[jobId := job];
      queue := queue + [jobId];
    }

    /** `get_pending_job`: scan the queue in order and claim the first pending job. */
    method GetPendingJob() returns (job: Option<Job>)
      requires Consistent(State())
      modifies this
      ensures Consistent(State())
      ensures (job, State()) == Claim(old(State()))
      ensures queue == old(queue)
    {
      ClaimTakesHead(State());
      var i := 0;
      while i < |queue|
        invariant 0 <= i <= |queue|
        invariant jobs == old(jobs) && queue == old(queue)
        invariant forall j :: 0 <= j < i ==> !IsPendingAt(queue, jobs, j)
      {
        var id := queue[i];
        if id in jobs && jobs[id].status == Pending {
          FirstPendingIs(queue, jobs, 0, i);
          var claimed := jobs[id].(status := Processing);
          jobs := jobs[id := claimed];
          job := Some(claimed);
          return;
        }
        i := i + 1;
      }
      assert FirstPending(queue, jobs, 0) == None;
      job := None;
    }

    /** `complete_job`: the result upload's name gives the output extension. */
    method CompleteJob(jobId: string, uploadName: string, now: int) returns (r: Reply<Job>)
      requires Consistent(State())
      modifies this
      ensures Consistent(State())
      ensures (r, State()) == Complete(old(State()), jobId, uploadName, now)
      ensures r.Ok? ==> jobId !in queue
    {
      if jobId !in jobs {
        return NotFound;
      }
      var done := jobs[jobId].(status := Completed, completedAt := Some(now),
                               outputPath := Some(OutputPath(jobId, uploadName)));
      FinishDropsId(State(), jobId, done);
      jobs := jobs[jobId := done];
      if jobId in queue {
        queue := RemoveFirst(queue, jobId);
      }
      r := Ok(done);
    }

    /** `fail_job`. */
    method FailJob(jobId: string, reason: string, now: int) returns (r: Reply<Job>)
      requires Consistent(State())
      modifies this
      ensures Consistent(State())
      ensures (r, State()) == Fail(old(State()), jobId, reason, now)
      ensures r.Ok? ==> jobId !in queue
    {
      if jobId !in jobs {
        return NotFound;
      }
      var done := jobs[jobId].(status := Failed, error := Some(reason), completedAt := Some(now));
      FinishDropsId(State(), jobId, done);
      jobs := jobs[jobId := done];
      if jobId in queue {
        queue := RemoveFirst(queue, jobId);
      }
      r := Ok(done);
    }
  }
}
