/** The SpiderFoot scan registry of the OSINT service: an in-memory `scans`
    dictionary whose entries go queued -> running -> completed | failed, may be
    cancelled at any time, and whose results are summarised per finding type.

    The functions over `map<string, Scan>` say what each route and each part of
    the background run does; class `ScanRegistry` holds the dictionary and
    performs them in place. The run is split at its one `await` (the request to
    the SpiderFoot server), whose result is an input. */
module SpiderFoot {
  import opened Wrappers
  import opened Text
  import opened Counting
  import opened Query

  datatype ScanState = Queued | Running | Completed | Failed | Cancelled

  function StateValue(s: ScanState): string {
    match s
    case Queued => "queued"
    case Running => "running"
    case Completed => "completed"
    case Failed => "failed"
    case Cancelled => "cancelled"
  }

  /** One result dictionary, string keys to string values. */
  type Finding = map<string, string>

  /** One entry of the `scans` dictionary. */
  datatype Scan = Scan(
    status: ScanState,
    target: string,
    scanType: string,
    progress: int,
    results: seq<Finding>,
    error: Option<string>)

  /** The `ScanStatus` response model. */
  datatype StatusReply = StatusReply(scanId: string, status: string, target: string, progress: int, resultsCount: int)

  /** The `ScanResult` response model. */
  datatype ScanResult = ScanResult(scanId: string, target: string, findings: seq<Finding>, summary: map<string, nat>)

  /** How the request to the SpiderFoot server ends: it answers, it cannot be
      reached (`httpx.ConnectError`, which is swallowed), or it raises another
      exception with the given message. */
  datatype PostOutcome = Reached | Unreachable | Raised(message: string)

  const MaxFindings := 100

  /** `str(uuid.uuid4())[:8].upper()`, given the uuid string. */
  function ScanId(uuid: string): (id: string)
    ensures |id| == if |uuid| < 8 then |uuid| else 8
    ensures forall i :: 0 <= i < |id| ==> id[i] == UpperChar(uuid[i])
  {
    Upper(uuid[..if |uuid| < 8 then |uuid| else 8])
  }

  /** `r.get("type", "other")`. */
  function Category(f: Finding): string {
    if "type" in f then f["type"] else "other"
  }

  function Categories(results: seq<Finding>): (cs: seq<string>)
    ensures |cs| == |results|
    ensures forall i :: 0 <= i < |results| ==> cs[i] == Category(results[i])
  {
    seq(|results|, i requires 0 <= i < |results| => Category(results[i]))
  }

  /** The two placeholder findings a run records for `target`. */
  function SimulatedResults(target: string): seq<Finding> {
    [ map["type" := "DOMAIN_NAME", "data" := target, "source" := "DNS"],
      map["type" := "IP_ADDRESS", "data" := "Resolved IP", "source" := "DNS"] ]
  }

  /** What every entry keeps through the routes and the run. */
  ghost predicate Valid(scans: map<string, Scan>) {
    forall id :: id in scans ==>
      && 0 <= scans[id].progress <= 100
      && (scans[id].status == Queued ==> scans[id].progress == 0 && scans[id].results == [])
      && (scans[id].status == Completed ==>
            scans[id].progress == 100 && scans[id].results == SimulatedResults(scans[id].target))
      && (scans[id].status == Failed ==> scans[id].error.Some?)
  }

  // ---------------------------------------------------------------------------
  // The routes and the run, as functions of the dictionary

  /** `start_scan`: a queued entry under the new id, reported with no results. */
  function Start(scans: map<string, Scan>, scanId: string, target: string, scanType: string)
    : (StatusReply, map<string, Scan>)
  {
    (StatusReply(scanId, "queued", target, 0, 0),
     scans[scanId := Scan(Queued, target, scanType, 0, [], None)])
  }

  /** `get_scan_status`. */
  function StatusOf(scans: map<string, Scan>, scanId: string): (r: Reply<StatusReply>)
    ensures r.Ok? <==> scanId in scans
    ensures r.Err? ==> r == Err(404, "Scan not found")
    ensures r.Ok? ==> && r.value.resultsCount == |scans[scanId].results|
                      && r.value.status == StateValue(scans[scanId].status)
                      && r.value.progress == scans[scanId].progress
  {
    if scanId !in scans then Err(404, "Scan not found")
    else
      var s := scans[scanId];
      Ok(StatusReply(scanId, StateValue(s.status), s.target, s.progress, |s.results|))
  }

  function NotCompleted(s: ScanState): string {
    "Scan not completed. Current status: " + StateValue(s)
  }

  /** `get_scan_results`: 404 for an unknown id, 400 unless completed;
      otherwise the first 100 findings and the count of each finding type. */
  function Results(scans: map<string, Scan>, scanId: string): (r: Reply<ScanResult>)
    ensures r.Ok? <==> scanId in scans && scans[scanId].status == Completed
    ensures scanId !in scans ==> r == Err(404, "Scan not found")
    ensures scanId in scans && r.Err? ==> r == Err(400, NotCompleted(scans[scanId].status))
  {
    if scanId !in scans then Err(404, "Scan not found")
    else
      var s := scans[scanId];
      if s.status != Completed then Err(400, NotCompleted(s.status))
      else Ok(ScanResult(scanId, s.target, Limit(s.results, MaxFindings), Tally(Categories(s.results))))
  }

  /** `cancel_scan`: 404 for an unknown id; otherwise the status becomes
      cancelled whatever it was. */
  function Cancel(scans: map<string, Scan>, scanId: string): (r: (Reply<string>, map<string, Scan>))
    ensures scanId !in scans ==> r == (Err(404, "Scan not found"), scans)
    ensures scanId in scans ==> r.0 == Ok("Scan " + scanId + " cancelled")
  {
    if scanId !in scans then (Err(404, "Scan not found"), scans)
    else (Ok("Scan " + scanId + " cancelled"), scans[scanId := scans[scanId].(status := Cancelled)])
  }

  /** The run up to the request: running at 10%. An unknown id raises again in
      the handler, so nothing changes. */
  function BeginRun(scans: map<string, Scan>, scanId: string): map<string, Scan> {
    if scanId !in scans then scans
    else scans[scanId := scans[scanId].(status := Running, progress := 10)]
  }

  /** The run from the request on: 50% if the server answered, then the
      placeholder results and completed at 100%; a raised exception instead
      ends it failed with the message. */
  function FinishRun(scans: map<string, Scan>, scanId: string, outcome: PostOutcome): map<string, Scan> {
    if scanId !in scans then scans
    else
      var s := scans[scanId];
      match outcome
      case Raised(message) => scans[scanId := s.(status := Failed, error := Some(message))]
      case _ =>
        var s' := if outcome.Reached? then s.(progress := 50) else s;
        scans[scanId := s'.(results := SimulatedResults(s.target), status := Completed, progress := 100)]
  }

  // ---------------------------------------------------------------------------
  // Properties

  /** The summary counts every finding under its type ("other" when it has
      none), so the counts add up to the number of findings; `findings` is
      the first 100 of them. */
  lemma ResultsSummary(scans: map<string, Scan>, scanId: string, k: string)
    requires Results(scans, scanId).Ok?
    ensures var r := Results(scans, scanId).value;
      var results := scans[scanId].results;
      && Total(r.summary) == |results|
      && (k in r.summary <==> exists i :: 0 <= i < |results| && Category(results[i]) == k)
      && (k in r.summary ==> r.summary[k] == Count(Categories(results), k))
      && |r.findings| == (if |results| < MaxFindings then |results| else MaxFindings)
      && r.findings == results[..|r.findings|]
  {
    var results := scans[scanId].results;
    var cs := Categories(results);
    TotalOfTally(cs);
    TallyCounts(cs, k);
    if k in Tally(cs) {
      var i :| 0 <= i < |cs| && cs[i] == k;
      assert Category(results[i]) == k;
    }
  }

  lemma CategoriesSnoc(results: seq<Finding>, i: int)
    requires 0 <= i < |results|
    ensures Categories(results[..i + 1]) == Categories(results[..i]) + [Category(results[i])]
  {
    var a, b := Categories(results[..i + 1]), Categories(results[..i]) + [Category(results[i])];
    assert |a| == |b|;
    forall j | 0 <= j < |a| ensures a[j] == b[j] {
      assert results[..i + 1][j] == results[j];
    }
  }

  /** A new scan reads back as queued with no results, and starting keeps the
      registry well formed. */
  lemma StartThenStatus(scans: map<string, Scan>, scanId: string, target: string, scanType: string)
    ensures var (reply, t) := Start(scans, scanId, target, scanType);
      && StatusOf(t, scanId) == Ok(reply)
      && reply.status == StateValue(Queued) && reply.progress == 0 && reply.resultsCount == 0
      && (Valid(scans) ==> Valid(t))
  {
  }

  /** Cancelling changes only the status of that one scan, and its results are
      then refused with the cancelled status in the message. */
  lemma CancelOnlyStatus(scans: map<string, Scan>, scanId: string)
    requires scanId in scans
    ensures var t := Cancel(scans, scanId).1;
      && t.Keys == scans.Keys
      && t[scanId] == scans[scanId].(status := Cancelled)
      && (forall other :: other in scans && other != scanId ==> t[other] == scans[other])
      && Results(t, scanId) == Err(400, "Scan not completed. Current status: cancelled")
      && (Valid(scans) ==> Valid(t))
  {
  }

  /** Every part of the run keeps the registry well formed. */
  lemma RunKeepsValid(scans: map<string, Scan>, scanId: string, outcome: PostOutcome)
    requires Valid(scans)
    ensures Valid(BeginRun(scans, scanId))
    ensures Valid(FinishRun(scans, scanId, outcome))
  {
  }

  /** A started scan, run to the end: running at 10% during the request;
      afterwards completed at 100% with two findings, the first naming the
      target, unless the request raised, which leaves it failed at 10%. */
  lemma RunLifecycle(scans: map<string, Scan>, scanId: string, target: string, scanType: string,
                     outcome: PostOutcome)
    ensures var t := Start(scans, scanId, target, scanType).1;
      var during := BeginRun(t, scanId);
      var after := FinishRun(during, scanId, outcome);
      && StatusOf(during, scanId) == Ok(StatusReply(scanId, "running", target, 10, 0))
      && (!outcome.Raised? ==>
            && StatusOf(after, scanId) == Ok(StatusReply(scanId, "completed", target, 100, 2))
            && after[scanId].results[0]["data"] == target
            && Results(after, scanId).Ok?
            && Results(after, scanId).value.summary == map["DOMAIN_NAME" := 1, "IP_ADDRESS" := 1])
      && (outcome.Raised? ==>
            && StatusOf(after, scanId) == Ok(StatusReply(scanId, "failed", target, 10, 0))
            && after[scanId].error == Some(outcome.message))
  {
    SimulatedSummary(target);
  }

  /** The placeholder findings are one of each type. */
  lemma SimulatedSummary(target: string)
    ensures Tally(Categories(SimulatedResults(target))) == map["DOMAIN_NAME" := 1, "IP_ADDRESS" := 1]
  {
    var cs := Categories(SimulatedResults(target));
    assert cs == ["DOMAIN_NAME"] + ["IP_ADDRESS"];
    TallySnoc([], "DOMAIN_NAME");
    assert [] + ["DOMAIN_NAME"] == ["DOMAIN_NAME"];
    TallySnoc(["DOMAIN_NAME"], "IP_ADDRESS");
  }

  /** A cancel that lands while the run waits on the server does not stop the
      run: the scan still ends completed. */
  lemma CancelDuringRunIsOverwritten(scans: map<string, Scan>, scanId: string)
    requires scanId in scans
    ensures var t := Cancel(BeginRun(scans, scanId), scanId).1;
      && t[scanId].status == Cancelled
      && FinishRun(t, scanId, Reached)[scanId].status == Completed
  {
  }

  // ---------------------------------------------------------------------------
  // The module-level dictionary and the routes that use it

  class ScanRegistry {
    var scans: map<string, Scan>

    constructor ()
      ensures scans == map[] && Valid(scans)
    {
      scans := map[];
    }

    /** `start_scan` with `uuid` the fresh uuid4 string. */
    method StartScan(uuid: string, target: string, scanType: string) returns (r: StatusReply)
      requires Valid(scans)
      modifies this
      ensures Valid(scans)
      ensures (r, scans) == Start(old(scans), ScanId(uuid), target, scanType)
    {
      var scanId := ScanId(uuid);
      scans := scans[scanId := Scan(Queued, target, scanType, 0, [], None)];
      r := StatusReply(scanId, "queued", target, 0, 0);
    }

    /** `get_scan_results`: the summary is built by the loop over the results. */
    method GetScanResults(scanId: string) returns (r: Reply<ScanResult>)
      ensures r == Results(scans, scanId)
    {
      if scanId !in scans {
        return Err(404, "Scan not found");
      }
      var scan := scans[scanId];
      if scan.status != Completed {
        return Err(400, NotCompleted(scan.status));
      }
      var results := scan.results;
      var summary: map<string, nat> := map[];
      var i := 0;
      while i < |results|
        invariant 0 <= i <= |results|
        invariant summary == Tally(Categories(results[..i]))
      {
        var category := Category(results[i]);
        CategoriesSnoc(results, i);
        TallySnoc(Categories(results[..i]), category);
        summary := Bump(summary, category);
        i := i + 1;
      }
      assert results[..i] == results;
      r := Ok(ScanResult(scanId, scan.target, Limit(results, MaxFindings), summary));
    }

    method CancelScan(scanId: string) returns (r: Reply<string>)
      requires Valid(scans)
      modifies this
      ensures Valid(scans)
      ensures (r, scans) == Cancel(old(scans), scanId)
    {
      if scanId !in scans {
        return Err(404, "Scan not found");
      }
      scans := scans[scanId := scans[scanId].(status := Cancelled)];
      r := Ok("Scan " + scanId + " cancelled");
    }

    /** `run_spiderfoot_scan` up to the request to the server. */
    method StartRun(scanId: string)
      requires Valid(scans)
      modifies this
      ensures Valid(scans)
      ensures scans == BeginRun(old(scans), scanId)
    {
      if scanId in scans {
        scans := scans[scanId := scans[scanId].(status := Running)];
        scans := scans[scanId := scans[scanId].(progress := 10)];
      }
    }

    /** `run_spiderfoot_scan` from the request on. The run assigns the entry's
        fields one at a time; nothing else touches the entry in between, so the
        model edits a copy of it and stores the copy once. */
    method EndRun(scanId: string, outcome: PostOutcome)
      requires Valid(scans)
      modifies this
      ensures Valid(scans)
      ensures scans == FinishRun(old(scans), scanId, outcome)
    {
      if scanId !in scans {
        return;
      }
      var entry := scans[scanId];
      if outcome.Raised? {
        entry := entry.(status := Failed);
        entry := entry.(error := Some(outcome.message));
      } else {
        if outcome.Reached? {
          entry := entry.(progress := 50);
        }
        entry := entry.(results := SimulatedResults(entry.target));
        entry := entry.(status := Completed);
        entry := entry.(progress := 100);
      }
      scans := scans[scanId := entry];
    }

    /** The whole background run, with nothing interleaved at the request. */
    method RunSpiderfootScan(scanId: string, outcome: PostOutcome)
      requires Valid(scans)
      modifies this
      ensures Valid(scans)
      ensures scans == FinishRun(BeginRun(old(scans), scanId), scanId, outcome)
    {
      StartRun(scanId);
      EndRun(scanId, outcome);
    }
  }
}
