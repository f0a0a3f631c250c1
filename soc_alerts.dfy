/** The alert routes of the SOC service: a filtered, newest-first, limited
    listing; creation behind a check of the referenced case; acknowledging one
    alert or many; deletion; and the statistics over the whole table. The
    functions say what each route returns and what the tables become; the
    methods perform the same steps on the `Database`. */
module SocAlerts {
  import opened Wrappers
  import opened Text
  import opened Counting
  import opened Query
  import opened SocSchemas
  import opened SocDatabase

  const DefaultListLimit := 50
  const DefaultAcknowledger := "system"

  /** The `AlertResponse` of a stored alert. */
  function View(a: Alert): AlertResponse {
    AlertResponse(a.id, a.caseId, a.source, a.alertType, a.message, a.severity,
                  a.acknowledged, a.acknowledgedBy, a.createdAt)
  }

  function CreatedAt(a: Alert): int { a.createdAt }
  function SeverityOf(a: Alert): string { a.severity }
  function SourceOf(a: Alert): string { a.source }

  // ---------------------------------------------------------------------------
  // list_alerts

  /** The filters `list_alerts` adds: severity and source when given and
      non-empty, the acknowledged flag when given. */
  predicate Matches(a: Alert, severity: Option<string>, source: Option<string>, acknowledged: Option<bool>) {
    && (Truthy(severity) ==> a.severity == severity.value)
    && (Truthy(source) ==> a.source == source.value)
    && (acknowledged.Some? ==> a.acknowledged == acknowledged.value)
  }

  function Filter(severity: Option<string>, source: Option<string>, acknowledged: Option<bool>): Alert -> bool {
    (a: Alert) => Matches(a, severity, source, acknowledged)
  }

  /** The rows the query yields: matching alerts, newest first, at most `limit`. */
  function Select(alerts: seq<Alert>, severity: Option<string>, source: Option<string>,
                  acknowledged: Option<bool>, limit: int): seq<Alert> {
    Limit(SortDesc(Where(alerts, Filter(severity, source, acknowledged)), CreatedAt), limit)
  }

  function ListAlerts(alerts: seq<Alert>, severity: Option<string>, source: Option<string>,
                      acknowledged: Option<bool>, limit: int): seq<AlertResponse> {
    var rows := Select(alerts, severity, source, acknowledged, limit);
    seq(|rows|, i requires 0 <= i < |rows| => View(rows[i]))
  }

  /** Every listed alert is stored and matches every filter given; the list is
      newest first and no longer than a non-negative limit. */
  lemma ListAlertsSound(alerts: seq<Alert>, severity: Option<string>, source: Option<string>,
                        acknowledged: Option<bool>, limit: int)
    ensures var rows := Select(alerts, severity, source, acknowledged, limit);
      var r := ListAlerts(alerts, severity, source, acknowledged, limit);
      && |r| == |rows|
      && (forall i :: 0 <= i < |r| ==>
            && r[i] == View(rows[i]) && rows[i] in alerts
            && Matches(rows[i], severity, source, acknowledged))
      && SortedDesc(rows, CreatedAt)
      && (limit >= 0 ==> |r| <= limit)
  {
    var matched := Where(alerts, Filter(severity, source, acknowledged));
    var sorted := SortDesc(matched, CreatedAt);
    var rows := Select(alerts, severity, source, acknowledged, limit);
    forall i | 0 <= i < |rows|
      ensures rows[i] in alerts && Matches(rows[i], severity, source, acknowledged)
    {
      assert rows[i] == sorted[i];
      assert rows[i] in multiset(sorted);
      var k :| 0 <= k < |matched| && matched[k] == rows[i];
    }
  }

  /** When the limit does not cut the list, every matching alert is listed. */
  lemma ListAlertsComplete(alerts: seq<Alert>, severity: Option<string>, source: Option<string>,
                           acknowledged: Option<bool>, limit: int)
    requires limit < 0 || |Where(alerts, Filter(severity, source, acknowledged))| <= limit
    ensures forall i :: 0 <= i < |alerts| && Matches(alerts[i], severity, source, acknowledged) ==>
              View(alerts[i]) in ListAlerts(alerts, severity, source, acknowledged, limit)
  {
    var matched := Where(alerts, Filter(severity, source, acknowledged));
    var rows := Select(alerts, severity, source, acknowledged, limit);
    var r := ListAlerts(alerts, severity, source, acknowledged, limit);
    assert rows == SortDesc(matched, CreatedAt);
    forall i | 0 <= i < |alerts| && Matches(alerts[i], severity, source, acknowledged)
      ensures View(alerts[i]) in r
    {
      assert alerts[i] in matched;
      assert alerts[i] in multiset(rows);
      var k :| 0 <= k < |rows| && rows[k] == alerts[i];
      assert r[k] == View(alerts[i]);
    }
  }

  /** When the limit cuts the list, what is left out is no newer than
      anything listed. */
  lemma ListAlertsNewest(alerts: seq<Alert>, severity: Option<string>, source: Option<string>,
                         acknowledged: Option<bool>, limit: int)
    ensures var rows := Select(alerts, severity, source, acknowledged, limit);
      forall i, j ::
        (0 <= i < |rows| && 0 <= j < |alerts| &&
         Matches(alerts[j], severity, source, acknowledged) && alerts[j] !in rows) ==>
        rows[i].createdAt >= alerts[j].createdAt
  {
    var matched := Where(alerts, Filter(severity, source, acknowledged));
    var sorted := SortDesc(matched, CreatedAt);
    var rows := Select(alerts, severity, source, acknowledged, limit);
    forall i, j | 0 <= i < |rows| && 0 <= j < |alerts| &&
        Matches(alerts[j], severity, source, acknowledged) && alerts[j] !in rows
      ensures rows[i].createdAt >= alerts[j].createdAt
    {
      assert alerts[j] in matched;
      assert alerts[j] in multiset(sorted);
      var k :| 0 <= k < |sorted| && sorted[k] == alerts[j];
      assert rows[i] == sorted[i];
      assert CreatedAt(sorted[i]) >= CreatedAt(sorted[k]);
    }
  }

  // ---------------------------------------------------------------------------
  // create_alert, acknowledge_alert, delete_alert

  /** `create_alert`: 404 when a non-empty `case_id` names no case; otherwise
      the alert is appended with the severity's value, unacknowledged. */
  function Create(t: Tables, body: AlertCreate, id: string, now: int): (r: (Reply<AlertResponse>, Tables))
    ensures r.0.Err? <==> Truthy(body.caseId) && body.caseId.value !in CaseIds(t.cases)
    ensures r.0.Err? ==> r == (Err(404, "Case not found"), t)
    ensures r.0.Ok? ==>
      && r.1.clients == t.clients && r.1.cases == t.cases
      && |r.1.alerts| == |t.alerts| + 1 && r.1.alerts[..|t.alerts|] == t.alerts
      && var a := r.1.alerts[|t.alerts|];
      && a.id == id && a.caseId == body.caseId && a.source == body.source
      && a.alertType == body.alertType && a.message == body.message
      && ParseSeverity(a.severity) == Some(body.severity)
      && !a.acknowledged && a.acknowledgedBy.None? && a.acknowledgedAt.None? && a.createdAt == now
      && r.0.value == View(a)
  {
    if Truthy(body.caseId) && Find(CaseIds(t.cases), body.caseId.value).None? then
      (Err(404, "Case not found"), t)
    else
      var a := NewAlert(id, body.caseId, body.source, body.alertType, body.message,
                        Some(SeverityValue(body.severity)), now);
      (Ok(View(a)), t.(alerts := t.alerts + [a]))
  }

  /** The alert as `acknowledge_alert` leaves it. */
  function Ack(a: Alert, who: string, now: int): Alert {
    a.(acknowledged := true, acknowledgedBy := Some(who), acknowledgedAt := Some(now))
  }

  /** `acknowledge_alert`: 404 for an unknown id; otherwise the alert is
      acknowledged by `who` at `now`, whether or not it was before. */
  function Acknowledge(t: Tables, alertId: string, who: string, now: int): (r: (Reply<Message>, Tables))
    ensures r.0.Err? <==> alertId !in AlertIds(t.alerts)
    ensures r.0.Err? ==> r == (Err(404, "Alert not found"), t)
    ensures r.0.Ok? ==> r.0.value == Message("Alert acknowledged", alertId)
                        && r.1.clients == t.clients && r.1.cases == t.cases
  {
    match Find(AlertIds(t.alerts), alertId)
    case None => (Err(404, "Alert not found"), t)
    case Some(i) => (Ok(Message("Alert acknowledged", alertId)), t.(alerts := t.alerts[i := Ack(t.alerts[i], who, now)]))
  }

  /** `delete_alert`: 404 for an unknown id; otherwise that row is removed. */
  function Delete(t: Tables, alertId: string): (r: (Reply<Message>, Tables))
    ensures r.0.Err? <==> alertId !in AlertIds(t.alerts)
    ensures r.0.Err? ==> r == (Err(404, "Alert not found"), t)
    ensures r.0.Ok? ==> r.0.value == Message("Alert deleted", alertId)
                        && r.1.clients == t.clients && r.1.cases == t.cases
                        && |r.1.alerts| == |t.alerts| - 1
  {
    match Find(AlertIds(t.alerts), alertId)
    case None => (Err(404, "Alert not found"), t)
    case Some(i) => (Ok(Message("Alert deleted", alertId)), t.(alerts := t.alerts[..i] + t.alerts[i + 1..]))
  }

  /** A created alert with a fresh id keeps the tables valid. */
  lemma CreateKeepsValid(t: Tables, body: AlertCreate, id: string, now: int)
    requires Valid(t) && Fresh(AlertIds(t.alerts), id)
    ensures Valid(Create(t, body, id, now).1)
  {
    var t' := Create(t, body, id, now).1;
    if t' != t {
      assert AlertIds(t'.alerts) == AlertIds(t.alerts) + [id];
      AppendKey(AlertIds(t.alerts), id);
    }
  }

  /** A body with only the required fields yields an "info" alert that nobody
      has acknowledged. */
  lemma CreateDefaults(t: Tables, source: string, alertType: string, message: string, id: string, now: int)
    ensures var (reply, _) := Create(t, MinimalAlertCreate(source, alertType, message), id, now);
      && reply.Ok?
      && reply.value == AlertResponse(id, None, source, alertType, message, "info", false, None, now)
  {
  }

  /** Acknowledging changes exactly the one alert with that id, and overwrites
      an earlier acknowledger and time. */
  lemma AcknowledgeEffect(t: Tables, i: int, who: string, now: int)
    requires Distinct(AlertIds(t.alerts)) && 0 <= i < |t.alerts|
    ensures var t' := Acknowledge(t, t.alerts[i].id, who, now).1;
      && t'.alerts == t.alerts[i := Ack(t.alerts[i], who, now)]
      && t'.alerts[i].acknowledged && t'.alerts[i].acknowledgedBy == Some(who)
      && t'.alerts[i].acknowledgedAt == Some(now)
  {
    FindUnique(AlertIds(t.alerts), i);
  }

  lemma AcknowledgeKeepsValid(t: Tables, alertId: string, who: string, now: int)
    requires Valid(t)
    ensures Valid(Acknowledge(t, alertId, who, now).1)
  {
    var f := Find(AlertIds(t.alerts), alertId);
    if f.Some? {
      ReplaceAlertKeepsIds(t.alerts, f.value, Ack(t.alerts[f.value], who, now));
    }
  }

  /** Removing the alert at `i` keeps the tables valid and leaves no alert
      with its id. */
  lemma RemoveAlertKeepsValid(t: Tables, i: int)
    requires Valid(t) && 0 <= i < |t.alerts|
    ensures var t' := t.(alerts := t.alerts[..i] + t.alerts[i + 1..]);
      Valid(t') && t.alerts[i].id !in AlertIds(t'.alerts)
  {
    var ids := AlertIds(t.alerts);
    var rest := t.alerts[..i] + t.alerts[i + 1..];
    RemoveRow(t.alerts, i);
    assert AlertIds(rest) == ids[..i] + ids[i + 1..];
    RemoveKey(ids, i);
  }

  /** Deletion removes exactly the alert with that id and keeps every other
      alert, in order. */
  lemma DeleteRemovesExactly(t: Tables, alertId: string)
    requires Valid(t) && alertId in AlertIds(t.alerts)
    ensures var t' := Delete(t, alertId).1;
      && Valid(t')
      && alertId !in AlertIds(t'.alerts)
      && (forall a :: a in t.alerts && a.id != alertId ==> a in t'.alerts)
      && (forall a :: a in t'.alerts ==> a in t.alerts)
  {
    var i := Find(AlertIds(t.alerts), alertId).value;
    var t' := Delete(t, alertId).1;
    assert t'.alerts == t.alerts[..i] + t.alerts[i + 1..];
    RemoveAlertKeepsValid(t, i);
    RemoveRow(t.alerts, i);
    forall a | a in t.alerts && a.id != alertId ensures a in t'.alerts {
      var k :| 0 <= k < |t.alerts| && t.alerts[k] == a;
    }
  }

  // ---------------------------------------------------------------------------
  // get_alert_stats

  function Unacknowledged(): Alert -> bool {
    (a: Alert) => !a.acknowledged
  }

  /** The counts `get_alert_stats` reports for a list of alerts. */
  function Stats(alerts: seq<Alert>): AlertStats {
    AlertStats(|alerts|, |Where(alerts, Unacknowledged())|,
               Tally(Column(alerts, SeverityOf)), Tally(Column(alerts, SourceOf)))
  }

  /** Each breakdown adds up to the total, every bucket counts its own value,
      and nothing is unacknowledged exactly when every alert is acknowledged. */
  lemma StatsAddUp(alerts: seq<Alert>, k: string)
    ensures var s := Stats(alerts);
      && s.total == |alerts|
      && Total(s.bySeverity) == s.total && Total(s.bySource) == s.total
      && s.unacknowledged <= s.total
      && (s.unacknowledged == 0 <==> forall i :: 0 <= i < |alerts| ==> alerts[i].acknowledged)
      && (k in s.bySeverity ==> s.bySeverity[k] == Count(Column(alerts, SeverityOf), k))
      && (k in s.bySource ==> s.bySource[k] == Count(Column(alerts, SourceOf), k))
  {
    TotalOfTally(Column(alerts, SeverityOf));
    TotalOfTally(Column(alerts, SourceOf));
    TallyCounts(Column(alerts, SeverityOf), k);
    TallyCounts(Column(alerts, SourceOf), k);
    var open := Where(alerts, Unacknowledged());
    if |open| > 0 {
      assert open[0] in alerts && !open[0].acknowledged;
    }
  }

  lemma UnacknowledgedPrefix(alerts: seq<Alert>, i: int)
    requires 0 <= i < |alerts|
    ensures |Where(alerts[..i + 1], Unacknowledged())| ==
            |Where(alerts[..i], Unacknowledged())| + (if alerts[i].acknowledged then 0 else 1)
  {
    assert alerts[..i + 1][..i] == alerts[..i];
  }

  /** `get_alert_stats`: one pass over the table. */
  method GetAlertStats(db: Database) returns (r: AlertStats)
    ensures r == Stats(db.alerts)
  {
    var alerts := db.alerts;
    var bySeverity: map<string, nat> := map[];
    var bySource: map<string, nat> := map[];
    var unacknowledged := 0;
    var i := 0;
    while i < |alerts|
      invariant 0 <= i <= |alerts|
      invariant bySeverity == Tally(Column(alerts[..i], SeverityOf))
      invariant bySource == Tally(Column(alerts[..i], SourceOf))
      invariant unacknowledged == |Where(alerts[..i], Unacknowledged())|
    {
      ColumnPrefix(alerts, SeverityOf, i);
      ColumnPrefix(alerts, SourceOf, i);
      TallySnoc(Column(alerts[..i], SeverityOf), alerts[i].severity);
      TallySnoc(Column(alerts[..i], SourceOf), alerts[i].source);
      UnacknowledgedPrefix(alerts, i);
      bySeverity := Bump(bySeverity, alerts[i].severity);
      bySource := Bump(bySource, alerts[i].source);
      if !alerts[i].acknowledged {
        unacknowledged := unacknowledged + 1;
      }
      i := i + 1;
    }
    assert alerts[..i] == alerts;
    r := AlertStats(|alerts|, unacknowledged, bySeverity, bySource);
  }

  // ---------------------------------------------------------------------------
  // bulk_acknowledge

  /** One iteration of `bulk_acknowledge`: an existing, unacknowledged alert
      is acknowledged and counted; anything else is skipped. */
  function AckOne(alerts: seq<Alert>, id: string, who: string, now: int): (seq<Alert>, nat) {
    match Find(AlertIds(alerts), id)
    case None => (alerts, 0)
    case Some(i) =>
      if alerts[i].acknowledged then (alerts, 0)
      else (alerts[i := Ack(alerts[i], who, now)], 1)
  }

  /** The whole loop of `bulk_acknowledge` over `ids`, in order: the table
      afterwards and the count. */
  function BulkAck(alerts: seq<Alert>, ids: seq<string>, who: string, now: int): (seq<Alert>, nat)
    decreases |ids|
  {
    if |ids| == 0 then (alerts, 0)
    else
      var prev := BulkAck(alerts, ids[..|ids| - 1], who, now);
      var step := AckOne(prev.0, ids[|ids| - 1], who, now);
      (step.0, prev.1 + step.1)
  }

  /** The loop over the first `i + 1` ids is the loop over the first `i`
      followed by one more iteration. */
  lemma BulkAckSnoc(alerts: seq<Alert>, ids: seq<string>, i: int, who: string, now: int)
    requires 0 <= i < |ids|
    ensures var prev := BulkAck(alerts, ids[..i], who, now);
      var step := AckOne(prev.0, ids[i], who, now);
      BulkAck(alerts, ids[..i + 1], who, now) == (step.0, prev.1 + step.1)
  {
    assert ids[..i + 1][..i] == ids[..i];
  }

  /** Whether one iteration finds an alert to acknowledge for `id`. */
  ghost predicate Pending(alerts: seq<Alert>, id: string) {
    exists j :: 0 <= j < |alerts| && alerts[j].id == id && !alerts[j].acknowledged
  }

  /** Under unique ids, one iteration acknowledges the unacknowledged alert
      with that id, if there is one, counts it, and leaves every other alert
      as it was. */
  lemma AckOneEffect(alerts: seq<Alert>, id: string, who: string, now: int)
    requires Distinct(AlertIds(alerts))
    ensures var (next, hit) := AckOne(alerts, id, who, now);
      && |next| == |alerts|
      && (forall j :: 0 <= j < |alerts| ==>
            next[j] == if alerts[j].id == id && !alerts[j].acknowledged then Ack(alerts[j], who, now) else alerts[j])
      && (hit == 1 <==> Pending(alerts, id))
      && (hit == 0 <==> !Pending(alerts, id))
  {
    var ids := AlertIds(alerts);
    var f := Find(ids, id);
    if f.None? {
      forall j | 0 <= j < |alerts| ensures alerts[j].id != id {
        assert ids[j] == alerts[j].id;
      }
    } else {
      var i := f.value;
      forall j | 0 <= j < |alerts| && alerts[j].id == id ensures j == i {
        assert ids[j] == ids[i];
      }
    }
  }

  /** What the loop does, stated without the loop: an alert ends acknowledged
      by `who` exactly when it was unacknowledged and its id was listed; every
      other alert, an already acknowledged one included, is left as it was. */
  function BulkTarget(a: Alert, ids: seq<string>, who: string, now: int): Alert {
    if !a.acknowledged && a.id in ids then Ack(a, who, now) else a
  }

  lemma {:induction false} BulkAckEffect(alerts: seq<Alert>, ids: seq<string>, who: string, now: int)
    requires Distinct(AlertIds(alerts))
    ensures var r := BulkAck(alerts, ids, who, now).0;
      && |r| == |alerts|
      && forall j :: 0 <= j < |alerts| ==> r[j] == BulkTarget(alerts[j], ids, who, now)
    decreases |ids|
  {
    if |ids| > 0 {
      var init, x := ids[..|ids| - 1], ids[|ids| - 1];
      assert ids == init + [x] && ids[..|ids|] == ids;
      BulkAckEffect(alerts, init, who, now);
      BulkAckSnoc(alerts, ids, |ids| - 1, who, now);
      var done := BulkAck(alerts, init, who, now).0;
      SameIds(alerts, done, init, who, now);
      AckOneEffect(done, x, who, now);
    }
  }

  /** Acknowledging never changes an id, so the ids stay unique. */
  lemma SameIds(alerts: seq<Alert>, done: seq<Alert>, ids: seq<string>, who: string, now: int)
    requires Distinct(AlertIds(alerts)) && |done| == |alerts|
    requires forall j :: 0 <= j < |alerts| ==> done[j] == BulkTarget(alerts[j], ids, who, now)
    ensures AlertIds(done) == AlertIds(alerts)
  {
  }

  /** The positions of the alerts a call newly acknowledges. */
  ghost function Newly(alerts: seq<Alert>, ids: seq<string>): set<int> {
    set j | 0 <= j < |alerts| && !alerts[j].acknowledged && alerts[j].id in ids
  }

  /** The positions one more id adds to `Newly`: at most the one unacknowledged
      alert with that id, and only when the id was not listed before. */
  ghost function NewlyBy(alerts: seq<Alert>, init: seq<string>, x: string): set<int> {
    set j | 0 <= j < |alerts| && !alerts[j].acknowledged && alerts[j].id == x && x !in init
  }

  lemma NewlyExtend(alerts: seq<Alert>, init: seq<string>, x: string)
    ensures Newly(alerts, init + [x]) == Newly(alerts, init) + NewlyBy(alerts, init, x)
    ensures Newly(alerts, init) !! NewlyBy(alerts, init, x)
  {
  }

  /** The count of the last iteration is the size of what it newly adds. */
  lemma LastHit(alerts: seq<Alert>, done: seq<Alert>, init: seq<string>, x: string, who: string, now: int)
    requires Distinct(AlertIds(alerts)) && |done| == |alerts|
    requires forall j :: 0 <= j < |alerts| ==> done[j] == BulkTarget(alerts[j], init, who, now)
    ensures AckOne(done, x, who, now).1 == |NewlyBy(alerts, init, x)|
  {
    SameIds(alerts, done, init, who, now);
    AckOneEffect(done, x, who, now);
    var extra := NewlyBy(alerts, init, x);
    if Pending(done, x) {
      var i :| 0 <= i < |done| && done[i].id == x && !done[i].acknowledged;
      forall j | j in extra ensures j == i {
        assert AlertIds(alerts)[j] == AlertIds(alerts)[i];
      }
      assert extra == {i};
    } else {
      forall j | 0 <= j < |alerts| ensures j !in extra {
        assert done[j].id == alerts[j].id;
      }
      assert extra == {};
    }
  }

  /** The reported count is the number of alerts newly acknowledged: an id
      listed twice, an unknown id and an already acknowledged alert add nothing. */
  lemma {:induction false} BulkAckCount(alerts: seq<Alert>, ids: seq<string>, who: string, now: int)
    requires Distinct(AlertIds(alerts))
    ensures BulkAck(alerts, ids, who, now).1 == |Newly(alerts, ids)|
    decreases |ids|
  {
    if |ids| == 0 {
      assert Newly(alerts, ids) == {};
    } else {
      var init, x := ids[..|ids| - 1], ids[|ids| - 1];
      assert ids == init + [x];
      BulkAckCount(alerts, init, who, now);
      BulkAckEffect(alerts, init, who, now);
      BulkAckSnoc(alerts, ids, |ids| - 1, who, now);
      NewlyExtend(alerts, init, x);
      LastHit(alerts, BulkAck(alerts, init, who, now).0, init, x, who, now);
    }
  }

  /** Repeating the same call, by anyone at any time, acknowledges nothing
      and changes nothing. */
  lemma BulkAckIdempotent(alerts: seq<Alert>, ids: seq<string>, who: string, now: int, who2: string, now2: int)
    requires Distinct(AlertIds(alerts))
    ensures var once := BulkAck(alerts, ids, who, now).0;
      BulkAck(once, ids, who2, now2) == (once, 0)
  {
    var once := BulkAck(alerts, ids, who, now).0;
    BulkAckEffect(alerts, ids, who, now);
    SameIds(alerts, once, ids, who, now);
    BulkAckEffect(once, ids, who2, now2);
    BulkAckCount(once, ids, who2, now2);
    var twice := BulkAck(once, ids, who2, now2).0;
    forall j | 0 <= j < |once| ensures twice[j] == once[j] && j !in Newly(once, ids) {
      assert once[j].id == alerts[j].id;
    }
    assert twice == once;
    assert Newly(once, ids) == {};
  }

  // ---------------------------------------------------------------------------
  // The routes on the database

  method CreateAlert(db: Database, body: AlertCreate, id: string, now: int) returns (r: Reply<AlertResponse>)
    modifies db
    ensures (r, db.Snapshot()) == Create(old(db.Snapshot()), body, id, now)
  {
    if Truthy(body.caseId) && Find(CaseIds(db.cases), body.caseId.value).None? {
      return Err(404, "Case not found");
    }
    var a := NewAlert(id, body.caseId, body.source, body.alertType, body.message,
                      Some(SeverityValue(body.severity)), now);
    db.alerts := db.alerts + [a];
    r := Ok(View(a));
  }

  method AcknowledgeAlert(db: Database, alertId: string, who: string, now: int) returns (r: Reply<Message>)
    modifies db
    ensures (r, db.Snapshot()) == Acknowledge(old(db.Snapshot()), alertId, who, now)
  {
    var found := Find(AlertIds(db.alerts), alertId);
    if found.None? {
      return Err(404, "Alert not found");
    }
    var i := found.value;
    db.alerts := db.alerts[i := db.alerts[i].(acknowledged := true)];
    db.alerts := db.alerts[i := db.alerts[i].(acknowledgedBy := Some(who))];
    db.alerts := db.alerts[i := db.alerts[i].(acknowledgedAt := Some(now))];
    assert db.alerts == old(db.alerts)[i := Ack(old(db.alerts)[i], who, now)];
    r := Ok(Message("Alert acknowledged", alertId));
  }

  method DeleteAlert(db: Database, alertId: string) returns (r: Reply<Message>)
    modifies db
    ensures (r, db.Snapshot()) == Delete(old(db.Snapshot()), alertId)
  {
    var found := Find(AlertIds(db.alerts), alertId);
    if found.None? {
      return Err(404, "Alert not found");
    }
    var i := found.value;
    db.alerts := db.alerts[..i] + db.alerts[i + 1..];
    r := Ok(Message("Alert deleted", alertId));
  }

  function BulkMessage(count: nat): string {
    "Acknowledged " + NatToString(count) + " alerts"
  }

  /** The body of the `bulk_acknowledge` loop for one id. */
  method AckIfPending(alerts: seq<Alert>, id: string, who: string, now: int) returns (next: seq<Alert>, hit: nat)
    ensures (next, hit) == AckOne(alerts, id, who, now)
  {
    next, hit := alerts, 0;
    var found := Find(AlertIds(alerts), id);
    if found.Some? && !alerts[found.value].acknowledged {
      var j := found.value;
      next := alerts[j := Ack(alerts[j], who, now)];
      hit := 1;
    }
  }

  /** `bulk_acknowledge`: the loop over `ids`, counting the alerts it
      acknowledges; the session writes the changed rows back once, at the end. */
  method BulkAcknowledge(db: Database, ids: seq<string>, who: string, now: int) returns (message: string)
    modifies db
    ensures db.alerts == BulkAck(old(db.alerts), ids, who, now).0
    ensures db.clients == old(db.clients) && db.cases == old(db.cases)
    ensures message == BulkMessage(BulkAck(old(db.alerts), ids, who, now).1)
  {
    var alerts := db.alerts;
    var count := 0;
    var i := 0;
    while i < |ids|
      invariant 0 <= i <= |ids|
      invariant (alerts, count) == BulkAck(old(db.alerts), ids[..i], who, now)
      modifies {}
    {
      BulkAckSnoc(old(db.alerts), ids, i, who, now);
      var hit;
      alerts, hit := AckIfPending(alerts, ids[i], who, now);
      count := count + hit;
      i := i + 1;
    }
    assert ids[..i] == ids;
    db.alerts := alerts;
    message := BulkMessage(count);
  }
}
