/** The case routes of the SOC service: a filtered, newest-first listing with
    each case's alert count; creation behind a check of the referenced
    client; reading, partially updating and closing one case; the alerts of a
    case; and the statistics over the whole table. */
module SocCases {
  import opened Wrappers
  import opened Counting
  import opened Query
  import opened SocSchemas
  import opened SocDatabase

  function CreatedAt(c: Case): int { c.createdAt }
  function StatusOf(c: Case): string { c.status }
  function PriorityOf(c: Case): string { c.priority }

  /** The `CaseResponse` of a stored case: its columns and `len(case.alerts)`. */
  function View(c: Case, alerts: seq<Alert>): CaseResponse {
    CaseResponse(c.id, c.clientId, c.title, c.description, c.status, c.priority,
                 c.assignedTo, c.createdAt, c.closedAt, |AlertsOf(alerts, c.id)|)
  }

  // ---------------------------------------------------------------------------
  // list_cases

  /** The filters `list_cases` adds, each only when given and non-empty. */
  predicate Matches(c: Case, status: Option<string>, priority: Option<string>, clientId: Option<string>) {
    && (Truthy(status) ==> c.status == status.value)
    && (Truthy(priority) ==> c.priority == priority.value)
    && (Truthy(clientId) ==> c.clientId == Some(clientId.value))
  }

  function Filter(status: Option<string>, priority: Option<string>, clientId: Option<string>): Case -> bool {
    (c: Case) => Matches(c, status, priority, clientId)
  }

  function Select(cases: seq<Case>, status: Option<string>, priority: Option<string>,
                  clientId: Option<string>): seq<Case> {
    SortDesc(Where(cases, Filter(status, priority, clientId)), CreatedAt)
  }

  function ListCases(t: Tables, status: Option<string>, priority: Option<string>,
                     clientId: Option<string>): seq<CaseResponse> {
    var rows := Select(t.cases, status, priority, clientId);
    seq(|rows|, i requires 0 <= i < |rows| => View(rows[i], t.alerts))
  }

  /** Every listed case is stored, matches every filter given and carries the
      number of alerts that refer to it; the list is newest first. */
  lemma ListCasesSound(t: Tables, status: Option<string>, priority: Option<string>, clientId: Option<string>)
    ensures var rows := Select(t.cases, status, priority, clientId);
      var r := ListCases(t, status, priority, clientId);
      && |r| == |rows|
      && (forall i :: 0 <= i < |r| ==>
            && r[i] == View(rows[i], t.alerts) && rows[i] in t.cases
            && Matches(rows[i], status, priority, clientId)
            && r[i].alertCount == |AlertsOf(t.alerts, rows[i].id)|)
      && SortedDesc(rows, CreatedAt)
  {
    var matched := Where(t.cases, Filter(status, priority, clientId));
    var rows := Select(t.cases, status, priority, clientId);
    forall i | 0 <= i < |rows|
      ensures rows[i] in t.cases && Matches(rows[i], status, priority, clientId)
    {
      assert rows[i] in multiset(matched);
      var k :| 0 <= k < |matched| && matched[k] == rows[i];
    }
  }

  /** There is no limit: every matching case is listed. */
  lemma ListCasesComplete(t: Tables, status: Option<string>, priority: Option<string>, clientId: Option<string>)
    ensures forall i :: 0 <= i < |t.cases| && Matches(t.cases[i], status, priority, clientId) ==>
              View(t.cases[i], t.alerts) in ListCases(t, status, priority, clientId)
  {
    var matched := Where(t.cases, Filter(status, priority, clientId));
    var rows := Select(t.cases, status, priority, clientId);
    var r := ListCases(t, status, priority, clientId);
    forall i | 0 <= i < |t.cases| && Matches(t.cases[i], status, priority, clientId)
      ensures View(t.cases[i], t.alerts) in r
    {
      assert t.cases[i] in matched;
      assert t.cases[i] in multiset(rows);
      var k :| 0 <= k < |rows| && rows[k] == t.cases[i];
      assert r[k] == View(t.cases[i], t.alerts);
    }
  }

  // ---------------------------------------------------------------------------
  // create_case, get_case

  /** `create_case`: 404 when a non-empty `client_id` names no client;
      otherwise the case is appended, open, with the priority's value, and
      reported with an alert count of 0. */
  function Create(t: Tables, body: CaseCreate, id: string, now: int): (r: (Reply<CaseResponse>, Tables))
    ensures r.0.Err? <==> Truthy(body.clientId) && body.clientId.value !in ClientIds(t.clients)
    ensures r.0.Err? ==> r == (Err(404, "Client not found"), t)
    ensures r.0.Ok? ==>
      && r.1.clients == t.clients && r.1.alerts == t.alerts
      && |r.1.cases| == |t.cases| + 1 && r.1.cases[..|t.cases|] == t.cases
      && var c := r.1.cases[|t.cases|];
      && c.id == id && c.clientId == body.clientId && c.title == body.title
      && c.description == body.description && c.assignedTo == body.assignedTo
      && ParseCaseStatus(c.status) == Some(Open) && ParsePriority(c.priority) == Some(body.priority)
      && c.createdAt == now && c.updatedAt == now && c.closedAt.None?
      && r.0.value == View(c, t.alerts).(alertCount := 0)
  {
    if Truthy(body.clientId) && Find(ClientIds(t.clients), body.clientId.value).None? then
      (Err(404, "Client not found"), t)
    else
      var c := NewCase(id, body.clientId, body.title, body.description, None,
                       Some(PriorityValue(body.priority)), body.assignedTo, now);
      (Ok(View(c, t.alerts).(alertCount := 0)), t.(cases := t.cases + [c]))
  }

  /** `get_case`: 404 for an unknown id; otherwise the case with the number of
      alerts that refer to it. */
  function Get(t: Tables, id: string): (r: Reply<CaseResponse>)
    ensures r.Ok? <==> id in CaseIds(t.cases)
    ensures r.Err? ==> r == Err(404, "Case not found")
    ensures r.Ok? ==> r.value.id == id && r.value.alertCount == |AlertsOf(t.alerts, id)|
    ensures r.Ok? ==> exists i :: 0 <= i < |t.cases| && t.cases[i].id == id && r.value == View(t.cases[i], t.alerts)
  {
    match Find(CaseIds(t.cases), id)
    case None => Err(404, "Case not found")
    case Some(i) => Ok(View(t.cases[i], t.alerts))
  }

  lemma CreateKeepsValid(t: Tables, body: CaseCreate, id: string, now: int)
    requires Valid(t) && Fresh(CaseIds(t.cases), id)
    ensures Valid(Create(t, body, id, now).1)
  {
    var t' := Create(t, body, id, now).1;
    if t' != t {
      assert CaseIds(t'.cases) == CaseIds(t.cases) + [id];
      AppendKey(CaseIds(t.cases), id);
      forall i | 0 <= i < |t'.alerts| && Truthy(t'.alerts[i].caseId)
        ensures t'.alerts[i].caseId.value in CaseIds(t'.cases)
      {
        assert t'.alerts[i].caseId.value in CaseIds(t.cases);
      }
    }
  }

  /** The alert count 0 that `create_case` reports is the truth: reading the
      new case back gives the very same response. */
  lemma CreateAgreesWithGet(t: Tables, body: CaseCreate, id: string, now: int)
    requires Valid(t) && Fresh(CaseIds(t.cases), id)
    ensures var (reply, t') := Create(t, body, id, now);
      reply.Ok? ==> Get(t', id) == reply
  {
    var (reply, t') := Create(t, body, id, now);
    if reply.Ok? {
      FreshCaseHasNoAlerts(t, id);
      AppendKey(CaseIds(t.cases), id);
      assert CaseIds(t'.cases) == CaseIds(t.cases) + [id];
      FindUnique(CaseIds(t'.cases), |t.cases|);
    }
  }

  /** A body with only a title creates an open, medium-priority case with no
      client and no closing time. */
  lemma CreateDefaults(t: Tables, title: string, id: string, now: int)
    ensures var (reply, _) := Create(t, MinimalCaseCreate(title), id, now);
      && reply.Ok?
      && reply.value == CaseResponse(id, None, title, None, "open", "medium", None, now, None, 0)
  {
  }

  // ---------------------------------------------------------------------------
  // update_case, close_case

  /** The `setattr` loop of `update_case`: every field sent with a value is
      set, an enumeration member as its value; `updated_at` is refreshed. */
  function Apply(c: Case, u: CaseUpdate, now: int): Case {
    c.(title := u.title.GetOr(c.title),
       description := if u.description.Some? then u.description else c.description,
       status := if u.status.Some? then CaseStatusValue(u.status.value) else c.status,
       priority := if u.priority.Some? then PriorityValue(u.priority.value) else c.priority,
       assignedTo := if u.assignedTo.Some? then u.assignedTo else c.assignedTo,
       updatedAt := now)
  }

  /** `update_case`: 404 for an unknown id; otherwise the case is updated in place. */
  function Update(t: Tables, id: string, u: CaseUpdate, now: int): (r: (Reply<CaseResponse>, Tables))
    ensures r.0.Err? <==> id !in CaseIds(t.cases)
    ensures r.0.Err? ==> r == (Err(404, "Case not found"), t)
    ensures r.1.clients == t.clients && r.1.alerts == t.alerts && |r.1.cases| == |t.cases|
    ensures r.0.Ok? ==>
      exists i :: && 0 <= i < |t.cases| && t.cases[i].id == id
                  && r.1.cases == t.cases[i := Apply(t.cases[i], u, now)]
                  && r.0.value == View(Apply(t.cases[i], u, now), t.alerts)
  {
    match Find(CaseIds(t.cases), id)
    case None => (Err(404, "Case not found"), t)
    case Some(i) =>
      var c := Apply(t.cases[i], u, now);
      (Ok(View(c, t.alerts)), t.(cases := t.cases[i := c]))
  }

  /** Under unique ids, `update_case` on the case at `i` stores `Apply` of it
      there, keeps every other case, answers with the new case, and reads
      back as that answer. */
  lemma UpdateEffect(t: Tables, i: int, u: CaseUpdate, now: int)
    requires Distinct(CaseIds(t.cases)) && 0 <= i < |t.cases|
    ensures var (reply, t') := Update(t, t.cases[i].id, u, now);
      && t'.cases == t.cases[i := Apply(t.cases[i], u, now)]
      && (forall j :: 0 <= j < |t.cases| && j != i ==> t'.cases[j] == t.cases[j])
      && reply == Ok(View(Apply(t.cases[i], u, now), t.alerts))
      && Get(t', t.cases[i].id) == reply
  {
    FindUnique(CaseIds(t.cases), i);
    var t' := Update(t, t.cases[i].id, u, now).1;
    ReplaceCaseKeepsIds(t.cases, i, Apply(t.cases[i], u, now));
    assert CaseIds(t'.cases) == CaseIds(t.cases);
  }

  /** An update changes the fields that were sent and nothing else but the
      update time; it never moves the case to another client, never closes
      it, and never clears a field. */
  lemma ApplyChangesOnlySentFields(c: Case, u: CaseUpdate, now: int)
    ensures var c' := Apply(c, u, now);
      && c'.id == c.id && c'.clientId == c.clientId && c'.createdAt == c.createdAt
      && c'.closedAt == c.closedAt && c'.updatedAt == now
      && (u.title.None? ==> c'.title == c.title) && (u.title.Some? ==> c'.title == u.title.value)
      && (u.status.None? ==> c'.status == c.status)
      && (u.status.Some? ==> ParseCaseStatus(c'.status) == u.status)
      && (u.priority.None? ==> c'.priority == c.priority)
      && (u.priority.Some? ==> ParsePriority(c'.priority) == u.priority)
      && (u.description.None? ==> c'.description == c.description)
      && (u.description.Some? ==> c'.description == u.description)
      && (u.assignedTo.None? ==> c'.assignedTo == c.assignedTo)
      && (u.assignedTo.Some? ==> c'.assignedTo == u.assignedTo)
      && (c.description.Some? ==> c'.description.Some?)
      && (c.assignedTo.Some? ==> c'.assignedTo.Some?)
      && Apply(c, EmptyCaseUpdate, now) == c.(updatedAt := now)
  {
  }

  /** Sending the same update twice is sending it once. */
  lemma ApplyIdempotent(c: Case, u: CaseUpdate, now: int, later: int)
    ensures Apply(Apply(c, u, now), u, later) == Apply(c, u, later)
  {
  }

  /** `close_case`: 404 for an unknown id; otherwise the case is closed and
      both `closed_at` and `updated_at` are stamped. */
  function Close(t: Tables, id: string, now: int): (r: (Reply<Message>, Tables))
    ensures r.0.Err? <==> id !in CaseIds(t.cases)
    ensures r.0.Err? ==> r == (Err(404, "Case not found"), t)
    ensures r.0.Ok? ==> r.0.value == Message("Case closed", id)
    ensures r.1.clients == t.clients && r.1.alerts == t.alerts && |r.1.cases| == |t.cases|
    ensures r.0.Ok? ==>
      exists i :: && 0 <= i < |t.cases| && t.cases[i].id == id
                  && r.1.cases == t.cases[i := t.cases[i].(status := "closed", closedAt := Some(now), updatedAt := now)]
  {
    match Find(CaseIds(t.cases), id)
    case None => (Err(404, "Case not found"), t)
    case Some(i) =>
      (Ok(Message("Case closed", id)),
       t.(cases := t.cases[i := t.cases[i].(status := "closed", closedAt := Some(now), updatedAt := now)]))
  }

  /** Under unique ids, `close_case` on the case at `i` marks it closed and
      stamps both `closed_at` and `updated_at`; every other field and every
      other case keeps its value. */
  lemma CloseEffect(t: Tables, i: int, now: int)
    requires Distinct(CaseIds(t.cases)) && 0 <= i < |t.cases|
    ensures var t' := Close(t, t.cases[i].id, now).1;
      && t'.cases == t.cases[i := t.cases[i].(status := "closed", closedAt := Some(now), updatedAt := now)]
      && (forall j :: 0 <= j < |t.cases| && j != i ==> t'.cases[j] == t.cases[j])
      && ParseCaseStatus(t'.cases[i].status) == Some(Closed)
  {
    FindUnique(CaseIds(t.cases), i);
  }

  lemma UpdateKeepsValid(t: Tables, id: string, u: CaseUpdate, now: int)
    requires Valid(t)
    ensures Valid(Update(t, id, u, now).1)
  {
    var f := Find(CaseIds(t.cases), id);
    if f.Some? {
      var t' := Update(t, id, u, now).1;
      ReplaceCaseKeepsIds(t.cases, f.value, Apply(t.cases[f.value], u, now));
      assert CaseIds(t'.cases) == CaseIds(t.cases);
    }
  }

  lemma CloseKeepsValid(t: Tables, id: string, now: int)
    requires Valid(t)
    ensures Valid(Close(t, id, now).1)
  {
    var f := Find(CaseIds(t.cases), id);
    if f.Some? {
      var i := f.value;
      var t' := Close(t, id, now).1;
      ReplaceCaseKeepsIds(t.cases, i, t.cases[i].(status := "closed", closedAt := Some(now), updatedAt := now));
      assert CaseIds(t'.cases) == CaseIds(t.cases);
    }
  }

  /** Closing through `close_case` and through `update_case` differ: both
      report "closed", but only `close_case` records when. */
  lemma CloseVersusUpdate(t: Tables, id: string, now: int)
    requires Distinct(CaseIds(t.cases)) && id in CaseIds(t.cases)
    ensures var closed := Get(Close(t, id, now).1, id);
      var updated := Get(Update(t, id, EmptyCaseUpdate.(status := Some(Closed)), now).1, id);
      && closed.Ok? && closed.value.status == "closed" && closed.value.closedAt == Some(now)
      && updated.Ok? && updated.value.status == "closed"
      && updated.value.closedAt == Get(t, id).value.closedAt
      && closed.value.alertCount == updated.value.alertCount == Get(t, id).value.alertCount
  {
    var i := Find(CaseIds(t.cases), id).value;
    var t1 := Close(t, id, now).1;
    var t2 := Update(t, id, EmptyCaseUpdate.(status := Some(Closed)), now).1;
    assert CaseIds(t1.cases) == CaseIds(t.cases) by {
      ReplaceCaseKeepsIds(t.cases, i, t1.cases[i]);
    }
    assert CaseIds(t2.cases) == CaseIds(t.cases) by {
      ReplaceCaseKeepsIds(t.cases, i, t2.cases[i]);
    }
  }

  // ---------------------------------------------------------------------------
  // get_case_alerts, get_case_stats

  function Entry(a: Alert): CaseAlert {
    CaseAlert(a.id, a.source, a.alertType, a.message, a.severity, a.acknowledged, a.createdAt)
  }

  /** `get_case_alerts`: 404 for an unknown id; otherwise one entry per alert
      that refers to the case. */
  function CaseAlerts(t: Tables, id: string): (r: Reply<seq<CaseAlert>>)
    ensures r.Ok? <==> id in CaseIds(t.cases)
    ensures r.Err? ==> r == Err(404, "Case not found")
  {
    if Find(CaseIds(t.cases), id).None? then Err(404, "Case not found")
    else
      var linked := AlertsOf(t.alerts, id);
      Ok(seq(|linked|, i requires 0 <= i < |linked| => Entry(linked[i])))
  }

  /** The alert list of a case has as many entries as `get_case` counts;
      each is an alert that refers to the case, and every alert that refers
      to the case is listed. */
  lemma CaseAlertsAgreeWithCount(t: Tables, id: string)
    ensures var entries := CaseAlerts(t, id);
      entries.Ok? ==>
        && |entries.value| == Get(t, id).value.alertCount
        && forall k :: 0 <= k < |entries.value| ==>
             exists j :: 0 <= j < |t.alerts| && t.alerts[j].caseId == Some(id) && Entry(t.alerts[j]) == entries.value[k]
    ensures var entries := CaseAlerts(t, id);
      entries.Ok? ==>
        forall j :: 0 <= j < |t.alerts| && t.alerts[j].caseId == Some(id) ==> Entry(t.alerts[j]) in entries.value
  {
    var entries := CaseAlerts(t, id);
    if entries.Ok? {
      var linked := AlertsOf(t.alerts, id);
      forall k | 0 <= k < |entries.value|
        ensures exists j :: 0 <= j < |t.alerts| && t.alerts[j].caseId == Some(id) && Entry(t.alerts[j]) == entries.value[k]
      {
        assert linked[k] in t.alerts && AlertHasId(id)(linked[k]);
        var j :| 0 <= j < |t.alerts| && t.alerts[j] == linked[k];
        assert Entry(t.alerts[j]) == entries.value[k];
      }
      forall j | 0 <= j < |t.alerts| && t.alerts[j].caseId == Some(id)
        ensures Entry(t.alerts[j]) in entries.value
      {
        assert AlertHasId(id)(t.alerts[j]);
        assert t.alerts[j] in linked;
        var k :| 0 <= k < |linked| && linked[k] == t.alerts[j];
        assert entries.value[k] == Entry(t.alerts[j]);
      }
    }
  }

  /** The counts `get_case_stats` reports for a list of cases. */
  function Stats(cases: seq<Case>): CaseStats {
    CaseStats(|cases|, Tally(Column(cases, StatusOf)), Tally(Column(cases, PriorityOf)))
  }

  /** Each breakdown adds up to the total and every bucket counts its own value. */
  lemma StatsAddUp(cases: seq<Case>, k: string)
    ensures var s := Stats(cases);
      && s.total == |cases|
      && Total(s.byStatus) == s.total && Total(s.byPriority) == s.total
      && (k in s.byStatus ==> s.byStatus[k] == Count(Column(cases, StatusOf), k))
      && (k !in s.byStatus ==> Count(Column(cases, StatusOf), k) == 0)
      && (k in s.byPriority ==> s.byPriority[k] == Count(Column(cases, PriorityOf), k))
      && (k !in s.byPriority ==> Count(Column(cases, PriorityOf), k) == 0)
  {
    TotalOfTally(Column(cases, StatusOf));
    TotalOfTally(Column(cases, PriorityOf));
    TallyCounts(Column(cases, StatusOf), k);
    TallyCounts(Column(cases, PriorityOf), k);
  }

  // ---------------------------------------------------------------------------
  // The routes on the database

  method CreateCase(db: Database, body: CaseCreate, id: string, now: int) returns (r: Reply<CaseResponse>)
    modifies db
    ensures (r, db.Snapshot()) == Create(old(db.Snapshot()), body, id, now)
  {
    if Truthy(body.clientId) && Find(ClientIds(db.clients), body.clientId.value).None? {
      return Err(404, "Client not found");
    }
    var c := NewCase(id, body.clientId, body.title, body.description, None,
                     Some(PriorityValue(body.priority)), body.assignedTo, now);
    db.cases := db.cases + [c];
    r := Ok(View(c, db.alerts).(alertCount := 0));
  }

  /** `update_case`: the fields are set one by one, then the update time. */
  method UpdateCase(db: Database, id: string, u: CaseUpdate, now: int) returns (r: Reply<CaseResponse>)
    modifies db
    ensures (r, db.Snapshot()) == Update(old(db.Snapshot()), id, u, now)
  {
    var found := Find(CaseIds(db.cases), id);
    if found.None? {
      return Err(404, "Case not found");
    }
    ghost var before := db.cases[found.value];
    var c := db.cases[found.value];
    if u.title.Some? {
      c := c.(title := u.title.value);
    }
    if u.description.Some? {
      c := c.(description := u.description);
    }
    if u.status.Some? {
      c := c.(status := CaseStatusValue(u.status.value));
    }
    if u.priority.Some? {
      c := c.(priority := PriorityValue(u.priority.value));
    }
    if u.assignedTo.Some? {
      c := c.(assignedTo := u.assignedTo);
    }
    c := c.(updatedAt := now);
    assert c == Apply(before, u, now);
    db.cases := db.cases[found.value := c];
    r := Ok(View(c, db.alerts));
  }

  method CloseCase(db: Database, id: string, now: int) returns (r: Reply<Message>)
    modifies db
    ensures (r, db.Snapshot()) == Close(old(db.Snapshot()), id, now)
  {
    var found := Find(CaseIds(db.cases), id);
    if found.None? {
      return Err(404, "Case not found");
    }
    var i := found.value;
    db.cases := db.cases[i := db.cases[i].(status := "closed")];
    db.cases := db.cases[i := db.cases[i].(closedAt := Some(now))];
    db.cases := db.cases[i := db.cases[i].(updatedAt := now)];
    assert db.cases == old(db.cases)[i := old(db.cases)[i].(status := "closed", closedAt := Some(now), updatedAt := now)];
    r := Ok(Message("Case closed", id));
  }

  /** `get_case_stats`: one pass over the table. */
  method GetCaseStats(db: Database) returns (r: CaseStats)
    ensures r == Stats(db.cases)
  {
    var cases := db.cases;
    var byStatus: map<string, nat> := map[];
    var byPriority: map<string, nat> := map[];
    var i := 0;
    while i < |cases|
      invariant 0 <= i <= |cases|
      invariant byStatus == Tally(Column(cases[..i], StatusOf))
      invariant byPriority == Tally(Column(cases[..i], PriorityOf))
    {
      ColumnPrefix(cases, StatusOf, i);
      ColumnPrefix(cases, PriorityOf, i);
      TallySnoc(Column(cases[..i], StatusOf), cases[i].status);
      TallySnoc(Column(cases[..i], PriorityOf), cases[i].priority);
      byStatus := Bump(byStatus, cases[i].status);
      byPriority := Bump(byPriority, cases[i].priority);
      i := i + 1;
    }
    assert cases[..i] == cases;
    r := CaseStats(|cases|, byStatus, byPriority);
  }
}
