/** The SOC service's three tables. Each table is a sequence of rows in
    insertion order; the primary key `id` is unique within its table. A case
    may name one client and an alert one case; both references are optional,
    and the routes check them only when they are non-empty strings. Times are
    integer ticks and ids are generated uuid strings, passed in as parameters. */
module SocDatabase {
  import opened Wrappers
  import opened Query

  datatype Client = Client(id: string, name: string, codeName: Option<string>, email: Option<string>,
                           phone: Option<string>, riskLevel: string, status: string,
                           notes: Option<string>, createdAt: int, updatedAt: int)

  datatype Case = Case(id: string, clientId: Option<string>, title: string, description: Option<string>,
                       status: string, priority: string, assignedTo: Option<string>,
                       createdAt: int, updatedAt: int, closedAt: Option<int>)

  datatype Alert = Alert(id: string, caseId: Option<string>, source: string, alertType: string,
                         message: string, severity: string, acknowledged: bool,
                         acknowledgedBy: Option<string>, acknowledgedAt: Option<int>, createdAt: int)

  datatype Tables = Tables(clients: seq<Client>, cases: seq<Case>, alerts: seq<Alert>)

  // ---------------------------------------------------------------------------
  // Rows as the ORM constructs them: an omitted column takes its default.

  /** `Client(...)`: `risk_level` defaults to "medium" and `status` to "active";
      both time stamps are the insertion time. */
  function NewClient(id: string, name: string, codeName: Option<string>, email: Option<string>,
                     phone: Option<string>, riskLevel: Option<string>, status: Option<string>,
                     notes: Option<string>, now: int): Client {
    Client(id, name, codeName, email, phone, riskLevel.GetOr("medium"), status.GetOr("active"), notes, now, now)
  }

  /** `Case(...)`: `status` defaults to "open", `priority` to "medium", and
      `closed_at` is null. */
  function NewCase(id: string, clientId: Option<string>, title: string, description: Option<string>,
                   status: Option<string>, priority: Option<string>, assignedTo: Option<string>,
                   now: int): Case {
    Case(id, clientId, title, description, status.GetOr("open"), priority.GetOr("medium"), assignedTo, now, now, None)
  }

  /** `Alert(...)`: `severity` defaults to "info"; a new alert is never
      acknowledged and has no acknowledger or acknowledgement time. */
  function NewAlert(id: string, caseId: Option<string>, source: string, alertType: string,
                    message: string, severity: Option<string>, now: int): Alert {
    Alert(id, caseId, source, alertType, message, severity.GetOr("info"), false, None, None, now)
  }

  // ---------------------------------------------------------------------------
  // Keys and lookups

  function ClientIds(cs: seq<Client>): (ids: seq<string>)
    ensures |ids| == |cs| && forall i :: 0 <= i < |cs| ==> ids[i] == cs[i].id
  {
    seq(|cs|, i requires 0 <= i < |cs| => cs[i].id)
  }

  function CaseIds(cs: seq<Case>): (ids: seq<string>)
    ensures |ids| == |cs| && forall i :: 0 <= i < |cs| ==> ids[i] == cs[i].id
  {
    seq(|cs|, i requires 0 <= i < |cs| => cs[i].id)
  }

  function AlertIds(alerts: seq<Alert>): (ids: seq<string>)
    ensures |ids| == |alerts| && forall i :: 0 <= i < |alerts| ==> ids[i] == alerts[i].id
  {
    seq(|alerts|, i requires 0 <= i < |alerts| => alerts[i].id)
  }

  ghost predicate Distinct(ids: seq<string>) {
    forall i, j :: 0 <= i < j < |ids| ==> ids[i] != ids[j]
  }

  /** `query.filter(X.id == id).first()`: the position of the first row with
      that key, or none. */
  function Find(ids: seq<string>, id: string): (r: Option<nat>)
    ensures r.None? <==> id !in ids
    ensures r.Some? ==> r.value < |ids| && ids[r.value] == id && id !in ids[..r.value]
    decreases |ids|
  {
    if |ids| == 0 then None
    else if ids[0] == id then Some(0)
    else
      assert ids == [ids[0]] + ids[1..];
      match Find(ids[1..], id)
      case None => None
      case Some(i) =>
        assert ids[..i + 1] == [ids[0]] + ids[1..][..i];
        Some(i + 1)
  }

  /** Under a primary key, the row found is the only one with that key. */
  lemma FindUnique(ids: seq<string>, i: int)
    requires Distinct(ids) && 0 <= i < |ids|
    ensures Find(ids, ids[i]) == Some(i)
  {
  }

  /** Python truthiness of an optional string: `if x:` is false for None and "". */
  predicate Truthy(ref: Option<string>) {
    ref.Some? && ref.value != ""
  }

  /** What the tables keep: unique keys, and every non-empty reference names
      a stored row. */
  ghost predicate Valid(t: Tables) {
    && Distinct(ClientIds(t.clients))
    && Distinct(CaseIds(t.cases))
    && Distinct(AlertIds(t.alerts))
    && (forall i :: 0 <= i < |t.cases| && Truthy(t.cases[i].clientId) ==>
          t.cases[i].clientId.value in ClientIds(t.clients))
    && (forall i :: 0 <= i < |t.alerts| && Truthy(t.alerts[i].caseId) ==>
          t.alerts[i].caseId.value in CaseIds(t.cases))
  }

  /** A generated uuid: non-empty and not yet a key of the table. */
  predicate Fresh(ids: seq<string>, id: string) {
    id != "" && id !in ids
  }

  // ---------------------------------------------------------------------------
  // Relationships

  function CaseHasId(id: string): Case -> bool {
    (c: Case) => c.clientId == Some(id)
  }

  function AlertHasId(id: string): Alert -> bool {
    (a: Alert) => a.caseId == Some(id)
  }

  /** `client.cases`: the cases whose `client_id` is the client's id. */
  function CasesOf(cases: seq<Case>, clientId: string): seq<Case> {
    Where(cases, CaseHasId(clientId))
  }

  /** `case.alerts`: the alerts whose `case_id` is the case's id. */
  function AlertsOf(alerts: seq<Alert>, caseId: string): seq<Alert> {
    Where(alerts, AlertHasId(caseId))
  }

  /** With the references intact, nothing refers to a fresh key. */
  lemma FreshClientHasNoCases(t: Tables, id: string)
    requires Valid(t) && Fresh(ClientIds(t.clients), id)
    ensures CasesOf(t.cases, id) == []
  {
    forall i | 0 <= i < |t.cases| ensures !CaseHasId(id)(t.cases[i]) {
      if t.cases[i].clientId == Some(id) {
        assert Truthy(t.cases[i].clientId);
      }
    }
    WhereNone(t.cases, CaseHasId(id));
  }

  lemma FreshCaseHasNoAlerts(t: Tables, id: string)
    requires Valid(t) && Fresh(CaseIds(t.cases), id)
    ensures AlertsOf(t.alerts, id) == []
  {
    forall i | 0 <= i < |t.alerts| ensures !AlertHasId(id)(t.alerts[i]) {
      if t.alerts[i].caseId == Some(id) {
        assert Truthy(t.alerts[i].caseId);
      }
    }
    WhereNone(t.alerts, AlertHasId(id));
  }

  // ---------------------------------------------------------------------------
  // Keys under row replacement and row removal

  lemma ReplaceClientKeepsIds(cs: seq<Client>, i: int, c: Client)
    requires 0 <= i < |cs| && c.id == cs[i].id
    ensures ClientIds(cs[i := c]) == ClientIds(cs)
  {
  }

  lemma ReplaceCaseKeepsIds(cs: seq<Case>, i: int, c: Case)
    requires 0 <= i < |cs| && c.id == cs[i].id
    ensures CaseIds(cs[i := c]) == CaseIds(cs)
  {
  }

  lemma ReplaceAlertKeepsIds(alerts: seq<Alert>, i: int, a: Alert)
    requires 0 <= i < |alerts| && a.id == alerts[i].id
    ensures AlertIds(alerts[i := a]) == AlertIds(alerts)
  {
  }

  /** Removing position `i` of a key column keeps the others, distinct, and
      drops the key at `i` altogether. */
  lemma RemoveKey(ids: seq<string>, i: int)
    requires Distinct(ids) && 0 <= i < |ids|
    ensures var rest := ids[..i] + ids[i + 1..];
      && Distinct(rest)
      && ids[i] !in rest
      && forall x :: x in ids && x != ids[i] ==> x in rest
  {
    var rest := ids[..i] + ids[i + 1..];
    forall j | 0 <= j < |rest| ensures rest[j] == if j < i then ids[j] else ids[j + 1] {}
    forall x | x in ids && x != ids[i] ensures x in rest {
      var k :| 0 <= k < |ids| && ids[k] == x;
      assert rest[if k < i then k else k - 1] == x;
    }
  }

  /** Removing the row at `i` shifts the later rows down by one and keeps
      every other row. */
  lemma RemoveRow<T>(rows: seq<T>, i: int)
    requires 0 <= i < |rows|
    ensures var rest := rows[..i] + rows[i + 1..];
      && |rest| == |rows| - 1
      && (forall j :: 0 <= j < |rest| ==> rest[j] == rows[if j < i then j else j + 1])
      && (forall k :: 0 <= k < |rows| && k != i ==> rows[k] in rest)
  {
    var rest := rows[..i] + rows[i + 1..];
    forall k | 0 <= k < |rows| && k != i ensures rows[k] in rest {
      assert rest[if k < i then k else k - 1] == rows[k];
    }
  }

  lemma AppendKey(ids: seq<string>, id: string)
    requires Distinct(ids) && id !in ids
    ensures Distinct(ids + [id])
  {
  }

  // ---------------------------------------------------------------------------
  // The database session

  /** The SQLite database the routes reach through their session. */
  class Database {
    var clients: seq<Client>
    var cases: seq<Case>
    var alerts: seq<Alert>

    function Snapshot(): Tables
      reads this
    {
      Tables(clients, cases, alerts)
    }

    constructor ()
      ensures Snapshot() == Tables([], [], []) && Valid(Snapshot())
    {
      clients := [];
      cases := [];
      alerts := [];
    }
  }
}
