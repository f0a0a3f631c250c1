/** The client routes of the SOC service: a filtered, newest-first listing
    with each client's case count; creation; reading, partially updating and
    deleting one client; and the cases of a client. Deleting a client does
    not delete its cases: the ORM sets their `client_id` to null, which
    refreshes their `updated_at`. */
module SocClients {
  import opened Wrappers
  import opened Query
  import opened SocSchemas
  import opened SocDatabase

  function CreatedAt(c: Client): int { c.createdAt }

  /** The `ClientResponse` of a stored client: its columns and `len(client.cases)`. */
  function View(c: Client, cases: seq<Case>): ClientResponse {
    ClientResponse(c.id, c.name, c.codeName, c.email, c.phone, c.riskLevel, c.status, c.notes,
                   c.createdAt, |CasesOf(cases, c.id)|)
  }

  // ---------------------------------------------------------------------------
  // list_clients

  /** The filters `list_clients` adds, each only when given and non-empty. */
  predicate Matches(c: Client, status: Option<string>, riskLevel: Option<string>) {
    && (Truthy(status) ==> c.status == status.value)
    && (Truthy(riskLevel) ==> c.riskLevel == riskLevel.value)
  }

  function Filter(status: Option<string>, riskLevel: Option<string>): Client -> bool {
    (c: Client) => Matches(c, status, riskLevel)
  }

  function Select(clients: seq<Client>, status: Option<string>, riskLevel: Option<string>): seq<Client> {
    SortDesc(Where(clients, Filter(status, riskLevel)), CreatedAt)
  }

  function ListClients(t: Tables, status: Option<string>, riskLevel: Option<string>): seq<ClientResponse> {
    var rows := Select(t.clients, status, riskLevel);
    seq(|rows|, i requires 0 <= i < |rows| => View(rows[i], t.cases))
  }

  /** Every listed client is stored, matches every filter given and carries
      the number of cases that refer to it; the list is newest first. */
  lemma ListClientsSound(t: Tables, status: Option<string>, riskLevel: Option<string>)
    ensures var rows := Select(t.clients, status, riskLevel);
      var r := ListClients(t, status, riskLevel);
      && |r| == |rows|
      && (forall i :: 0 <= i < |r| ==>
            && r[i] == View(rows[i], t.cases) && rows[i] in t.clients
            && Matches(rows[i], status, riskLevel)
            && r[i].caseCount == |CasesOf(t.cases, rows[i].id)|)
      && SortedDesc(rows, CreatedAt)
  {
    var matched := Where(t.clients, Filter(status, riskLevel));
    var rows := Select(t.clients, status, riskLevel);
    forall i | 0 <= i < |rows|
      ensures rows[i] in t.clients && Matches(rows[i], status, riskLevel)
    {
      assert rows[i] in multiset(matched);
      var k :| 0 <= k < |matched| && matched[k] == rows[i];
    }
  }

  /** There is no limit: every matching client is listed. */
  lemma ListClientsComplete(t: Tables, status: Option<string>, riskLevel: Option<string>)
    ensures forall i :: 0 <= i < |t.clients| && Matches(t.clients[i], status, riskLevel) ==>
              View(t.clients[i], t.cases) in ListClients(t, status, riskLevel)
  {
    var matched := Where(t.clients, Filter(status, riskLevel));
    var rows := Select(t.clients, status, riskLevel);
    var r := ListClients(t, status, riskLevel);
    forall i | 0 <= i < |t.clients| && Matches(t.clients[i], status, riskLevel)
      ensures View(t.clients[i], t.cases) in r
    {
      assert t.clients[i] in matched;
      assert t.clients[i] in multiset(rows);
      var k :| 0 <= k < |rows| && rows[k] == t.clients[i];
      assert r[k] == View(t.clients[i], t.cases);
    }
  }

  // ---------------------------------------------------------------------------
  // create_client, get_client

  /** `create_client`: the client is appended, active, with the risk level's
      value, and reported with a case count of 0. It never fails. */
  function Create(t: Tables, body: ClientCreate, id: string, now: int): (r: (ClientResponse, Tables))
    ensures r.1.cases == t.cases && r.1.alerts == t.alerts
    ensures |r.1.clients| == |t.clients| + 1 && r.1.clients[..|t.clients|] == t.clients
    ensures var c := r.1.clients[|t.clients|];
      && c.id == id && c.name == body.name && c.codeName == body.codeName && c.email == body.email
      && c.phone == body.phone && c.notes == body.notes
      && ParseRiskLevel(c.riskLevel) == Some(body.riskLevel) && ParseClientStatus(c.status) == Some(Active)
      && c.createdAt == now && c.updatedAt == now
      && r.0 == View(c, t.cases).(caseCount := 0)
  {
    var c := NewClient(id, body.name, body.codeName, body.email, body.phone,
                       Some(RiskLevelValue(body.riskLevel)), None, body.notes, now);
    (View(c, t.cases).(caseCount := 0), t.(clients := t.clients + [c]))
  }

  /** `get_client`: 404 for an unknown id; otherwise the client with the
      number of cases that refer to it. */
  function Get(t: Tables, id: string): (r: Reply<ClientResponse>)
    ensures r.Ok? <==> id in ClientIds(t.clients)
    ensures r.Err? ==> r == Err(404, "Client not found")
    ensures r.Ok? ==> r.value.id == id && r.value.caseCount == |CasesOf(t.cases, id)|
    ensures r.Ok? ==> exists i :: 0 <= i < |t.clients| && t.clients[i].id == id && r.value == View(t.clients[i], t.cases)
  {
    match Find(ClientIds(t.clients), id)
    case None => Err(404, "Client not found")
    case Some(i) => Ok(View(t.clients[i], t.cases))
  }

  lemma CreateKeepsValid(t: Tables, body: ClientCreate, id: string, now: int)
    requires Valid(t) && Fresh(ClientIds(t.clients), id)
    ensures Valid(Create(t, body, id, now).1)
  {
    var t' := Create(t, body, id, now).1;
    assert ClientIds(t'.clients) == ClientIds(t.clients) + [id];
    AppendKey(ClientIds(t.clients), id);
    forall i | 0 <= i < |t'.cases| && Truthy(t'.cases[i].clientId)
      ensures t'.cases[i].clientId.value in ClientIds(t'.clients)
    {
      assert t'.cases[i].clientId.value in ClientIds(t.clients);
    }
  }

  /** The case count 0 that `create_client` reports is the truth: reading the
      new client back gives the very same response. */
  lemma CreateAgreesWithGet(t: Tables, body: ClientCreate, id: string, now: int)
    requires Valid(t) && Fresh(ClientIds(t.clients), id)
    ensures var (reply, t') := Create(t, body, id, now);
      Get(t', id) == Ok(reply)
  {
    var (reply, t') := Create(t, body, id, now);
    FreshClientHasNoCases(t, id);
    AppendKey(ClientIds(t.clients), id);
    assert ClientIds(t'.clients) == ClientIds(t.clients) + [id];
    FindUnique(ClientIds(t'.clients), |t.clients|);
  }

  /** A body with only a name creates an active, medium-risk client. */
  lemma CreateDefaults(t: Tables, name: string, id: string, now: int)
    ensures Create(t, MinimalClientCreate(name), id, now).0 ==
              ClientResponse(id, name, None, None, None, "medium", "active", None, now, 0)
  {
  }

  // ---------------------------------------------------------------------------
  // update_client

  /** The `setattr` loop of `update_client`: every field sent with a value is
      set, an enumeration member as its value; `updated_at` is refreshed. */
  function Apply(c: Client, u: ClientUpdate, now: int): Client {
    c.(name := u.name.GetOr(c.name),
       codeName := if u.codeName.Some? then u.codeName else c.codeName,
       email := if u.email.Some? then u.email else c.email,
       phone := if u.phone.Some? then u.phone else c.phone,
       riskLevel := if u.riskLevel.Some? then RiskLevelValue(u.riskLevel.value) else c.riskLevel,
       status := if u.status.Some? then ClientStatusValue(u.status.value) else c.status,
       notes := if u.notes.Some? then u.notes else c.notes,
       updatedAt := now)
  }

  /** `update_client`: 404 for an unknown id; otherwise the client is updated in place. */
  function Update(t: Tables, id: string, u: ClientUpdate, now: int): (r: (Reply<ClientResponse>, Tables))
    ensures r.0.Err? <==> id !in ClientIds(t.clients)
    ensures r.0.Err? ==> r == (Err(404, "Client not found"), t)
    ensures r.1.cases == t.cases && r.1.alerts == t.alerts && |r.1.clients| == |t.clients|
    ensures r.0.Ok? ==>
      exists i :: && 0 <= i < |t.clients| && t.clients[i].id == id
                  && r.1.clients == t.clients[i := Apply(t.clients[i], u, now)]
                  && r.0.value == View(Apply(t.clients[i], u, now), t.cases)
  {
    match Find(ClientIds(t.clients), id)
    case None => (Err(404, "Client not found"), t)
    case Some(i) =>
      var c := Apply(t.clients[i], u, now);
      (Ok(View(c, t.cases)), t.(clients := t.clients[i := c]))
  }

  /** Under unique ids, `update_client` on the client at `i` stores `Apply` of
      it there, keeps every other client, answers with the new client, and
      reads back as that answer. */
  lemma UpdateEffect(t: Tables, i: int, u: ClientUpdate, now: int)
    requires Distinct(ClientIds(t.clients)) && 0 <= i < |t.clients|
    ensures var (reply, t') := Update(t, t.clients[i].id, u, now);
      && t'.clients == t.clients[i := Apply(t.clients[i], u, now)]
      && (forall j :: 0 <= j < |t.clients| && j != i ==> t'.clients[j] == t.clients[j])
      && reply == Ok(View(Apply(t.clients[i], u, now), t.cases))
      && Get(t', t.clients[i].id) == reply
  {
    FindUnique(ClientIds(t.clients), i);
    var t' := Update(t, t.clients[i].id, u, now).1;
    ReplaceClientKeepsIds(t.clients, i, Apply(t.clients[i], u, now));
    assert ClientIds(t'.clients) == ClientIds(t.clients);
  }

  /** An update changes the fields that were sent and nothing else but the
      update time, and never clears a field. */
  lemma ApplyChangesOnlySentFields(c: Client, u: ClientUpdate, now: int)
    ensures var c' := Apply(c, u, now);
      && c'.id == c.id && c'.createdAt == c.createdAt && c'.updatedAt == now
      && (u.name.None? ==> c'.name == c.name) && (u.name.Some? ==> c'.name == u.name.value)
      && (u.riskLevel.None? ==> c'.riskLevel == c.riskLevel)
      && (u.riskLevel.Some? ==> ParseRiskLevel(c'.riskLevel) == u.riskLevel)
      && (u.status.None? ==> c'.status == c.status)
      && (u.status.Some? ==> ParseClientStatus(c'.status) == u.status)
      && (u.codeName.None? ==> c'.codeName == c.codeName) && (u.codeName.Some? ==> c'.codeName == u.codeName)
      && (u.email.None? ==> c'.email == c.email) && (u.email.Some? ==> c'.email == u.email)
      && (u.phone.None? ==> c'.phone == c.phone) && (u.phone.Some? ==> c'.phone == u.phone)
      && (u.notes.None? ==> c'.notes == c.notes) && (u.notes.Some? ==> c'.notes == u.notes)
      && (c.codeName.Some? ==> c'.codeName.Some?) && (c.email.Some? ==> c'.email.Some?)
      && (c.phone.Some? ==> c'.phone.Some?) && (c.notes.Some? ==> c'.notes.Some?)
      && Apply(c, EmptyClientUpdate, now) == c.(updatedAt := now)
  {
  }

  /** Sending the same update twice is sending it once. */
  lemma ApplyIdempotent(c: Client, u: ClientUpdate, now: int, later: int)
    ensures Apply(Apply(c, u, now), u, later) == Apply(c, u, later)
  {
  }

  lemma UpdateKeepsValid(t: Tables, id: string, u: ClientUpdate, now: int)
    requires Valid(t)
    ensures Valid(Update(t, id, u, now).1)
  {
    var f := Find(ClientIds(t.clients), id);
    if f.Some? {
      var t' := Update(t, id, u, now).1;
      ReplaceClientKeepsIds(t.clients, f.value, Apply(t.clients[f.value], u, now));
      assert ClientIds(t'.clients) == ClientIds(t.clients);
    }
  }

  // ---------------------------------------------------------------------------
  // delete_client, get_client_cases

  /** What the ORM does to the cases of a deleted client: `client_id` becomes
      null and the row's `updated_at` is refreshed. */
  function Detach(cases: seq<Case>, id: string, now: int): (r: seq<Case>)
    ensures |r| == |cases|
    ensures forall i :: 0 <= i < |cases| ==> r[i].id == cases[i].id && r[i].clientId != Some(id)
  {
    seq(|cases|, i requires 0 <= i < |cases| =>
      if cases[i].clientId == Some(id) then cases[i].(clientId := None, updatedAt := now) else cases[i])
  }

  /** `delete_client`: 404 for an unknown id; otherwise the client row is
      removed and its cases are detached. */
  function Delete(t: Tables, id: string, now: int): (r: (Reply<Message>, Tables))
    ensures r.0.Err? <==> id !in ClientIds(t.clients)
    ensures r.0.Err? ==> r == (Err(404, "Client not found"), t)
    ensures r.0.Ok? ==> r.0.value == Message("Client deleted", id) && r.1.alerts == t.alerts
                        && |r.1.clients| == |t.clients| - 1 && |r.1.cases| == |t.cases|
  {
    match Find(ClientIds(t.clients), id)
    case None => (Err(404, "Client not found"), t)
    case Some(i) =>
      (Ok(Message("Client deleted", id)),
       t.(clients := t.clients[..i] + t.clients[i + 1..], cases := Detach(t.cases, id, now)))
  }

  /** Detaching keeps every case and its key, leaves a case that still
      refers to a client as it was, and leaves no case referring to `id`. */
  lemma DetachFacts(cases: seq<Case>, id: string, now: int)
    ensures var r := Detach(cases, id, now);
      && CaseIds(r) == CaseIds(cases)
      && (forall j :: 0 <= j < |r| && r[j].clientId.Some? ==> r[j] == cases[j])
      && CasesOf(r, id) == []
  {
    WhereNone(Detach(cases, id, now), CaseHasId(id));
  }

  /** Removing the client at `i` and detaching its cases keeps the tables
      valid and leaves no client with its id. */
  lemma RemoveClientKeepsValid(t: Tables, i: int, now: int)
    requires Valid(t) && 0 <= i < |t.clients|
    ensures var rest := t.clients[..i] + t.clients[i + 1..];
      && Valid(Tables(rest, Detach(t.cases, t.clients[i].id, now), t.alerts))
      && t.clients[i].id !in ClientIds(rest)
  {
    var id := t.clients[i].id;
    var ids := ClientIds(t.clients);
    var rest := t.clients[..i] + t.clients[i + 1..];
    var cases := Detach(t.cases, id, now);
    RemoveRow(t.clients, i);
    assert ClientIds(rest) == ids[..i] + ids[i + 1..];
    RemoveKey(ids, i);
    DetachFacts(t.cases, id, now);
    forall j | 0 <= j < |cases| && Truthy(cases[j].clientId)
      ensures cases[j].clientId.value in ClientIds(rest)
    {
      assert cases[j] == t.cases[j];
    }
  }

  /** Deleting a client removes exactly that client, keeps every case (none
      of which refers to it any longer) and keeps the tables valid: without
      the detaching, a case would be left referring to a missing client. */
  lemma DeleteKeepsValid(t: Tables, id: string, now: int)
    requires Valid(t) && id in ClientIds(t.clients)
    ensures var t' := Delete(t, id, now).1;
      && Valid(t')
      && id !in ClientIds(t'.clients)
      && (forall c :: c in t.clients && c.id != id ==> c in t'.clients)
      && CaseIds(t'.cases) == CaseIds(t.cases)
      && CasesOf(t'.cases, id) == []
  {
    var i := Find(ClientIds(t.clients), id).value;
    var t' := Delete(t, id, now).1;
    assert t' == Tables(t.clients[..i] + t.clients[i + 1..], Detach(t.cases, id, now), t.alerts);
    RemoveClientKeepsValid(t, i, now);
    RemoveRow(t.clients, i);
    DetachFacts(t.cases, id, now);
    forall c | c in t.clients && c.id != id ensures c in t'.clients {
      var k :| 0 <= k < |t.clients| && t.clients[k] == c;
    }
  }

  function Entry(c: Case): ClientCase {
    ClientCase(c.id, c.title, c.status, c.priority, c.createdAt)
  }

  /** `get_client_cases`: 404 for an unknown id; otherwise one entry per case
      that refers to the client. */
  function ClientCases(t: Tables, id: string): (r: Reply<seq<ClientCase>>)
    ensures r.Ok? <==> id in ClientIds(t.clients)
    ensures r.Err? ==> r == Err(404, "Client not found")
  {
    if Find(ClientIds(t.clients), id).None? then Err(404, "Client not found")
    else
      var linked := CasesOf(t.cases, id);
      Ok(seq(|linked|, i requires 0 <= i < |linked| => Entry(linked[i])))
  }

  /** The case list of a client has as many entries as `get_client` counts;
      each is a case that refers to the client, and every case that refers
      to the client is listed. */
  lemma ClientCasesAgreeWithCount(t: Tables, id: string)
    ensures var entries := ClientCases(t, id);
      entries.Ok? ==>
        && |entries.value| == Get(t, id).value.caseCount
        && forall k :: 0 <= k < |entries.value| ==>
             exists j :: 0 <= j < |t.cases| && t.cases[j].clientId == Some(id) && Entry(t.cases[j]) == entries.value[k]
    ensures var entries := ClientCases(t, id);
      entries.Ok? ==>
        forall j :: 0 <= j < |t.cases| && t.cases[j].clientId == Some(id) ==> Entry(t.cases[j]) in entries.value
  {
    var entries := ClientCases(t, id);
    if entries.Ok? {
      var linked := CasesOf(t.cases, id);
      forall k | 0 <= k < |entries.value|
        ensures exists j :: 0 <= j < |t.cases| && t.cases[j].clientId == Some(id) && Entry(t.cases[j]) == entries.value[k]
      {
        assert linked[k] in t.cases && CaseHasId(id)(linked[k]);
        var j :| 0 <= j < |t.cases| && t.cases[j] == linked[k];
        assert Entry(t.cases[j]) == entries.value[k];
      }
      forall j | 0 <= j < |t.cases| && t.cases[j].clientId == Some(id)
        ensures Entry(t.cases[j]) in entries.value
      {
        assert CaseHasId(id)(t.cases[j]);
        assert t.cases[j] in linked;
        var k :| 0 <= k < |linked| && linked[k] == t.cases[j];
        assert entries.value[k] == Entry(t.cases[j]);
      }
    }
  }

  // ---------------------------------------------------------------------------
  // The routes on the database

  method CreateClient(db: Database, body: ClientCreate, id: string, now: int) returns (r: ClientResponse)
    modifies db
    ensures (r, db.Snapshot()) == Create(old(db.Snapshot()), body, id, now)
  {
    var c := NewClient(id, body.name, body.codeName, body.email, body.phone,
                       Some(RiskLevelValue(body.riskLevel)), None, body.notes, now);
    db.clients := db.clients + [c];
    r := View(c, db.cases).(caseCount := 0);
  }

  /** `update_client`: the fields are set one by one, then the update time. */
  method UpdateClient(db: Database, id: string, u: ClientUpdate, now: int) returns (r: Reply<ClientResponse>)
    modifies db
    ensures (r, db.Snapshot()) == Update(old(db.Snapshot()), id, u, now)
  {
    var found := Find(ClientIds(db.clients), id);
    if found.None? {
      return Err(404, "Client not found");
    }
    ghost var before := db.clients[found.value];
    var c := db.clients[found.value];
    if u.name.Some? {
      c := c.(name := u.name.value);
    }
    if u.codeName.Some? {
      c := c.(codeName := u.codeName);
    }
    if u.email.Some? {
      c := c.(email := u.email);
    }
    if u.phone.Some? {
      c := c.(phone := u.phone);
    }
    if u.riskLevel.Some? {
      c := c.(riskLevel := RiskLevelValue(u.riskLevel.value));
    }
    if u.status.Some? {
      c := c.(status := ClientStatusValue(u.status.value));
    }
    if u.notes.Some? {
      c := c.(notes := u.notes);
    }
    c := c.(updatedAt := now);
    assert c == Apply(before, u, now);
    db.clients := db.clients[found.value := c];
    r := Ok(View(c, db.cases));
  }

  method DeleteClient(db: Database, id: string, now: int) returns (r: Reply<Message>)
    modifies db
    ensures (r, db.Snapshot()) == Delete(old(db.Snapshot()), id, now)
  {
    var found := Find(ClientIds(db.clients), id);
    if found.None? {
      return Err(404, "Client not found");
    }
    var i := found.value;
    db.clients := db.clients[..i] + db.clients[i + 1..];
    db.cases := Detach(db.cases, id, now);
    r := Ok(Message("Client deleted", id));
  }
}
