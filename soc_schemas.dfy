/** The SOC service's enumerations and request/response shapes. The ORM module
    and the schema module declare the same five enumerations with the same
    values; they are declared once here. A request body that omits a field
    gets the schema default; the update bodies leave every field optional, and
    a field that was not sent is indistinguishable from one sent as null,
    because the update routes skip both. */
module SocSchemas {
  import opened Wrappers

  datatype RiskLevel = RiskLow | RiskMedium | RiskHigh | RiskCritical
  datatype ClientStatus = Active | Inactive
  datatype CaseStatus = Open | Investigating | Resolved | Closed
  datatype Priority = PriorityLow | PriorityMedium | PriorityHigh | PriorityCritical
  datatype Severity = Info | Warning | Critical

  function RiskLevelValue(r: RiskLevel): string {
    match r
    case RiskLow => "low"
    case RiskMedium => "medium"
    case RiskHigh => "high"
    case RiskCritical => "critical"
  }

  function ClientStatusValue(s: ClientStatus): string {
    match s
    case Active => "active"
    case Inactive => "inactive"
  }

  function CaseStatusValue(s: CaseStatus): string {
    match s
    case Open => "open"
    case Investigating => "investigating"
    case Resolved => "resolved"
    case Closed => "closed"
  }

  function PriorityValue(p: Priority): string {
    match p
    case PriorityLow => "low"
    case PriorityMedium => "medium"
    case PriorityHigh => "high"
    case PriorityCritical => "critical"
  }

  function SeverityValue(s: Severity): string {
    match s
    case Info => "info"
    case Warning => "warning"
    case Critical => "critical"
  }

  /** Request validation of a `RiskLevel` field: exactly the four values are accepted. */
  function ParseRiskLevel(v: string): (r: Option<RiskLevel>)
    ensures r.Some? ==> RiskLevelValue(r.value) == v
    ensures r.None? ==> forall x :: RiskLevelValue(x) != v
  {
    if v == "low" then Some(RiskLow)
    else if v == "medium" then Some(RiskMedium)
    else if v == "high" then Some(RiskHigh)
    else if v == "critical" then Some(RiskCritical)
    else None
  }

  function ParseClientStatus(v: string): (r: Option<ClientStatus>)
    ensures r.Some? ==> ClientStatusValue(r.value) == v
    ensures r.None? ==> forall x :: ClientStatusValue(x) != v
  {
    if v == "active" then Some(Active)
    else if v == "inactive" then Some(Inactive)
    else None
  }

  function ParseCaseStatus(v: string): (r: Option<CaseStatus>)
    ensures r.Some? ==> CaseStatusValue(r.value) == v
    ensures r.None? ==> forall x :: CaseStatusValue(x) != v
  {
    if v == "open" then Some(Open)
    else if v == "investigating" then Some(Investigating)
    else if v == "resolved" then Some(Resolved)
    else if v == "closed" then Some(Closed)
    else None
  }

  function ParsePriority(v: string): (r: Option<Priority>)
    ensures r.Some? ==> PriorityValue(r.value) == v
    ensures r.None? ==> forall x :: PriorityValue(x) != v
  {
    if v == "low" then Some(PriorityLow)
    else if v == "medium" then Some(PriorityMedium)
    else if v == "high" then Some(PriorityHigh)
    else if v == "critical" then Some(PriorityCritical)
    else None
  }

  function ParseSeverity(v: string): (r: Option<Severity>)
    ensures r.Some? ==> SeverityValue(r.value) == v
    ensures r.None? ==> forall x :: SeverityValue(x) != v
  {
    if v == "info" then Some(Info)
    else if v == "warning" then Some(Warning)
    else if v == "critical" then Some(Critical)
    else None
  }

  /** Distinct members have distinct values, so a stored value names one member. */
  lemma ValuesInjective()
    ensures forall x, y :: RiskLevelValue(x) == RiskLevelValue(y) ==> x == y
    ensures forall x, y :: ClientStatusValue(x) == ClientStatusValue(y) ==> x == y
    ensures forall x, y :: CaseStatusValue(x) == CaseStatusValue(y) ==> x == y
    ensures forall x, y :: PriorityValue(x) == PriorityValue(y) ==> x == y
    ensures forall x, y :: SeverityValue(x) == SeverityValue(y) ==> x == y
  {
    forall x: RiskLevel ensures ParseRiskLevel(RiskLevelValue(x)) == Some(x) {}
    forall x: ClientStatus ensures ParseClientStatus(ClientStatusValue(x)) == Some(x) {}
    forall x: CaseStatus ensures ParseCaseStatus(CaseStatusValue(x)) == Some(x) {}
    forall x: Priority ensures ParsePriority(PriorityValue(x)) == Some(x) {}
    forall x: Severity ensures ParseSeverity(SeverityValue(x)) == Some(x) {}
  }

  // ---------------------------------------------------------------------------
  // Request bodies

  datatype ClientCreate = ClientCreate(name: string, codeName: Option<string>, email: Option<string>,
                                       phone: Option<string>, riskLevel: RiskLevel, notes: Option<string>)

  /** A `ClientUpdate`: `None` is a field not sent or sent as null. There is
      a `status` here but none in `ClientCreate`. */
  datatype ClientUpdate = ClientUpdate(name: Option<string>, codeName: Option<string>, email: Option<string>,
                                       phone: Option<string>, riskLevel: Option<RiskLevel>,
                                       status: Option<ClientStatus>, notes: Option<string>)

  datatype CaseCreate = CaseCreate(clientId: Option<string>, title: string, description: Option<string>,
                                   priority: Priority, assignedTo: Option<string>)

  /** A `CaseUpdate`: there is no `client_id`, so an update never moves a case
      to another client. */
  datatype CaseUpdate = CaseUpdate(title: Option<string>, description: Option<string>,
                                   status: Option<CaseStatus>, priority: Option<Priority>,
                                   assignedTo: Option<string>)

  datatype AlertCreate = AlertCreate(caseId: Option<string>, source: string, alertType: string,
                                     message: string, severity: Severity)

  /** The bodies built from the required fields alone, every other field at its default. */
  function MinimalClientCreate(name: string): ClientCreate {
    ClientCreate(name, None, None, None, RiskMedium, None)
  }

  function MinimalCaseCreate(title: string): CaseCreate {
    CaseCreate(None, title, None, PriorityMedium, None)
  }

  function MinimalAlertCreate(source: string, alertType: string, message: string): AlertCreate {
    AlertCreate(None, source, alertType, message, Info)
  }

  const EmptyClientUpdate := ClientUpdate(None, None, None, None, None, None, None)
  const EmptyCaseUpdate := CaseUpdate(None, None, None, None, None)

  // ---------------------------------------------------------------------------
  // Response bodies

  datatype ClientResponse = ClientResponse(id: string, name: string, codeName: Option<string>,
                                           email: Option<string>, phone: Option<string>,
                                           riskLevel: string, status: string, notes: Option<string>,
                                           createdAt: int, caseCount: nat)

  datatype CaseResponse = CaseResponse(id: string, clientId: Option<string>, title: string,
                                       description: Option<string>, status: string, priority: string,
                                       assignedTo: Option<string>, createdAt: int,
                                       closedAt: Option<int>, alertCount: nat)

  datatype AlertResponse = AlertResponse(id: string, caseId: Option<string>, source: string,
                                         alertType: string, message: string, severity: string,
                                         acknowledged: bool, acknowledgedBy: Option<string>,
                                         createdAt: int)

  datatype AlertStats = AlertStats(total: nat, unacknowledged: nat,
                                   bySeverity: map<string, nat>, bySource: map<string, nat>)

  /** The body of `/stats/overview` for cases. */
  datatype CaseStats = CaseStats(total: nat, byStatus: map<string, nat>, byPriority: map<string, nat>)

  /** An entry of `/{case_id}/alerts`. */
  datatype CaseAlert = CaseAlert(id: string, source: string, alertType: string, message: string,
                                 severity: string, acknowledged: bool, createdAt: int)

  /** An entry of `/{client_id}/cases`. */
  datatype ClientCase = ClientCase(id: string, title: string, status: string, priority: string, createdAt: int)
}
