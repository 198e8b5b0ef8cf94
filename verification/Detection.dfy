/** What the four detection rules are looking for, stated over the collected
    events: which events count against whom, and when that is enough. The
    rules themselves, with their loops, are in Rules. */
module Detection {
  import opened Wrappers
  import opened Sequences
  import opened Strings
  import opened Timestamps
  import opened Events
  import opened EventStores
  import opened Alerts

  // -------------------------------------------------------------- the catalogue

  /** The five ways a rule keys its evidence; Rule 1 has two. */
  datatype Keying = ByUser | ByAddress | BySubject | BySource | ByService {
    function RuleOf(): Rule {
      match this
      case ByUser => MultipleFailedLoginsRule
      case ByAddress => MultipleFailedLoginsRule
      case BySubject => UnauthorisedAccessRule
      case BySource => AbnormalRequestRateRule
      case ByService => ServiceFailureRule
    }

    function WindowMinutes(): int {
      match this
      case ByUser => 5
      case ByAddress => 5
      case BySubject => 10
      case BySource => 1
      case ByService => 5
    }
  }

  const FAILURE_THRESHOLD := 5
  const REFUSAL_THRESHOLD := 3
  const REQUEST_THRESHOLD := 30
  const RATE_LIMIT_THRESHOLD := 3
  const SERVICE_FAILURE_THRESHOLD := 3

  const USERS_ROUTE := "/api/v1/auth/users"
  const LOGIN_ENDPOINT := "login-endpoint"
  const UNATTRIBUTED := "unattributed"

  // ------------------------------------------------------------ who, and when

  predicate IsRefusal(e: SecurityEvent) {
    if e.eventType == AuthFailed then false
    else if e.eventType == UnauthorisedAccess then true
    else e.statusCode == 401 || e.statusCode == 403
  }

  predicate IsPrivileged(endpoint: string) {
    USERS_ROUTE <= endpoint
  }

  /** The user when the token named one, else the address, else nobody known. */
  function RefusedSubject(e: SecurityEvent): string {
    if Truthy(e.userId) then e.userId.value
    else if Truthy(e.sourceIp) then e.sourceIp.value
    else UNATTRIBUTED
  }

  predicate IsImmediate(e: SecurityEvent) {
    e.eventType == CircuitOpened || e.eventType == HealthCheckFailed
  }

  predicate IsFailureEvent(e: SecurityEvent) {
    e.eventType == DependencyFailure || e.eventType == ServiceError
  }

  /** Whom an event is evidence against, if it is evidence at all. */
  function SubjectOf(k: Keying, e: SecurityEvent): Option<string> {
    match k
    case ByUser => if e.eventType == AuthFailed then e.userId else None
    case ByAddress => if e.eventType == AuthFailed then e.sourceIp else None
    case BySubject => if IsRefusal(e) then Some(RefusedSubject(e)) else None
    case BySource =>
      if (e.eventType == RateLimitExceeded || e.eventType == RequestReceived) && Truthy(e.sourceIp)
      then e.sourceIp else None
    case ByService => if IsImmediate(e) || IsFailureEvent(e) then Some(e.serviceName) else None
  }

  /** Both bounds inclusive. */
  predicate InWindow(minutes: int, now: DateTime, e: SecurityEvent) {
    now.Instant() - Minutes(minutes) <= Moment(e) <= now.Instant()
  }

  function Within(minutes: int, now: DateTime): SecurityEvent -> bool {
    (e: SecurityEvent) => InWindow(minutes, now, e)
  }

  function OfType(t: EventType): SecurityEvent -> bool {
    (e: SecurityEvent) => e.eventType == t
  }

  function Failures(): SecurityEvent -> bool {
    (e: SecurityEvent) => IsFailureEvent(e)
  }

  /** The events that count against `s` under a keying. */
  function Counts(k: Keying, s: string, now: DateTime): SecurityEvent -> bool {
    (e: SecurityEvent) => InWindow(k.WindowMinutes(), now, e) && SubjectOf(k, e) == Some(s)
  }

  function CountsTyped(k: Keying, s: string, now: DateTime, t: EventType): SecurityEvent -> bool {
    (e: SecurityEvent) => Counts(k, s, now)(e) && e.eventType == t
  }

  function SubjectSet(k: Keying, now: DateTime, es: seq<SecurityEvent>): set<string> {
    set e | e in es && InWindow(k.WindowMinutes(), now, e) && SubjectOf(k, e).Some? :: SubjectOf(k, e).value
  }

  /** A subject's evidence as the alert will cite it: oldest first. Rule 3 sorts
      its refusals and its requests together again, so that among events of one
      moment the refusals come first. */
  function Evidence(k: Keying, s: string, now: DateTime, es: seq<SecurityEvent>): seq<SecurityEvent> {
    var all := Sort(TimeOrder(), es);
    if k == BySource then
      Sort(TimeOrder(), Filter(CountsTyped(k, s, now, RateLimitExceeded), all)
                        + Filter(CountsTyped(k, s, now, RequestReceived), all))
    else Filter(Counts(k, s, now), all)
  }

  // ------------------------------------------------------------ when it is enough

  predicate AnyOfType(t: EventType, evidence: seq<SecurityEvent>) {
    exists e :: e in evidence && e.eventType == t
  }

  predicate Fires(k: Keying, evidence: seq<SecurityEvent>) {
    match k
    case ByUser => |evidence| >= FAILURE_THRESHOLD
    case ByAddress => |evidence| >= FAILURE_THRESHOLD
    case BySubject => |evidence| >= REFUSAL_THRESHOLD
    case BySource =>
      || |Filter(OfType(RateLimitExceeded), evidence)| >= RATE_LIMIT_THRESHOLD
      || |Filter(OfType(RequestReceived), evidence)| >= REQUEST_THRESHOLD
    case ByService =>
      || AnyOfType(CircuitOpened, evidence)
      || AnyOfType(HealthCheckFailed, evidence)
      || |Filter(Failures(), evidence)| >= SERVICE_FAILURE_THRESHOLD
  }

  // ---------------------------------------------------------------- the alert

  function Users(es: seq<SecurityEvent>): set<string> {
    set e | e in es && Truthy(e.userId) :: e.userId.value
  }

  function Addresses(es: seq<SecurityEvent>): set<string> {
    set e | e in es && Truthy(e.sourceIp) :: e.sourceIp.value
  }

  function ServiceNames(es: seq<SecurityEvent>): set<string> {
    set e | e in es :: e.serviceName
  }

  function Endpoints(es: seq<SecurityEvent>): set<string> {
    set e | e in es :: e.endpoint
  }

  function PrivilegedEndpoints(es: seq<SecurityEvent>): set<string> {
    set e | e in es && IsPrivileged(e.endpoint) :: e.endpoint
  }

  function EventIds(es: seq<SecurityEvent>): (ids: seq<string>)
    ensures |ids| == |es|
  {
    seq(|es|, i requires 0 <= i < |es| => es[i].eventId)
  }

  /** The one element of a singleton, else nothing. */
  function Only(names: set<string>): Option<string> {
    var sorted := SortedKeys(names);
    if |sorted| == 1 then Some(sorted[0]) else None
  }

  function SeverityOf(k: Keying, evidence: seq<SecurityEvent>): Severity {
    if k == BySubject && PrivilegedEndpoints(evidence) != {} then High else k.RuleOf().DefaultSeverity()
  }

  function Describe(k: Keying, s: string, evidence: seq<SecurityEvent>, recovered: bool): Description {
    match k
    case ByUser => FailedLoginsForUser(|evidence|, s, |SortedKeys(Addresses(evidence))|)
    case ByAddress => FailedLoginsFromAddress(|evidence|, s, |SortedKeys(Users(evidence))|)
    case BySubject =>
      UnauthorisedRequests(|evidence|, s, |SortedKeys(Endpoints(evidence))|, SortedKeys(PrivilegedEndpoints(evidence)))
    case BySource =>
      var refused := |Filter(OfType(RateLimitExceeded), evidence)|;
      var received := |Filter(OfType(RequestReceived), evidence)|;
      AbnormalRate(s,
                   if refused >= RATE_LIMIT_THRESHOLD then Some(refused) else None,
                   if received >= REQUEST_THRESHOLD then Some(received) else None,
                   SortedKeys(ServiceNames(evidence)))
    case ByService =>
      ServiceFailing(s, AnyOfType(CircuitOpened, evidence), AnyOfType(HealthCheckFailed, evidence),
                     |Filter(Failures(), evidence)|, recovered)
  }

  function AffectedService(k: Keying, s: string, evidence: seq<SecurityEvent>): Option<string>
    requires evidence != []
  {
    match k
    case BySource => Only(ServiceNames(evidence))
    case ByService => Some(s)
    case _ => Some(evidence[|evidence| - 1].serviceName)
  }

  function AffectedUser(k: Keying, s: string, evidence: seq<SecurityEvent>): Option<string>
    requires evidence != []
  {
    match k
    case ByUser => Some(s)
    case ByAddress => Only(Users(evidence))
    case BySubject => evidence[|evidence| - 1].userId
    case BySource => Only(Users(evidence))
    case ByService => None
  }

  function AffectedEntity(k: Keying, s: string, evidence: seq<SecurityEvent>): Option<string>
    requires evidence != []
  {
    var last := evidence[|evidence| - 1];
    match k
    case ByUser => Some(LOGIN_ENDPOINT)
    case ByAddress => Some(LOGIN_ENDPOINT)
    case BySubject =>
      assert last.endpoint in Endpoints(evidence);
      if PrivilegedEndpoints(evidence) != {} then Some(Least(PrivilegedEndpoints(evidence)))
      else Some(Least(Endpoints(evidence)))
    case BySource => Some(s)
    case ByService => if Truthy(last.affectedEntity) then last.affectedEntity else Some(last.endpoint)
  }

  /** The alert a subject's evidence raises, before an identifier is minted. */
  function Draft(k: Keying, s: string, now: DateTime, evidence: seq<SecurityEvent>, recovered: bool): Alert
    requires now.Valid() && evidence != []
  {
    Alert("", Format(now), k.RuleOf(), SeverityOf(k, evidence), Open,
          Describe(k, s, evidence, recovered), EventIds(evidence),
          AffectedService(k, s, evidence), AffectedUser(k, s, evidence), AffectedEntity(k, s, evidence))
  }

  /** A breaker of this service closed inside Rule 4's window. */
  predicate Recovered(s: string, now: DateTime, es: seq<SecurityEvent>) {
    exists e :: e in es && InWindow(ByService.WindowMinutes(), now, e) && e.eventType == CircuitClosed
                && e.serviceName == s
  }

  predicate Alerted(k: Keying, s: string, now: DateTime, es: seq<SecurityEvent>) {
    Evidence(k, s, now, es) != [] && Fires(k, Evidence(k, s, now, es))
  }

  function DraftFor(k: Keying, s: string, now: DateTime, es: seq<SecurityEvent>): Alert
    requires now.Valid() && Evidence(k, s, now, es) != []
  {
    Draft(k, s, now, Evidence(k, s, now, es), Recovered(s, now, es))
  }

  function RaiseFor(k: Keying, now: DateTime, es: seq<SecurityEvent>): string -> seq<Alert>
    requires now.Valid()
  {
    (s: string) => if Alerted(k, s, now, es) then [DraftFor(k, s, now, es)] else []
  }

  /** Everything one keying raises, its subjects in ascending order. */
  function Drafts(k: Keying, now: DateTime, es: seq<SecurityEvent>): seq<Alert>
    requires now.Valid()
  {
    FlatMap(RaiseFor(k, now, es), SortedKeys(SubjectSet(k, now, es)))
  }

  /** What one rule raises; Rule 1 alerts on users first, then on addresses. */
  function RuleDrafts(now: DateTime, es: seq<SecurityEvent>): Rule -> seq<Alert>
    requires now.Valid()
  {
    (rule: Rule) =>
      match rule
      case MultipleFailedLoginsRule => Drafts(ByUser, now, es) + Drafts(ByAddress, now, es)
      case UnauthorisedAccessRule => Drafts(BySubject, now, es)
      case AbnormalRequestRateRule => Drafts(BySource, now, es)
      case ServiceFailureRule => Drafts(ByService, now, es)
  }

  /** Everything the catalogue raises, in catalogue order. */
  function AllDrafts(now: DateTime, es: seq<SecurityEvent>): seq<Alert>
    requires now.Valid()
  {
    FlatMap(RuleDrafts(now, es), ALL_RULES)
  }

  /** The drafts with the identifiers the supply hands out from the `n`-th on. */
  function Mint(drafts: seq<Alert>, supply: nat -> string, n: nat): (alerts: seq<Alert>)
    ensures |alerts| == |drafts|
  {
    seq(|drafts|, i requires 0 <= i < |drafts| => drafts[i].(alertId := supply(n + i)))
  }

  lemma {:induction false} MintConcat(a: seq<Alert>, b: seq<Alert>, supply: nat -> string, n: nat)
    ensures Mint(a + b, supply, n) == Mint(a, supply, n) + Mint(b, supply, n + |a|)
  {
  }

  // ------------------------------------------------------------- evidence facts

  /** Time order decides how evidence is cited, never what it is. */
  lemma {:induction false} EvidenceElements(k: Keying, s: string, now: DateTime, es: seq<SecurityEvent>)
    ensures multiset(Evidence(k, s, now, es)) == multiset(Filter(Counts(k, s, now), es))
    ensures forall e :: e in Evidence(k, s, now, es) <==> e in es && Counts(k, s, now)(e)
    ensures |Evidence(k, s, now, es)| == |Filter(Counts(k, s, now), es)|
  {
    var all := Sort(TimeOrder(), es);
    TimeOrderIsTotal();
    SortSorts(TimeOrder(), es);
    FilterPermutation(Counts(k, s, now), all, es);
    FilterIn(Counts(k, s, now), es);
    if k == BySource {
      var refused := Filter(CountsTyped(k, s, now, RateLimitExceeded), all);
      var received := Filter(CountsTyped(k, s, now, RequestReceived), all);
      SortSorts(TimeOrder(), refused + received);
      SplitByType(s, now, all);
    }
    SameMultiset(Evidence(k, s, now, es), Filter(Counts(k, s, now), es));
  }

  lemma {:induction false} SameMultiset(xs: seq<SecurityEvent>, ys: seq<SecurityEvent>)
    requires multiset(xs) == multiset(ys)
    ensures |xs| == |ys|
    ensures forall e :: e in xs <==> e in ys
  {
    assert |xs| == |multiset(xs)| && |ys| == |multiset(ys)|;
    forall e
      ensures e in xs <==> e in ys
    {
      assert e in xs <==> e in multiset(xs);
      assert e in ys <==> e in multiset(ys);
    }
  }

  /** Rule 3's two lists partition the source's evidence. */
  lemma {:induction false} SplitByType(s: string, now: DateTime, all: seq<SecurityEvent>)
    ensures multiset(Filter(CountsTyped(BySource, s, now, RateLimitExceeded), all)
                     + Filter(CountsTyped(BySource, s, now, RequestReceived), all))
      == multiset(Filter(Counts(BySource, s, now), all))
  {
    var p, q, r := CountsTyped(BySource, s, now, RateLimitExceeded),
                   CountsTyped(BySource, s, now, RequestReceived), Counts(BySource, s, now);
    var both := Filter(p, all) + Filter(q, all);
    assert multiset(both) == multiset(Filter(p, all)) + multiset(Filter(q, all));
    forall e
      ensures multiset(both)[e] == multiset(Filter(r, all))[e]
    {
      FilterCount(p, all, e);
      FilterCount(q, all, e);
      FilterCount(r, all, e);
    }
  }

  /** Evidence is cited oldest first. */
  lemma {:induction false} EvidenceInOrder(k: Keying, s: string, now: DateTime, es: seq<SecurityEvent>)
    ensures Sorted(TimeOrder(), Evidence(k, s, now, es))
  {
    var all := Sort(TimeOrder(), es);
    TimeOrderIsTotal();
    SortSorts(TimeOrder(), es);
    if k == BySource {
      SortSorts(TimeOrder(), Filter(CountsTyped(k, s, now, RateLimitExceeded), all)
                             + Filter(CountsTyped(k, s, now, RequestReceived), all));
    } else {
      FilterKeepsSorted(TimeOrder(), Counts(k, s, now), all);
    }
  }
}
