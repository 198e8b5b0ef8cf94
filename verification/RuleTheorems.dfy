/** What the rules guarantee over whole streams: soundness and completeness,
    indifference to ingestion order, and monotonicity in the evidence. */
module RuleTheorems {
  import opened Wrappers
  import opened Sequences
  import opened Strings
  import opened Timestamps
  import opened Events
  import opened EventStores
  import opened Alerts
  import opened Detection
  import opened Rules

  // ------------------------------------------------- thresholds, without sorting

  function All(): SecurityEvent -> bool {
    (e: SecurityEvent) => true
  }

  /** At most so many microseconds before the moment of evaluation, and not after it. */
  predicate NoOlderThan(micros: int, now: DateTime, e: SecurityEvent) {
    0 <= now.Instant() - Moment(e) <= micros
  }

  /** The requirement, in the fields of an event: what is evidence against whom. Five
      minutes of failed logins by user and by address, ten minutes of refusals other than
      failed logins, one minute of requests and throttled requests by address, five
      minutes of failures by service. */
  function Against(k: Keying, s: string, now: DateTime): SecurityEvent -> bool {
    (e: SecurityEvent) =>
      match k
      case ByUser => e.eventType == AuthFailed && e.userId == Some(s) && NoOlderThan(300_000_000, now, e)
      case ByAddress => e.eventType == AuthFailed && e.sourceIp == Some(s) && NoOlderThan(300_000_000, now, e)
      case BySubject =>
        && e.eventType != AuthFailed
        && (e.eventType == UnauthorisedAccess || e.statusCode == 401 || e.statusCode == 403)
        && s == (match (e.userId, e.sourceIp)
                 case (Some(user), Some(address)) =>
                   if user != "" then user else if address != "" then address else "unattributed"
                 case (Some(user), None) => if user != "" then user else "unattributed"
                 case (None, Some(address)) => if address != "" then address else "unattributed"
                 case (None, None) => "unattributed")
        && NoOlderThan(600_000_000, now, e)
      case BySource =>
        && (e.eventType == RequestReceived || e.eventType == RateLimitExceeded)
        && e.sourceIp == Some(s) && s != "" && NoOlderThan(60_000_000, now, e)
      case ByService =>
        && (e.eventType == CircuitOpened || e.eventType == HealthCheckFailed || e.eventType == DependencyFailure
            || e.eventType == ServiceError)
        && e.serviceName == s && NoOlderThan(300_000_000, now, e)
  }

  /** It is what the rules count. */
  lemma {:induction false} CountsIff(k: Keying, s: string, now: DateTime)
    ensures forall e :: Counts(k, s, now)(e) <==> Against(k, s, now)(e)
  {
    hide Moment, DateTime.Instant;
    forall e: SecurityEvent
      ensures Counts(k, s, now)(e) <==> Against(k, s, now)(e)
    {
      CountsOne(k, s, now, e);
    }
  }

  lemma {:induction false} CountsOne(k: Keying, s: string, now: DateTime, e: SecurityEvent)
    ensures Counts(k, s, now)(e) <==> Against(k, s, now)(e)
  {
    hide Moment, DateTime.Instant;
  }

  function FailureKinds(): SecurityEvent -> bool {
    (e: SecurityEvent) => e.eventType == DependencyFailure || e.eventType == ServiceError
  }

  /** How many collected events of a kind count against `s`. */
  function Tally(k: Keying, s: string, now: DateTime, kind: SecurityEvent -> bool, es: seq<SecurityEvent>): nat {
    |Filter(Both(Against(k, s, now), kind), es)|
  }

  predicate AnyCounted(k: Keying, s: string, now: DateTime, t: EventType, es: seq<SecurityEvent>) {
    exists e :: e in es && Against(k, s, now)(e) && e.eventType == t
  }

  /** The specification's thresholds, over the events as they were ingested. */
  predicate OverThreshold(k: Keying, s: string, now: DateTime, es: seq<SecurityEvent>) {
    match k
    case ByUser => Tally(k, s, now, All(), es) >= 5
    case ByAddress => Tally(k, s, now, All(), es) >= 5
    case BySubject => Tally(k, s, now, All(), es) >= 3
    case BySource =>
      Tally(k, s, now, OfType(RateLimitExceeded), es) >= 3 || Tally(k, s, now, OfType(RequestReceived), es) >= 30
    case ByService =>
      || AnyCounted(k, s, now, CircuitOpened, es)
      || AnyCounted(k, s, now, HealthCheckFailed, es)
      || Tally(k, s, now, FailureKinds(), es) >= 3
  }

  lemma {:induction false} TallyOfEvidence(k: Keying, s: string, now: DateTime, kind: SecurityEvent -> bool,
                                           es: seq<SecurityEvent>)
    ensures Tally(k, s, now, kind, es) == |Filter(kind, Evidence(k, s, now, es))|
  {
    hide Moment, Counts, Against, Evidence, Sort, Filter;
    EvidenceElements(k, s, now, es);
    FilterPermutation(kind, Evidence(k, s, now, es), Filter(Counts(k, s, now), es));
    CountsIff(k, s, now);
    FilterFilter(Counts(k, s, now), kind, Both(Against(k, s, now), kind), es);
  }

  lemma {:induction false} FilterAll(xs: seq<SecurityEvent>)
    ensures Filter(All(), xs) == xs
  {
    if xs != [] {
      FilterAll(xs[..|xs| - 1]);
      assert xs == xs[..|xs| - 1] + [xs[|xs| - 1]];
    }
  }

  /** A rule alerts on a subject exactly when the ingested events say so. */
  lemma {:induction false} AlertedIff(k: Keying, s: string, now: DateTime, es: seq<SecurityEvent>)
    ensures Alerted(k, s, now, es) <==> OverThreshold(k, s, now, es)
    ensures Evidence(k, s, now, es) != [] ==> s in SubjectSet(k, now, es)
  {
    hide Moment, Evidence, Sort, Filter, Against, NoOlderThan;
    var evidence := Evidence(k, s, now, es);
    EvidenceElements(k, s, now, es);
    TallyOfEvidence(k, s, now, All(), es);
    FilterAll(evidence);
    TallyOfEvidence(k, s, now, OfType(RateLimitExceeded), es);
    TallyOfEvidence(k, s, now, OfType(RequestReceived), es);
    TallyOfEvidence(k, s, now, FailureKinds(), es);
    FilterSame(Failures(), FailureKinds(), evidence);
    CountsIff(k, s, now);
    if evidence != [] {
      var e := evidence[0];
      assert e in es && Counts(k, s, now)(e);
    }
  }

  // ------------------------------------------------------ soundness, completeness

  function IsAlerted(k: Keying, now: DateTime, es: seq<SecurityEvent>): string -> bool {
    (s: string) => OverThreshold(k, s, now, es)
  }

  /** The subjects over their threshold, ascending. */
  function AlertedSubjects(k: Keying, now: DateTime, es: seq<SecurityEvent>): seq<string> {
    Filter(IsAlerted(k, now, es), SortedKeys(SubjectSet(k, now, es)))
  }

  lemma {:induction false} AscendingKept(p: string -> bool, xs: seq<string>)
    requires StrictlyAscending(xs)
    ensures StrictlyAscending(Filter(p, xs))
  {
    if xs != [] {
      var front, last := xs[..|xs| - 1], xs[|xs| - 1];
      AscendingKept(p, front);
      FilterIn(p, front);
      var kept := Filter(p, front);
      forall i | 0 <= i < |kept|
        ensures Leq(kept[i], last) && kept[i] != last
      {
        assert kept[i] in front;
        var j :| 0 <= j < |front| && front[j] == kept[i];
        assert xs[j] == front[j];
      }
    }
  }

  lemma {:induction false} AlertedSubjectsExact(k: Keying, now: DateTime, es: seq<SecurityEvent>)
    ensures StrictlyAscending(AlertedSubjects(k, now, es))
    ensures forall s :: s in AlertedSubjects(k, now, es) <==> OverThreshold(k, s, now, es)
  {
    hide Moment, Evidence, OverThreshold, SubjectSet, Filter;
    var keys := SortedKeys(SubjectSet(k, now, es));
    AscendingKept(IsAlerted(k, now, es), keys);
    FilterIn(IsAlerted(k, now, es), keys);
    forall s | OverThreshold(k, s, now, es)
      ensures s in keys
    {
      AlertedIff(k, s, now, es);
    }
  }

  lemma {:induction false} RaisedOnePerSubject(k: Keying, now: DateTime, es: seq<SecurityEvent>, subjects: seq<string>)
    requires now.Valid()
    ensures var raised, alerted := FlatMap(RaiseFor(k, now, es), subjects), Filter(IsAlerted(k, now, es), subjects);
      && |raised| == |alerted|
      && forall i :: 0 <= i < |raised| ==>
           Alerted(k, alerted[i], now, es) && raised[i] == DraftFor(k, alerted[i], now, es)
  {
    hide Moment, Evidence, OverThreshold, DraftFor, Alerted;
    if subjects != [] {
      RaisedOnePerSubject(k, now, es, subjects[..|subjects| - 1]);
      AlertedIff(k, subjects[|subjects| - 1], now, es);
    }
  }

  /** Each keying raises exactly one alert per subject over its threshold, in
      ascending subject order, and cites exactly that subject's windowed
      evidence, oldest first. */
  lemma {:induction false} RulesSoundAndComplete(k: Keying, now: DateTime, es: seq<SecurityEvent>)
    requires now.Valid()
    ensures var drafts, subjects := Drafts(k, now, es), AlertedSubjects(k, now, es);
      && StrictlyAscending(subjects)
      && (forall s :: s in subjects <==> OverThreshold(k, s, now, es))
      && |drafts| == |subjects|
      && forall i :: 0 <= i < |drafts| ==> IsAlertFor(drafts[i], k, subjects[i], now, es)
  {
    hide Moment, Evidence, OverThreshold, SubjectSet, IsAlertFor, DraftFor;
    AlertedSubjectsExact(k, now, es);
    RaisedOnePerSubject(k, now, es, SortedKeys(SubjectSet(k, now, es)));
    var drafts, subjects := Drafts(k, now, es), AlertedSubjects(k, now, es);
    forall i | 0 <= i < |drafts|
      ensures IsAlertFor(drafts[i], k, subjects[i], now, es)
    {
      DraftIsAlertFor(k, subjects[i], now, es);
    }
  }

  /** An alert of this keying's rule that names `s` and cites its evidence. */
  ghost predicate IsAlertFor(a: Alert, k: Keying, s: string, now: DateTime, es: seq<SecurityEvent>)
    requires now.Valid()
  {
    && a.rule == (match k
                  case ByUser => MultipleFailedLoginsRule
                  case ByAddress => MultipleFailedLoginsRule
                  case BySubject => UnauthorisedAccessRule
                  case BySource => AbnormalRequestRateRule
                  case ByService => ServiceFailureRule)
    && SubjectNamed(a.description) == s
    && a.timestamp == Format(now)
    && a.status == Open
    && a.severity == (if k != BySubject || (exists e :: e in es && Against(k, s, now)(e) && OnUsersRoute(e.endpoint))
                      then High else Medium)
    && exists cited: seq<SecurityEvent> :: CitesExactly(a, cited, k, s, now, es) && Tells(a, k, s, cited, now, es)
  }

  /** The privileged route. */
  predicate OnUsersRoute(endpoint: string) {
    "/api/v1/auth/users" <= endpoint
  }

  /** Everything the alert says beside its citations, in terms of them: whom and what
      it counts, lists and is attributed to. */
  ghost predicate Tells(a: Alert, k: Keying, s: string, cited: seq<SecurityEvent>, now: DateTime,
                        es: seq<SecurityEvent>)
  {
    cited != [] &&
    var last := cited[|cited| - 1];
    match k
    case ByUser =>
      && a.description == FailedLoginsForUser(|cited|, s, |NamedAddresses(cited)|)
      && a.affectedService == Some(last.serviceName) && a.affectedUser == Some(s)
      && a.affectedEntity == Some("login-endpoint")
    case ByAddress =>
      && a.description == FailedLoginsFromAddress(|cited|, s, |NamedUsers(cited)|)
      && a.affectedService == Some(last.serviceName) && NamesSoleUser(a.affectedUser, cited)
      && a.affectedEntity == Some("login-endpoint")
    case BySubject =>
      && a.description.UnauthorisedRequests?
      && a.description.(privileged := []) == UnauthorisedRequests(|cited|, s, |set e | e in cited :: e.endpoint|, [])
      && Lists(a.description.privileged, set e | e in cited && OnUsersRoute(e.endpoint) :: e.endpoint)
      && a.affectedService == Some(last.serviceName) && a.affectedUser == last.userId
      && NamesFirstEndpoint(a.affectedEntity, cited)
    case BySource =>
      && a.description.AbnormalRate?
      && a.description.(services := [])
         == AbnormalRate(s, AtLeast(3, |Filter(OfType(RateLimitExceeded), cited)|),
                         AtLeast(30, |Filter(OfType(RequestReceived), cited)|), [])
      && Lists(a.description.services, set e | e in cited :: e.serviceName)
      && NamesSoleService(a.affectedService, cited) && NamesSoleUser(a.affectedUser, cited)
      && a.affectedEntity == Some(s)
    case ByService =>
      && a.description.ServiceFailing? && a.description.service == s
      && (a.description.breakerOpened <==> exists e :: e in cited && e.eventType == CircuitOpened)
      && (a.description.healthFailed <==> exists e :: e in cited && e.eventType == HealthCheckFailed)
      && a.description.errors == |Filter(FailureKinds(), cited)|
      && (a.description.recovered <==> exists e :: e in es && e.eventType == CircuitClosed && e.serviceName == s
                                                    && NoOlderThan(300_000_000, now, e))
      && a.affectedService == Some(s) && a.affectedUser == None
      && a.affectedEntity == Some(match last.affectedEntity
                                  case Some(entity) => if entity != "" then entity else last.endpoint
                                  case None => last.endpoint)
  }

  /** The addresses some event names; an empty one is none. */
  function NamedAddresses(cited: seq<SecurityEvent>): set<string> {
    set e | e in cited && e.sourceIp.Some? && e.sourceIp.value != "" :: e.sourceIp.value
  }

  function NamedUsers(cited: seq<SecurityEvent>): set<string> {
    set e | e in cited && e.userId.Some? && e.userId.value != "" :: e.userId.value
  }

  /** A user is named exactly when some cited event names it and none names another. */
  ghost predicate NamesSoleUser(named: Option<string>, cited: seq<SecurityEvent>) {
    forall u :: named == Some(u) <==>
                  && u != "" && (exists e :: e in cited && e.userId == Some(u))
                  && forall e :: e in cited && e.userId.Some? && e.userId.value != "" ==> e.userId == Some(u)
  }

  /** A service is named exactly when every cited event is its own. */
  ghost predicate NamesSoleService(named: Option<string>, cited: seq<SecurityEvent>) {
    forall n :: named == Some(n) <==> cited != [] && forall e :: e in cited ==> e.serviceName == n
  }

  /** The first by name of the cited endpoints, of the privileged ones if there are any. */
  ghost predicate NamesFirstEndpoint(named: Option<string>, cited: seq<SecurityEvent>) {
    && named.Some?
    && (exists e :: e in cited && e.endpoint == named.value)
    && (forall e :: e in cited && OnUsersRoute(e.endpoint) ==> OnUsersRoute(named.value))
    && (forall e :: e in cited && (OnUsersRoute(e.endpoint) || !OnUsersRoute(named.value)) ==>
         Leq(named.value, e.endpoint))
  }

  /** In ascending order, each once. */
  ghost predicate Lists(xs: seq<string>, names: set<string>) {
    StrictlyAscending(xs) && forall x :: x in xs <==> x in names
  }

  /** A count worth stating. */
  function AtLeast(threshold: nat, n: nat): Option<nat> {
    if n >= threshold then Some(n) else None
  }

  ghost predicate CitesExactly(a: Alert, cited: seq<SecurityEvent>, k: Keying, s: string, now: DateTime,
                               es: seq<SecurityEvent>) {
    && a.relatedEvents == EventIds(cited)
    && Sorted(TimeOrder(), cited)
    && multiset(cited) == multiset(Filter(Against(k, s, now), es))
  }

  function SubjectNamed(d: Description): string {
    match d
    case FailedLoginsForUser(_, user, _) => user
    case FailedLoginsFromAddress(_, address, _) => address
    case UnauthorisedRequests(_, subject, _, _) => subject
    case AbnormalRate(source, _, _, _) => source
    case ServiceFailing(service, _, _, _, _) => service
  }

  lemma {:induction false} DraftIsAlertFor(k: Keying, s: string, now: DateTime, es: seq<SecurityEvent>)
    requires now.Valid() && Evidence(k, s, now, es) != []
    ensures IsAlertFor(DraftFor(k, s, now, es), k, s, now, es)
  {
    hide Moment, Evidence, Format, Counts, Against, Recovered, Filter, Sorted, EventIds, SortedKeys, AffectedEntity,
      AffectedService, AffectedUser, Tells, NoOlderThan, SeverityOf;
    EvidenceElements(k, s, now, es);
    EvidenceInOrder(k, s, now, es);
    CountsIff(k, s, now);
    FilterSame(Counts(k, s, now), Against(k, s, now), es);
    var evidence := Evidence(k, s, now, es);
    assert CitesExactly(DraftFor(k, s, now, es), evidence, k, s, now, es);
    DraftTells(k, s, now, es);
    SeverityIs(k, evidence);
  }

  lemma {:induction false} SeverityIs(k: Keying, cited: seq<SecurityEvent>)
    ensures SeverityOf(k, cited)
      == if k != BySubject || (exists e :: e in cited && OnUsersRoute(e.endpoint)) then High else Medium
  {
    if e :| e in cited && OnUsersRoute(e.endpoint) {
      assert e.endpoint in PrivilegedEndpoints(cited);
    }
  }

  lemma {:induction false} EachKeyOnce(names: set<string>)
    ensures |SortedKeys(names)| == |names|
    decreases |names|
  {
    if names != {} {
      EachKeyOnce(names - {Least(names)});
    }
  }

  lemma {:induction false} OnlyIff(names: set<string>, n: string)
    ensures Only(names) == Some(n) <==> names == {n}
  {
    EachKeyOnce(names);
    var sorted := SortedKeys(names);
    if |sorted| == 1 {
      assert forall x :: x in names <==> x == sorted[0];
      assert names == {sorted[0]};
    }
    if names == {n} {
      assert sorted[0] in names;
    }
  }

  lemma {:induction false} SoleUserNamed(cited: seq<SecurityEvent>)
    ensures NamesSoleUser(Only(Users(cited)), cited)
  {
    hide Only;
    forall u
      ensures Only(Users(cited)) == Some(u) <==>
                && u != "" && (exists e :: e in cited && e.userId == Some(u))
                && forall e :: e in cited && Truthy(e.userId) ==> e.userId == Some(u)
    {
      OnlyIff(Users(cited), u);
      assert forall e :: e in cited && Truthy(e.userId) ==> e.userId.value in Users(cited);
      if u in Users(cited) {
        var e :| e in cited && Truthy(e.userId) && e.userId.value == u;
        assert e.userId == Some(u);
      }
      assert Users(cited) == {u} <==> u in Users(cited) && forall n :: n in Users(cited) ==> n == u;
    }
  }

  lemma {:induction false} SoleServiceNamed(cited: seq<SecurityEvent>)
    ensures NamesSoleService(Only(ServiceNames(cited)), cited)
  {
    hide Only;
    forall n
      ensures Only(ServiceNames(cited)) == Some(n) <==> cited != [] && forall e :: e in cited ==> e.serviceName == n
    {
      OnlyIff(ServiceNames(cited), n);
      assert forall e :: e in cited ==> e.serviceName in ServiceNames(cited);
      assert cited == [] || cited[0] in cited;
      assert ServiceNames(cited) == {n} <==>
        n in ServiceNames(cited) && forall m :: m in ServiceNames(cited) ==> m == n;
    }
  }

  lemma {:induction false} FirstEndpointNamed(s: string, cited: seq<SecurityEvent>)
    requires cited != []
    ensures NamesFirstEndpoint(AffectedEntity(BySubject, s, cited), cited)
  {
    hide Leq;
    var last, named := cited[|cited| - 1], AffectedEntity(BySubject, s, cited);
    assert last.endpoint in Endpoints(cited);
    var among := if PrivilegedEndpoints(cited) != {} then PrivilegedEndpoints(cited) else Endpoints(cited);
    assert IsLeast(among, named.value);
    forall e | e in cited
      ensures e.endpoint in Endpoints(cited)
      ensures OnUsersRoute(e.endpoint) ==> e.endpoint in PrivilegedEndpoints(cited)
    {
    }
  }

  lemma {:induction false} SameSets(cited: seq<SecurityEvent>)
    ensures Addresses(cited) == NamedAddresses(cited) && Users(cited) == NamedUsers(cited)
    ensures Endpoints(cited) == set e | e in cited :: e.endpoint
    ensures ServiceNames(cited) == set e | e in cited :: e.serviceName
    ensures PrivilegedEndpoints(cited) == set e | e in cited && OnUsersRoute(e.endpoint) :: e.endpoint
  {
  }

  lemma {:induction false} RecoveredIff(s: string, now: DateTime, es: seq<SecurityEvent>)
    ensures Recovered(s, now, es)
      <==> exists e :: e in es && e.eventType == CircuitClosed && e.serviceName == s && NoOlderThan(300_000_000, now, e)
  {
    hide Moment, DateTime.Instant;
  }

  lemma {:induction false} DraftTells(k: Keying, s: string, now: DateTime, es: seq<SecurityEvent>)
    requires now.Valid() && Evidence(k, s, now, es) != []
    ensures Tells(DraftFor(k, s, now, es), k, s, Evidence(k, s, now, es), now, es)
  {
    hide Evidence, Format, Recovered, Filter, EventIds, SortedKeys, Only, NamesSoleUser, NamesSoleService,
      NamesFirstEndpoint, Users, Addresses, Endpoints, PrivilegedEndpoints, ServiceNames, SeverityOf, NamedUsers,
      NamedAddresses, OnUsersRoute, NoOlderThan;
    var evidence := Evidence(k, s, now, es);
    SameSets(evidence);
    match k
    case ByUser => EachKeyOnce(Addresses(evidence));
    case ByAddress =>
      EachKeyOnce(Users(evidence));
      SoleUserNamed(evidence);
    case BySubject =>
      EachKeyOnce(Endpoints(evidence));
      FirstEndpointNamed(s, evidence);
    case BySource =>
      SoleUserNamed(evidence);
      SoleServiceNamed(evidence);
    case ByService =>
      RecoveredIff(s, now, es);
      FilterSame(Failures(), FailureKinds(), evidence);
  }

  // ------------------------------------------------------------- ingestion order

  lemma {:induction false} TallyPermuted(k: Keying, s: string, now: DateTime, kind: SecurityEvent -> bool,
                                         es: seq<SecurityEvent>, fs: seq<SecurityEvent>)
    requires multiset(es) == multiset(fs)
    ensures Tally(k, s, now, kind, es) == Tally(k, s, now, kind, fs)
  {
    FilterPermutation(Both(Against(k, s, now), kind), es, fs);
  }

  lemma {:induction false} ThresholdPermuted(k: Keying, s: string, now: DateTime, es: seq<SecurityEvent>,
                                             fs: seq<SecurityEvent>)
    requires multiset(es) == multiset(fs)
    ensures OverThreshold(k, s, now, es) <==> OverThreshold(k, s, now, fs)
  {
    hide Moment, Tally, Against;
    SameMultiset(es, fs);
    TallyPermuted(k, s, now, All(), es, fs);
    TallyPermuted(k, s, now, OfType(RateLimitExceeded), es, fs);
    TallyPermuted(k, s, now, OfType(RequestReceived), es, fs);
    TallyPermuted(k, s, now, FailureKinds(), es, fs);
  }

  /** Two alerts about the same finding: they may cite events of one moment in
      another order, and may differ in what is read off the last event. */
  ghost predicate SameFinding(a: Alert, b: Alert) {
    && a.rule == b.rule && a.severity == b.severity && a.status == b.status
    && a.timestamp == b.timestamp && a.description == b.description
    && multiset(a.relatedEvents) == multiset(b.relatedEvents)
  }

  function HasId(id: string): SecurityEvent -> bool {
    (e: SecurityEvent) => e.eventId == id
  }

  lemma {:induction false} IdCount(es: seq<SecurityEvent>, id: string)
    ensures multiset(EventIds(es))[id] == |Filter(HasId(id), es)|
  {
    if es != [] {
      var front, last := es[..|es| - 1], es[|es| - 1];
      IdCount(front, id);
      assert EventIds(es) == EventIds(front) + [last.eventId];
    }
  }

  lemma {:induction false} IdsPermuted(es: seq<SecurityEvent>, fs: seq<SecurityEvent>)
    requires multiset(es) == multiset(fs)
    ensures multiset(EventIds(es)) == multiset(EventIds(fs))
  {
    forall id
      ensures multiset(EventIds(es))[id] == multiset(EventIds(fs))[id]
    {
      IdCount(es, id);
      IdCount(fs, id);
      FilterPermutation(HasId(id), es, fs);
    }
  }

  lemma {:induction false} DescriptionPermuted(k: Keying, s: string, evidence: seq<SecurityEvent>,
                                               other: seq<SecurityEvent>, recovered: bool)
    requires multiset(evidence) == multiset(other)
    ensures Describe(k, s, evidence, recovered) == Describe(k, s, other, recovered)
    ensures SeverityOf(k, evidence) == SeverityOf(k, other)
  {
    hide SortedKeys, Filter;
    SameMultiset(evidence, other);
    FilterPermutation(OfType(RateLimitExceeded), evidence, other);
    FilterPermutation(OfType(RequestReceived), evidence, other);
    FilterPermutation(Failures(), evidence, other);
    assert Addresses(evidence) == Addresses(other) && Users(evidence) == Users(other);
    assert Endpoints(evidence) == Endpoints(other) && ServiceNames(evidence) == ServiceNames(other);
    assert PrivilegedEndpoints(evidence) == PrivilegedEndpoints(other);
  }

  lemma {:induction false} DraftPermuted(k: Keying, s: string, now: DateTime, es: seq<SecurityEvent>,
                                         fs: seq<SecurityEvent>)
    requires now.Valid() && multiset(es) == multiset(fs)
    requires Evidence(k, s, now, es) != []
    ensures Evidence(k, s, now, fs) != []
    ensures SameFinding(DraftFor(k, s, now, es), DraftFor(k, s, now, fs))
  {
    hide Moment, Evidence, Format, Counts, Filter, EventIds, SortedKeys, Describe, SeverityOf, AffectedEntity,
      AffectedService, AffectedUser;
    EvidenceElements(k, s, now, es);
    EvidenceElements(k, s, now, fs);
    FilterPermutation(Counts(k, s, now), es, fs);
    SameMultiset(es, fs);
    IdsPermuted(Evidence(k, s, now, es), Evidence(k, s, now, fs));
    assert Recovered(s, now, es) == Recovered(s, now, fs);
    DescriptionPermuted(k, s, Evidence(k, s, now, es), Evidence(k, s, now, fs), Recovered(s, now, es));
  }

  /** At a fixed moment the order of ingestion changes no finding. */
  lemma {:induction false} IngestionOrderIrrelevant(k: Keying, now: DateTime, es: seq<SecurityEvent>,
                                                    fs: seq<SecurityEvent>)
    requires now.Valid() && multiset(es) == multiset(fs)
    ensures |Drafts(k, now, es)| == |Drafts(k, now, fs)|
    ensures forall i :: 0 <= i < |Drafts(k, now, es)| ==> SameFinding(Drafts(k, now, es)[i], Drafts(k, now, fs)[i])
  {
    hide Moment, Evidence, OverThreshold, SubjectSet, DraftFor, SameFinding, Filter;
    AlertedSubjectsExact(k, now, es);
    AlertedSubjectsExact(k, now, fs);
    forall s
      ensures OverThreshold(k, s, now, es) <==> OverThreshold(k, s, now, fs)
    {
      ThresholdPermuted(k, s, now, es, fs);
    }
    var subjects := AlertedSubjects(k, now, es);
    AscendingUnique(subjects, AlertedSubjects(k, now, fs));
    RaisedOnePerSubject(k, now, es, SortedKeys(SubjectSet(k, now, es)));
    RaisedOnePerSubject(k, now, fs, SortedKeys(SubjectSet(k, now, fs)));
    forall i | 0 <= i < |subjects|
      ensures SameFinding(Drafts(k, now, es)[i], Drafts(k, now, fs)[i])
    {
      DraftPermuted(k, subjects[i], now, es, fs);
    }
  }

  // ------------------------------------------------- what the last event decides

  /** What an alert's attribution takes from the last event of its evidence: its
      service, its user, its entity. */
  function ReadOffLast(k: Keying, e: SecurityEvent): (Option<string>, Option<string>, Option<string>) {
    match k
    case ByUser => (Some(e.serviceName), None, None)
    case ByAddress => (Some(e.serviceName), None, None)
    case BySubject => (Some(e.serviceName), e.userId, None)
    case BySource => (None, None, None)
    case ByService => (None, None, if Truthy(e.affectedEntity) then e.affectedEntity else Some(e.endpoint))
  }

  /** An event of the evidence's latest moment. */
  ghost predicate Latest(evidence: seq<SecurityEvent>, e: SecurityEvent) {
    e in evidence && forall d :: d in evidence ==> Moment(d) <= Moment(e)
  }

  /** The events of the latest moment do not differ in what is read off them. */
  ghost predicate LatestAgree(k: Keying, evidence: seq<SecurityEvent>) {
    forall a, b :: Latest(evidence, a) && Latest(evidence, b) ==> ReadOffLast(k, a) == ReadOffLast(k, b)
  }

  ghost predicate Rearranges(fs: seq<SecurityEvent>, es: seq<SecurityEvent>) {
    multiset(fs) == multiset(es)
  }

  predicate SameAttribution(a: Alert, b: Alert) {
    && a.affectedService == b.affectedService
    && a.affectedUser == b.affectedUser
    && a.affectedEntity == b.affectedEntity
  }

  lemma {:induction false} LastIsLatest(k: Keying, s: string, now: DateTime, es: seq<SecurityEvent>)
    requires Evidence(k, s, now, es) != []
    ensures var evidence := Evidence(k, s, now, es); Latest(evidence, evidence[|evidence| - 1])
  {
    hide Moment, Evidence;
    EvidenceInOrder(k, s, now, es);
    var evidence := Evidence(k, s, now, es);
    forall d | d in evidence
      ensures Moment(d) <= Moment(evidence[|evidence| - 1])
    {
      var i :| 0 <= i < |evidence| && evidence[i] == d;
      assert i < |evidence| - 1 ==> TimeOrder()(evidence[i], evidence[|evidence| - 1]);
    }
  }

  lemma {:induction false} SameEvidence(k: Keying, s: string, now: DateTime, es: seq<SecurityEvent>,
                                        fs: seq<SecurityEvent>)
    requires Rearranges(fs, es)
    ensures multiset(Evidence(k, s, now, es)) == multiset(Evidence(k, s, now, fs))
    ensures Evidence(k, s, now, es) == [] <==> Evidence(k, s, now, fs) == []
    ensures forall e :: Latest(Evidence(k, s, now, es), e) <==> Latest(Evidence(k, s, now, fs), e)
  {
    hide Moment, Evidence, Counts, Filter;
    EvidenceElements(k, s, now, es);
    EvidenceElements(k, s, now, fs);
    FilterPermutation(Counts(k, s, now), es, fs);
    SameMultiset(es, fs);
  }

  /** Apart from the last event the attribution depends on the evidence as a set. */
  lemma {:induction false} AttributionFromLast(k: Keying, s: string, evidence: seq<SecurityEvent>,
                                               other: seq<SecurityEvent>)
    requires evidence != [] && other != [] && multiset(evidence) == multiset(other)
    ensures (&& AffectedService(k, s, evidence) == AffectedService(k, s, other)
             && AffectedUser(k, s, evidence) == AffectedUser(k, s, other)
             && AffectedEntity(k, s, evidence) == AffectedEntity(k, s, other))
      <==> ReadOffLast(k, evidence[|evidence| - 1]) == ReadOffLast(k, other[|other| - 1])
  {
    hide SortedKeys, Only;
    SameMultiset(evidence, other);
    assert Users(evidence) == Users(other) && Endpoints(evidence) == Endpoints(other);
    assert ServiceNames(evidence) == ServiceNames(other) && PrivilegedEndpoints(evidence) == PrivilegedEndpoints(other);
    if k == BySubject {
      assert evidence[|evidence| - 1].endpoint in Endpoints(evidence);
    }
  }

  lemma {:induction false} DraftFromLast(k: Keying, s: string, now: DateTime, es: seq<SecurityEvent>,
                                         fs: seq<SecurityEvent>)
    requires now.Valid() && Rearranges(fs, es) && Evidence(k, s, now, es) != [] && Evidence(k, s, now, fs) != []
    ensures SameAttribution(DraftFor(k, s, now, es), DraftFor(k, s, now, fs))
      <==> ReadOffLast(k, Evidence(k, s, now, es)[|Evidence(k, s, now, es)| - 1])
           == ReadOffLast(k, Evidence(k, s, now, fs)[|Evidence(k, s, now, fs)| - 1])
  {
    hide Moment, Evidence, Format, AffectedService, AffectedUser, AffectedEntity, Describe, SeverityOf, EventIds,
      Recovered, ReadOffLast;
    SameEvidence(k, s, now, es, fs);
    AttributionFromLast(k, s, Evidence(k, s, now, es), Evidence(k, s, now, fs));
  }

  /** Ingested last, an event of the latest moment is cited last. */
  lemma {:induction false} LatestCanComeLast(k: Keying, s: string, now: DateTime, es: seq<SecurityEvent>,
                                             e: SecurityEvent)
    returns (fs: seq<SecurityEvent>)
    requires k != BySource && Latest(Evidence(k, s, now, es), e)
    ensures Rearranges(fs, es)
    ensures Evidence(k, s, now, fs) != [] && Evidence(k, s, now, fs)[|Evidence(k, s, now, fs)| - 1] == e
  {
    hide Moment, Counts, Filter, Sort, Evidence, Rearranges;
    EvidenceElements(k, s, now, es);
    var i :| 0 <= i < |es| && es[i] == e;
    var rest := es[..i] + es[i + 1..];
    fs := rest + [e];
    MovedLast(es, i);
    CitedLast(k, s, now, es, rest, e);
  }

  lemma {:induction false} MovedLast(es: seq<SecurityEvent>, i: nat)
    requires i < |es|
    ensures Rearranges(es[..i] + es[i + 1..] + [es[i]], es)
    ensures forall d :: d in es[..i] + es[i + 1..] ==> d in es
  {
    assert es == es[..i] + [es[i]] + es[i + 1..];
  }

  lemma {:induction false} CitedLast(k: Keying, s: string, now: DateTime, es: seq<SecurityEvent>,
                                     rest: seq<SecurityEvent>, e: SecurityEvent)
    requires k != BySource && Latest(Evidence(k, s, now, es), e) && Counts(k, s, now)(e)
    requires forall d :: d in rest ==> d in es
    ensures Evidence(k, s, now, rest + [e]) != []
    ensures Evidence(k, s, now, rest + [e])[|Evidence(k, s, now, rest + [e])| - 1] == e
  {
    hide Moment, Counts, Filter, InsertLast;
    var p := Counts(k, s, now);
    TimeOrderIsTotal();
    FilterSort(TimeOrder(), p, rest + [e]);
    FilterSnoc(p, rest, e);
    var kept := Filter(p, rest);
    assert (kept + [e])[..|kept|] == kept;
    InsertedLast(k, s, now, es, rest, e);
  }

  lemma {:induction false} InsertedLast(k: Keying, s: string, now: DateTime, es: seq<SecurityEvent>,
                                        rest: seq<SecurityEvent>, e: SecurityEvent)
    requires Latest(Evidence(k, s, now, es), e)
    requires forall d :: d in rest ==> d in es
    ensures var sorted := Sort(TimeOrder(), Filter(Counts(k, s, now), rest));
      InsertLast(TimeOrder(), sorted, e) == sorted + [e]
  {
    hide Moment, Counts, Filter, Sort, Evidence;
    var sorted := Sort(TimeOrder(), Filter(Counts(k, s, now), rest));
    TimeOrderIsTotal();
    SortSorts(TimeOrder(), Filter(Counts(k, s, now), rest));
    FilterIn(Counts(k, s, now), rest);
    EvidenceElements(k, s, now, es);
    if sorted != [] {
      assert sorted[|sorted| - 1] in sorted;
    }
  }

  /** No order of ingestion changes whom and what an alert is attributed to, exactly
      when the events of its evidence's latest moment agree on what is read off the
      last one. */
  lemma {:induction false} AttributionSettledIff(k: Keying, s: string, now: DateTime, es: seq<SecurityEvent>)
    requires now.Valid() && Evidence(k, s, now, es) != []
    ensures (forall fs :: Rearranges(fs, es) ==>
               Evidence(k, s, now, fs) != [] && SameAttribution(DraftFor(k, s, now, es), DraftFor(k, s, now, fs)))
      <==> LatestAgree(k, Evidence(k, s, now, es))
  {
    hide Moment, Evidence, DraftFor, Latest, ReadOffLast, SameAttribution, Rearranges;
    LastIsLatest(k, s, now, es);
    forall fs | Rearranges(fs, es) && LatestAgree(k, Evidence(k, s, now, es))
      ensures Evidence(k, s, now, fs) != [] && SameAttribution(DraftFor(k, s, now, es), DraftFor(k, s, now, fs))
    {
      SameEvidence(k, s, now, es, fs);
      LastIsLatest(k, s, now, fs);
      DraftFromLast(k, s, now, es, fs);
    }
    if forall fs :: Rearranges(fs, es) ==>
         Evidence(k, s, now, fs) != [] && SameAttribution(DraftFor(k, s, now, es), DraftFor(k, s, now, fs)) {
      forall a | Latest(Evidence(k, s, now, es), a)
        ensures ReadOffLast(k, a) == ReadOffLast(k, Evidence(k, s, now, es)[|Evidence(k, s, now, es)| - 1])
      {
        if k == BySource {
          NothingReadOff(a, Evidence(k, s, now, es)[|Evidence(k, s, now, es)| - 1]);
        } else {
          var fs := LatestCanComeLast(k, s, now, es, a);
          DraftFromLast(k, s, now, es, fs);
        }
      }
    }
  }

  lemma {:induction false} NothingReadOff(a: SecurityEvent, b: SecurityEvent)
    ensures ReadOffLast(BySource, a) == ReadOffLast(BySource, b)
  {
  }

  /** So two services failing one user's logins at one latest moment are enough for
      the order of ingestion to decide which of them the alert names. */
  lemma {:induction false} TiesDecideAttribution(s: string, now: DateTime, es: seq<SecurityEvent>, a: SecurityEvent,
                                                 b: SecurityEvent)
    requires now.Valid() && Alerted(ByUser, s, now, es)
    requires Latest(Evidence(ByUser, s, now, es), a) && Latest(Evidence(ByUser, s, now, es), b)
    requires a.serviceName != b.serviceName
    ensures exists fs :: Rearranges(fs, es) && Alerted(ByUser, s, now, fs)
                         && DraftFor(ByUser, s, now, fs).affectedService != DraftFor(ByUser, s, now, es).affectedService
  {
    hide Moment, Evidence, Latest, Format, Describe, SeverityOf, EventIds, Recovered, OverThreshold, Rearranges;
    var last := Evidence(ByUser, s, now, es)[|Evidence(ByUser, s, now, es)| - 1];
    var other := if a.serviceName == last.serviceName then b else a;
    var fs := LatestCanComeLast(ByUser, s, now, es, other);
    StaysAlerted(s, now, es, fs);
  }

  lemma {:induction false} StaysAlerted(s: string, now: DateTime, es: seq<SecurityEvent>, fs: seq<SecurityEvent>)
    requires Rearranges(fs, es) && Alerted(ByUser, s, now, es)
    ensures Alerted(ByUser, s, now, fs)
  {
    hide OverThreshold, Alerted;
    AlertedIff(ByUser, s, now, es);
    AlertedIff(ByUser, s, now, fs);
    ThresholdPermuted(ByUser, s, now, es, fs);
  }

  // ---------------------------------------------------------------- monotonicity

  lemma {:induction false} TallyGrows(k: Keying, s: string, now: DateTime, kind: SecurityEvent -> bool,
                                      es: seq<SecurityEvent>, more: seq<SecurityEvent>)
    ensures Tally(k, s, now, kind, es) <= Tally(k, s, now, kind, es + more)
  {
    FilterConcat(Both(Against(k, s, now), kind), es, more);
  }

  lemma {:induction false} ThresholdGrows(k: Keying, s: string, now: DateTime, es: seq<SecurityEvent>,
                                          more: seq<SecurityEvent>)
    requires OverThreshold(k, s, now, es)
    ensures OverThreshold(k, s, now, es + more)
  {
    hide Moment, Tally, Against;
    TallyGrows(k, s, now, All(), es, more);
    TallyGrows(k, s, now, OfType(RateLimitExceeded), es, more);
    TallyGrows(k, s, now, OfType(RequestReceived), es, more);
    TallyGrows(k, s, now, FailureKinds(), es, more);
    assert forall e :: e in es ==> e in es + more;
  }

  /** Whatever arrives later, an alerted subject stays alerted, at no lower a
      severity, and on all the evidence it had. */
  lemma {:induction false} MoreEventsNeverSilence(k: Keying, s: string, now: DateTime, es: seq<SecurityEvent>,
                                                  more: seq<SecurityEvent>)
    requires now.Valid() && s in AlertedSubjects(k, now, es)
    ensures s in AlertedSubjects(k, now, es + more)
    ensures Evidence(k, s, now, es) != [] && Evidence(k, s, now, es + more) != []
    ensures var before, after := DraftFor(k, s, now, es), DraftFor(k, s, now, es + more);
      && before.severity.Rank() <= after.severity.Rank()
      && multiset(Evidence(k, s, now, es)) <= multiset(Evidence(k, s, now, es + more))
  {
    hide Moment, Evidence, OverThreshold, SubjectSet, Filter, Counts, Format, Describe, Recovered, EventIds,
      AffectedEntity, AffectedService, AffectedUser, AlertedSubjects;
    AlertedSubjectsExact(k, now, es);
    AlertedSubjectsExact(k, now, es + more);
    ThresholdGrows(k, s, now, es, more);
    AlertedIff(k, s, now, es);
    AlertedIff(k, s, now, es + more);
    EvidenceElements(k, s, now, es);
    EvidenceElements(k, s, now, es + more);
    FilterConcat(Counts(k, s, now), es, more);
    var few, many := Evidence(k, s, now, es), Evidence(k, s, now, es + more);
    assert forall e :: e in few ==> e in many;
    assert PrivilegedEndpoints(few) <= PrivilegedEndpoints(many);
  }

  // ------------------------------------------------------------- CIRCUIT_CLOSED

  function NotClosed(): SecurityEvent -> bool {
    (e: SecurityEvent) => e.eventType != CircuitClosed
  }

  lemma {:induction false} FewerKept(p: SecurityEvent -> bool, q: SecurityEvent -> bool, es: seq<SecurityEvent>)
    requires forall e :: e in es && p(e) ==> q(e)
    ensures |Filter(p, es)| <= |Filter(q, es)|
  {
    if es != [] {
      var front, last := es[..|es| - 1], es[|es| - 1];
      assert es == front + [last];
      FewerKept(p, q, front);
    }
  }

  /** Without the closures the evidence is the same when none of them counts. */
  lemma {:induction false} UncountedClosuresDrop(k: Keying, s: string, now: DateTime, es: seq<SecurityEvent>)
    requires forall e :: e in es && e.eventType == CircuitClosed ==> !Counts(k, s, now)(e)
    ensures Evidence(k, s, now, Filter(NotClosed(), es)) == Evidence(k, s, now, es)
  {
    hide Moment, InWindow, Sort, Filter, Counts;
    var all, rest := Sort(TimeOrder(), es), Filter(NotClosed(), es);
    TimeOrderIsTotal();
    SortSorts(TimeOrder(), es);
    FilterSort(TimeOrder(), NotClosed(), es);
    if k == BySource {
      FilterFilter(NotClosed(), CountsTyped(k, s, now, RateLimitExceeded), CountsTyped(k, s, now, RateLimitExceeded),
                   all);
      FilterFilter(NotClosed(), CountsTyped(k, s, now, RequestReceived), CountsTyped(k, s, now, RequestReceived), all);
    } else {
      FilterFilter(NotClosed(), Counts(k, s, now), Counts(k, s, now), all);
    }
  }

  /** Only Rule 2 can count a closure, one that carries a refusal's status code. */
  lemma {:induction false} ClosuresCountForRefusals(k: Keying, s: string, now: DateTime, e: SecurityEvent)
    requires e.eventType == CircuitClosed
    ensures Counts(k, s, now)(e)
      <==> k == BySubject && (e.statusCode == 401 || e.statusCode == 403) && Against(BySubject, s, now)(e)
  {
    hide NoOlderThan;
    CountsOne(k, s, now, e);
  }

  /** CIRCUIT_CLOSED events are no part of a subject's evidence exactly when none of
      them counts against it. */
  lemma {:induction false} ClosedEventsAreSilentIff(k: Keying, s: string, now: DateTime, es: seq<SecurityEvent>)
    ensures Evidence(k, s, now, Filter(NotClosed(), es)) == Evidence(k, s, now, es)
      <==> forall e :: e in es && e.eventType == CircuitClosed ==> !Counts(k, s, now)(e)
  {
    hide Moment, Evidence, Counts, Filter;
    if e :| e in es && e.eventType == CircuitClosed && Counts(k, s, now)(e) {
      EvidenceElements(k, s, now, es);
      EvidenceElements(k, s, now, Filter(NotClosed(), es));
      FilterIn(NotClosed(), es);
      assert e in Evidence(k, s, now, es) && e !in Evidence(k, s, now, Filter(NotClosed(), es));
    } else {
      UncountedClosuresDrop(k, s, now, es);
    }
  }

  lemma {:induction false} TallyWithoutClosures(k: Keying, s: string, now: DateTime, es: seq<SecurityEvent>)
    ensures Tally(k, s, now, All(), Filter(NotClosed(), es)) == Tally(k, s, now, NotClosed(), es)
    ensures Tally(k, s, now, NotClosed(), es) <= Tally(k, s, now, All(), es)
  {
    hide Moment, Counts, Filter;
    FilterFilter(NotClosed(), Both(Against(k, s, now), All()), Both(Against(k, s, now), NotClosed()), es);
    FewerKept(Both(Against(k, s, now), NotClosed()), Both(Against(k, s, now), All()), es);
  }

  /** They change whether a subject is alerted on exactly when it is Rule 2 that has
      its three refusals with them and not without. */
  lemma {:induction false} ClosuresDecideIff(k: Keying, s: string, now: DateTime, es: seq<SecurityEvent>)
    ensures (Alerted(k, s, now, Filter(NotClosed(), es)) <==> Alerted(k, s, now, es))
      <==> !(k == BySubject && Tally(k, s, now, All(), es) >= 3 && Tally(k, s, now, NotClosed(), es) < 3)
  {
    hide Moment, Tally, Filter, Evidence;
    if k == BySubject {
      AlertedIff(k, s, now, es);
      AlertedIff(k, s, now, Filter(NotClosed(), es));
      TallyWithoutClosures(k, s, now, es);
    } else {
      forall e | e in es && e.eventType == CircuitClosed
        ensures !Counts(k, s, now)(e)
      {
        ClosuresCountForRefusals(k, s, now, e);
      }
      UncountedClosuresDrop(k, s, now, es);
    }
  }

  /** With two ordinary refusals such a closure is the third, and fires the rule. */
  lemma {:induction false} RefusedClosureCounts(a: SecurityEvent, b: SecurityEvent, closure: SecurityEvent,
                                                s: string, now: DateTime)
    requires a.eventType != CircuitClosed && b.eventType != CircuitClosed && closure.eventType == CircuitClosed
    requires Counts(BySubject, s, now)(a) && Counts(BySubject, s, now)(b) && Counts(BySubject, s, now)(closure)
    ensures Filter(NotClosed(), [a, b, closure]) == [a, b]
    ensures Alerted(BySubject, s, now, [a, b, closure]) && !Alerted(BySubject, s, now, [a, b])
  {
    hide Moment, Counts, Against, Alerted, Filter, Evidence;
    FilterSnoc(NotClosed(), [a, b], closure);
    KeptAll(NotClosed(), [a, b]);
    CountsIff(BySubject, s, now);
    KeptAll(Both(Against(BySubject, s, now), All()), [a, b]);
    KeptAll(Both(Against(BySubject, s, now), All()), [a, b, closure]);
    AlertedIff(BySubject, s, now, [a, b, closure]);
    AlertedIff(BySubject, s, now, [a, b]);
    assert [a, b] + [closure] == [a, b, closure];
  }

  lemma {:induction false} KeptAll(p: SecurityEvent -> bool, es: seq<SecurityEvent>)
    requires forall e :: e in es ==> p(e)
    ensures Filter(p, es) == es
  {
    FilterSame(p, All(), es);
    FilterAll(es);
  }

  lemma {:induction false} NothingCounted(k: Keying, s: string, now: DateTime, es: seq<SecurityEvent>)
    requires forall e :: e in es ==> !Counts(k, s, now)(e)
    ensures Evidence(k, s, now, es) == [] && !Alerted(k, s, now, es)
  {
    hide Counts, Evidence;
    KeptNone(Counts(k, s, now), es);
    EvidenceElements(k, s, now, es);
  }

  lemma {:induction false} KeptNone(p: SecurityEvent -> bool, es: seq<SecurityEvent>)
    requires forall e :: e in es ==> !p(e)
    ensures Filter(p, es) == []
  {
    if es != [] {
      assert es[|es| - 1] in es;
      KeptNone(p, es[..|es| - 1]);
    }
  }

  // ---------------------------------------------------------------- AUTH_FAILED

  function NotLoginFailure(): SecurityEvent -> bool {
    (e: SecurityEvent) => e.eventType != AuthFailed
  }

  lemma {:induction false} RefusalEvidenceWithoutLogins(s: string, now: DateTime, es: seq<SecurityEvent>)
    ensures Evidence(BySubject, s, now, Filter(NotLoginFailure(), es)) == Evidence(BySubject, s, now, es)
  {
    hide Moment, Sort, Filter, Counts;
    var all := Sort(TimeOrder(), es);
    TimeOrderIsTotal();
    FilterSort(TimeOrder(), NotLoginFailure(), es);
    forall e | e in all
      ensures Counts(BySubject, s, now)(e) ==> e.eventType != AuthFailed
    {
      CountsOne(BySubject, s, now, e);
    }
    FilterFilter(NotLoginFailure(), Counts(BySubject, s, now), Counts(BySubject, s, now), all);
  }

  lemma {:induction false} FlatMapSame(f: string -> seq<Alert>, g: string -> seq<Alert>, xs: seq<string>)
    requires forall x :: x in xs ==> f(x) == g(x)
    ensures FlatMap(f, xs) == FlatMap(g, xs)
  {
    if xs != [] {
      assert xs[|xs| - 1] in xs;
      FlatMapSame(f, g, xs[..|xs| - 1]);
    }
  }

  lemma {:induction false} SameRefusal(s: string, now: DateTime, es: seq<SecurityEvent>)
    requires now.Valid()
    ensures RaiseFor(BySubject, now, Filter(NotLoginFailure(), es))(s) == RaiseFor(BySubject, now, es)(s)
  {
    hide Moment, Evidence, Filter, Fires, Format, SeverityOf, AffectedService, AffectedUser, AffectedEntity, EventIds,
      Recovered, SortedKeys;
    RefusalEvidenceWithoutLogins(s, now, es);
  }

  /** Failed logins are Rule 1's alone: without them Rule 2 raises exactly the same. */
  lemma {:induction false} LoginFailuresAreNoRefusals(now: DateTime, es: seq<SecurityEvent>)
    requires now.Valid()
    ensures Drafts(BySubject, now, Filter(NotLoginFailure(), es)) == Drafts(BySubject, now, es)
  {
    hide Moment, RaiseFor, Filter, FlatMap, SubjectSet;
    var rest := Filter(NotLoginFailure(), es);
    forall s
      ensures s in SubjectSet(BySubject, now, rest) <==> s in SubjectSet(BySubject, now, es)
    {
      SubjectIff(BySubject, s, now, rest);
      SubjectIff(BySubject, s, now, es);
      RefusalEvidenceWithoutLogins(s, now, es);
    }
    assert SubjectSet(BySubject, now, rest) == SubjectSet(BySubject, now, es);
    var subjects := SortedKeys(SubjectSet(BySubject, now, es));
    forall s | s in subjects
      ensures RaiseFor(BySubject, now, rest)(s) == RaiseFor(BySubject, now, es)(s)
    {
      SameRefusal(s, now, es);
    }
    FlatMapSame(RaiseFor(BySubject, now, rest), RaiseFor(BySubject, now, es), subjects);
  }

  lemma {:induction false} SubjectIff(k: Keying, s: string, now: DateTime, es: seq<SecurityEvent>)
    ensures s in SubjectSet(k, now, es) <==> Evidence(k, s, now, es) != []
  {
    hide Moment, InWindow, Evidence, SubjectOf;
    EvidenceElements(k, s, now, es);
    var evidence := Evidence(k, s, now, es);
    if evidence != [] {
      assert evidence[0] in evidence;
      assert Counts(k, s, now)(evidence[0]);
    }
    if s in SubjectSet(k, now, es) {
      var e :| e in es && InWindow(k.WindowMinutes(), now, e) && SubjectOf(k, e).Some? && SubjectOf(k, e).value == s;
      assert Counts(k, s, now)(e);
    }
  }

  // ---------------------------------------------------------- evidence resolves

  lemma {:induction false} DraftsResolve(k: Keying, now: DateTime, es: seq<SecurityEvent>, d: Alert)
    requires now.Valid() && d in Drafts(k, now, es)
    ensures d.relatedEvents != [] && Resolves(d, es)
    ensures !Blank(d.timestamp)
  {
    hide Moment, Evidence, SubjectSet, SortedKeys, Format, Describe, Counts, RaiseFor, AffectedEntity,
      AffectedService, AffectedUser, Blank;
    FlatMapIn(RaiseFor(k, now, es), SortedKeys(SubjectSet(k, now, es)), d);
    var s :| s in SortedKeys(SubjectSet(k, now, es)) && d in RaiseFor(k, now, es)(s);
    RaisedIsDraft(k, s, now, es, d);
    EvidenceElements(k, s, now, es);
    StampIsNotBlank(now);
    var evidence := Evidence(k, s, now, es);
    forall id | id in d.relatedEvents
      ensures exists e :: e in es && e.eventId == id
    {
      var i :| 0 <= i < |evidence| && evidence[i].eventId == id;
      assert evidence[i] in evidence;
    }
  }

  lemma {:induction false} RaisedIsDraft(k: Keying, s: string, now: DateTime, es: seq<SecurityEvent>, d: Alert)
    requires now.Valid() && d in RaiseFor(k, now, es)(s)
    ensures Evidence(k, s, now, es) != [] && d == DraftFor(k, s, now, es)
  {
    hide Moment, Evidence, DraftFor, Fires;
  }

  /** Everything the catalogue raises is a valid alert whose every related
      event is in the store it was raised from. */
  lemma {:induction false} CatalogueResolves(now: DateTime, es: seq<SecurityEvent>, supply: nat -> string, n: nat)
    requires now.Valid()
    ensures forall a :: a in Mint(AllDrafts(now, es), supply, n) ==> ValidAlert(a) && Resolves(a, es)
    ensures forall d :: d in AllDrafts(now, es) ==> d.relatedEvents != [] && Resolves(d, es)
  {
    hide Moment, Drafts, Blank;
    forall d | d in AllDrafts(now, es)
      ensures d.relatedEvents != [] && Resolves(d, es) && !Blank(d.timestamp)
    {
      FlatMapIn(RuleDrafts(now, es), ALL_RULES, d);
      var rule :| rule in ALL_RULES && d in RuleDrafts(now, es)(rule);
      var k := if rule == MultipleFailedLoginsRule then (if d in Drafts(ByUser, now, es) then ByUser else ByAddress)
               else if rule == UnauthorisedAccessRule then BySubject
               else if rule == AbnormalRequestRateRule then BySource else ByService;
      DraftsResolve(k, now, es, d);
    }
    var minted := Mint(AllDrafts(now, es), supply, n);
    forall a | a in minted
      ensures ValidAlert(a) && Resolves(a, es)
    {
      var i :| 0 <= i < |minted| && minted[i] == a;
      var d := AllDrafts(now, es)[i];
      assert d in AllDrafts(now, es);
    }
  }

  /** `soc.rules.main`: evaluate the catalogue, then persist. On a readable
      store neither step raises, and the process-wide store gains every alert. */
  method DetectAndPersist(store: EventStore, now: DateTime, ids: FreshIds, alertStore: AlertStore)
    returns (r: Result<int, Fault>)
    requires now.Valid()
    modifies ids, alertStore
    ensures r.Ok? <==> Readable(store.events)
    ensures r.Ok? ==>
      alertStore.alerts
        == AddAll(old(alertStore.alerts), Mint(AllDrafts(now, store.events), ids.supply, old(ids.drawn)))
    ensures r.Err? ==> alertStore.alerts == old(alertStore.alerts)
  {
    hide Moment, ReadableEvent, Drafts, RuleDrafts, Resolves, Blank, Mint, AddAll, FlatMap;
    var alerts :- EvaluateAll(store, now, ALL_RULES, ids);
    CatalogueResolves(now, store.events, ids.supply, old(ids.drawn));
    r := PersistAlerts(alerts, store, alertStore);
  }
}
