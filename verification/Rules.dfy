/** The detection rules as they run: one pass over the store each, grouping
    into a dict, then one alert per subject that is over its threshold. */
module Rules {
  import opened Wrappers
  import opened Sequences
  import opened Strings
  import opened Timestamps
  import opened Events
  import opened EventStores
  import opened Alerts
  import opened Detection

  // ---------------------------------------------------------------- shared parts

  function KeyIs(key: SecurityEvent -> Option<string>, s: string): SecurityEvent -> bool {
    (e: SecurityEvent) => key(e) == Some(s)
  }

  /** Each key that occurs, with its events in order. */
  ghost predicate GroupedBy(key: SecurityEvent -> Option<string>, events: seq<SecurityEvent>,
                            grouped: map<string, seq<SecurityEvent>>)
  {
    && grouped.Keys == (set e | e in events && key(e).Some? :: key(e).value)
    && forall s :: s in grouped ==> grouped[s] == Filter(KeyIs(key, s), events)
  }

  /** `grouped.setdefault(key(event), []).append(event)` */
  function WithEvent(key: SecurityEvent -> Option<string>, grouped: map<string, seq<SecurityEvent>>,
                     event: SecurityEvent): map<string, seq<SecurityEvent>>
  {
    if key(event).None? then grouped
    else
      var s := key(event).value;
      grouped[s := (if s in grouped then grouped[s] else []) + [event]]
  }

  lemma {:induction false} StaysGrouped(key: SecurityEvent -> Option<string>, events: seq<SecurityEvent>,
                                        grouped: map<string, seq<SecurityEvent>>, event: SecurityEvent)
    requires GroupedBy(key, events, grouped)
    ensures GroupedBy(key, events + [event], WithEvent(key, grouped, event))
  {
    hide Filter;
    var after := WithEvent(key, grouped, event);
    forall s | s in after
      ensures after[s] == Filter(KeyIs(key, s), events + [event])
    {
      FilterSnoc(KeyIs(key, s), events, event);
      if s !in grouped {
        NoneKeyed(events, key, s);
      }
    }
  }

  /** `grouped.setdefault(key(event), []).append(event)`, events without a key
      skipped: each bucket is the filter on its key, order kept. */
  method GroupBy(events: seq<SecurityEvent>, key: SecurityEvent -> Option<string>)
    returns (grouped: map<string, seq<SecurityEvent>>)
    ensures grouped.Keys == set e | e in events && key(e).Some? :: key(e).value
    ensures forall s :: s in grouped ==> grouped[s] == Filter(KeyIs(key, s), events)
  {
    hide Filter;
    grouped := map[];
    NothingGrouped(key);
    for i := 0 to |events|
      invariant GroupedBy(key, events[..i], grouped)
    {
      var event := events[i];
      assert events[..i + 1] == events[..i] + [event];
      StaysGrouped(key, events[..i], grouped, event);
      if key(event).Some? {
        var s := key(event).value;
        var bucket := if s in grouped then grouped[s] else [];
        grouped := grouped[s := bucket + [event]];
      }
    }
    assert events[..|events|] == events;
  }

  lemma {:induction false} NothingGrouped(key: SecurityEvent -> Option<string>)
    ensures GroupedBy(key, [], map[])
  {
  }

  lemma {:induction false} NoneKeyed(events: seq<SecurityEvent>, key: SecurityEvent -> Option<string>, s: string)
    requires s !in set e | e in events && key(e).Some? :: key(e).value
    ensures Filter(KeyIs(key, s), events) == []
  {
    FilterNone(KeyIs(key, s), events);
  }

  lemma {:induction false} FilterNone(p: SecurityEvent -> bool, events: seq<SecurityEvent>)
    requires forall e :: e in events ==> !p(e)
    ensures Filter(p, events) == []
  {
    if events != [] {
      FilterNone(p, events[..|events| - 1]);
    }
  }

  /** A dict that holds exactly each subject's evidence. */
  ghost predicate Groups(grouped: map<string, seq<SecurityEvent>>, k: Keying, now: DateTime, es: seq<SecurityEvent>) {
    && grouped.Keys == SubjectSet(k, now, es)
    && forall s :: s in grouped ==> grouped[s] == Evidence(k, s, now, es) && grouped[s] != []
  }

  /** `build_alert`: mint an identifier, fill the rule's own fields, validate. */
  method BuildAlert(rule: Rule, now: DateTime, ids: FreshIds, description: Description, related: seq<SecurityEvent>,
                    severity: Severity, affectedService: Option<string>, affectedUser: Option<string>,
                    affectedEntity: Option<string>)
    returns (r: Result<Alert, Fault>)
    requires now.Valid()
    modifies ids
    ensures ids.drawn == old(ids.drawn) + 1
    ensures var a := Alert(ids.supply(old(ids.drawn)), Format(now), rule, severity, Open, description,
                           EventIds(related), affectedService, affectedUser, affectedEntity);
      r == if related == [] then Err(InvalidAlert) else Ok(a)
  {
    StampIsNotBlank(now);
    var id := ids.Next();
    var a := Alert(id, Format(now), rule, severity, Open, description, EventIds(related),
                   affectedService, affectedUser, affectedEntity);
    r := if ValidAlert(a) then Ok(a) else Err(InvalidAlert);
  }

  /** The stamp passes the alert's validator. */
  lemma {:induction false} StampIsNotBlank(now: DateTime)
    requires now.Valid()
    ensures !Blank(Format(now))
  {
    var rest := Print(TIMESTAMP_FORMAT[1..], now);
    assert rest[0] == '-';
    assert Format(now)[|Decimal(now.year)|] == '-';
    assert '-' in Format(now);
  }

  /** One more subject of the loop, on drafts and on minted alerts alike. */
  lemma {:induction false} RaisesDraft(k: Keying, s: string, now: DateTime, es: seq<SecurityEvent>)
    requires now.Valid() && Evidence(k, s, now, es) != []
    ensures RaiseFor(k, now, es)(s)
      == if Fires(k, Evidence(k, s, now, es)) then [Draft(k, s, now, Evidence(k, s, now, es), Recovered(s, now, es))]
        else []
  {
    hide Evidence, Fires, Draft, Recovered;
  }

  lemma {:induction false} RaiseStep(raise: string -> seq<Alert>, subjects: seq<string>, i: nat,
                                     supply: nat -> string, n: nat)
    requires i < |subjects|
    ensures var before := FlatMap(raise, subjects[..i]);
      && FlatMap(raise, subjects[..i + 1]) == before + raise(subjects[i])
      && Mint(FlatMap(raise, subjects[..i + 1]), supply, n)
         == Mint(before, supply, n) + Mint(raise(subjects[i]), supply, n + |before|)
  {
    assert subjects[..i + 1][..i] == subjects[..i];
    MintConcat(FlatMap(raise, subjects[..i]), raise(subjects[i]), supply, n);
  }

  /** Filtering in two steps and keying is the evidence of the specification. */
  lemma {:induction false} GroupedIsEvidence(k: Keying, now: DateTime, es: seq<SecurityEvent>,
                                             recent: seq<SecurityEvent>, kept: SecurityEvent -> bool,
                                             key: SecurityEvent -> Option<string>,
                                             grouped: map<string, seq<SecurityEvent>>)
    requires k != BySource
    requires recent == Filter(kept, Sort(TimeOrder(), es))
    requires forall e :: kept(e) ==> InWindow(k.WindowMinutes(), now, e)
    requires forall e :: InWindow(k.WindowMinutes(), now, e) && SubjectOf(k, e).Some? ==> kept(e)
    requires forall e :: kept(e) ==> key(e) == SubjectOf(k, e)
    requires grouped.Keys == set e | e in recent && key(e).Some? :: key(e).value
    requires forall s :: s in grouped ==> grouped[s] == Filter(KeyIs(key, s), recent)
    ensures Groups(grouped, k, now, es)
  {
    var all := Sort(TimeOrder(), es);
    TimeOrderIsTotal();
    SortSorts(TimeOrder(), es);
    FilterIn(kept, all);
    forall s | s in grouped
      ensures grouped[s] == Evidence(k, s, now, es) && grouped[s] != []
    {
      FilterFilter(kept, KeyIs(key, s), Counts(k, s, now), all);
      FilterIn(KeyIs(key, s), recent);
      assert exists e :: e in recent && KeyIs(key, s)(e);
    }
    SameSubjects(k, now, es, recent, kept, key);
  }

  lemma {:induction false} SameSubjects(k: Keying, now: DateTime, es: seq<SecurityEvent>,
                                        recent: seq<SecurityEvent>, kept: SecurityEvent -> bool,
                                        key: SecurityEvent -> Option<string>)
    requires forall e :: e in recent <==> e in es && kept(e)
    requires forall e :: kept(e) ==> InWindow(k.WindowMinutes(), now, e)
    requires forall e :: InWindow(k.WindowMinutes(), now, e) && SubjectOf(k, e).Some? ==> kept(e)
    requires forall e :: kept(e) ==> key(e) == SubjectOf(k, e)
    ensures (set e | e in recent && key(e).Some? :: key(e).value) == SubjectSet(k, now, es)
  {
  }

  // ---------------------------------------------------------------------- Rule 1

  function UserKey(): SecurityEvent -> Option<string> {
    (e: SecurityEvent) => e.userId
  }

  function AddressKey(): SecurityEvent -> Option<string> {
    (e: SecurityEvent) => e.sourceIp
  }

  function RecentFailure(now: DateTime): SecurityEvent -> bool {
    (e: SecurityEvent) => e.eventType == AuthFailed && InWindow(5, now, e)
  }

  method RaiseForUser(userId: string, events: seq<SecurityEvent>, now: DateTime, ids: FreshIds,
                      ghost es: seq<SecurityEvent>)
    returns (raised: seq<Alert>)
    requires now.Valid()
    requires events == Evidence(ByUser, userId, now, es) && events != []
    modifies ids
    ensures raised == Mint(RaiseFor(ByUser, now, es)(userId), ids.supply, old(ids.drawn))
    ensures ids.drawn == old(ids.drawn) + |raised|
  {
    hide Moment, ReadableEvent, InWindow, Evidence, Format, SortedKeys, Recovered;
    if |events| < FAILURE_THRESHOLD {
      return [];
    }
    var addresses := SortedKeys(Addresses(events));
    StampIsNotBlank(now);
    var built := BuildAlert(MultipleFailedLoginsRule, now, ids,
                            FailedLoginsForUser(|events|, userId, |addresses|), events, High,
                            Some(events[|events| - 1].serviceName), Some(userId), Some(LOGIN_ENDPOINT));
    assert built == Ok(DraftFor(ByUser, userId, now, es).(alertId := built.value.alertId));
    raised := [built.value];
  }

  method RaiseForUsers(grouped: map<string, seq<SecurityEvent>>, now: DateTime, ids: FreshIds,
                       ghost es: seq<SecurityEvent>)
    returns (alerts: seq<Alert>)
    requires now.Valid()
    requires Groups(grouped, ByUser, now, es)
    modifies ids
    ensures alerts == Mint(Drafts(ByUser, now, es), ids.supply, old(ids.drawn))
    ensures ids.drawn == old(ids.drawn) + |alerts|
  {
    hide Moment, ReadableEvent, InWindow, Evidence, SubjectSet, SubjectOf, SortedKeys, RaiseFor, Filter, Sort, Mint,
      KeyIs, Recovered, UserKey, AddressKey, SubjectKey, ServiceKey, RecentFailure, RecentRefusal, Within;
    var subjects := SortedKeys(grouped.Keys);
    ghost var raise := RaiseFor(ByUser, now, es);
    alerts := [];
    for i := 0 to |subjects|
      invariant alerts == Mint(FlatMap(raise, subjects[..i]), ids.supply, old(ids.drawn))
      invariant ids.drawn == old(ids.drawn) + |alerts|
    {
      RaiseStep(raise, subjects, i, ids.supply, old(ids.drawn));
      var raised := RaiseForUser(subjects[i], grouped[subjects[i]], now, ids, es);
      alerts := alerts + raised;
    }
    assert subjects[..|subjects|] == subjects;
  }

  method AlertsForUsers(recent: seq<SecurityEvent>, now: DateTime, ids: FreshIds, ghost es: seq<SecurityEvent>)
    returns (alerts: seq<Alert>)
    requires now.Valid()
    requires recent == Filter(RecentFailure(now), Sort(TimeOrder(), es))
    modifies ids
    ensures alerts == Mint(Drafts(ByUser, now, es), ids.supply, old(ids.drawn))
    ensures ids.drawn == old(ids.drawn) + |alerts|
  {
    hide Drafts, Groups, InWindow, Filter, Sort, Mint, KeyIs, UserKey, RecentFailure;
    var grouped := GroupBy(recent, UserKey());
    RecentFailuresGroup(ByUser, now, es, recent, UserKey(), grouped);
    alerts := RaiseForUsers(grouped, now, ids, es);
  }

  method RaiseForIp(sourceIp: string, events: seq<SecurityEvent>, now: DateTime, ids: FreshIds,
                    ghost es: seq<SecurityEvent>)
    returns (raised: seq<Alert>)
    requires now.Valid()
    requires events == Evidence(ByAddress, sourceIp, now, es) && events != []
    modifies ids
    ensures raised == Mint(RaiseFor(ByAddress, now, es)(sourceIp), ids.supply, old(ids.drawn))
    ensures ids.drawn == old(ids.drawn) + |raised|
  {
    hide Moment, ReadableEvent, InWindow, Evidence, Format, SortedKeys, Recovered;
    if |events| < FAILURE_THRESHOLD {
      return [];
    }
    var usernames := SortedKeys(Users(events));
    StampIsNotBlank(now);
    var built := BuildAlert(MultipleFailedLoginsRule, now, ids,
                            FailedLoginsFromAddress(|events|, sourceIp, |usernames|), events, High,
                            Some(events[|events| - 1].serviceName),
                            if |usernames| == 1 then Some(usernames[0]) else None, Some(LOGIN_ENDPOINT));
    assert built == Ok(DraftFor(ByAddress, sourceIp, now, es).(alertId := built.value.alertId));
    raised := [built.value];
  }

  method RaiseForIps(grouped: map<string, seq<SecurityEvent>>, now: DateTime, ids: FreshIds,
                     ghost es: seq<SecurityEvent>)
    returns (alerts: seq<Alert>)
    requires now.Valid()
    requires Groups(grouped, ByAddress, now, es)
    modifies ids
    ensures alerts == Mint(Drafts(ByAddress, now, es), ids.supply, old(ids.drawn))
    ensures ids.drawn == old(ids.drawn) + |alerts|
  {
    hide Moment, ReadableEvent, InWindow, Evidence, SubjectSet, SubjectOf, SortedKeys, RaiseFor, Filter, Sort, Mint,
      KeyIs, Recovered, UserKey, AddressKey, SubjectKey, ServiceKey, RecentFailure, RecentRefusal, Within;
    var subjects := SortedKeys(grouped.Keys);
    ghost var raise := RaiseFor(ByAddress, now, es);
    alerts := [];
    for i := 0 to |subjects|
      invariant alerts == Mint(FlatMap(raise, subjects[..i]), ids.supply, old(ids.drawn))
      invariant ids.drawn == old(ids.drawn) + |alerts|
    {
      RaiseStep(raise, subjects, i, ids.supply, old(ids.drawn));
      var raised := RaiseForIp(subjects[i], grouped[subjects[i]], now, ids, es);
      alerts := alerts + raised;
    }
    assert subjects[..|subjects|] == subjects;
  }

  method AlertsForIps(recent: seq<SecurityEvent>, now: DateTime, ids: FreshIds, ghost es: seq<SecurityEvent>)
    returns (alerts: seq<Alert>)
    requires now.Valid()
    requires recent == Filter(RecentFailure(now), Sort(TimeOrder(), es))
    modifies ids
    ensures alerts == Mint(Drafts(ByAddress, now, es), ids.supply, old(ids.drawn))
    ensures ids.drawn == old(ids.drawn) + |alerts|
  {
    hide Drafts, Groups, InWindow, Filter, Sort, Mint, KeyIs, AddressKey, RecentFailure;
    var grouped := GroupBy(recent, AddressKey());
    RecentFailuresGroup(ByAddress, now, es, recent, AddressKey(), grouped);
    alerts := RaiseForIps(grouped, now, ids, es);
  }

  lemma {:induction false} RecentFailuresGroup(k: Keying, now: DateTime, es: seq<SecurityEvent>,
                                               recent: seq<SecurityEvent>, key: SecurityEvent -> Option<string>,
                                               grouped: map<string, seq<SecurityEvent>>)
    requires (k == ByUser && key == UserKey()) || (k == ByAddress && key == AddressKey())
    requires recent == Filter(RecentFailure(now), Sort(TimeOrder(), es))
    requires grouped.Keys == set e | e in recent && key(e).Some? :: key(e).value
    requires forall s :: s in grouped ==> grouped[s] == Filter(KeyIs(key, s), recent)
    ensures Groups(grouped, k, now, es)
  {
    hide Moment, ReadableEvent;
    GroupedIsEvidence(k, now, es, recent, RecentFailure(now), key, grouped);
  }

  lemma {:induction false} FailuresInWindow(now: DateTime, all: seq<SecurityEvent>)
    ensures Filter(Within(5, now), Filter(OfType(AuthFailed), all)) == Filter(RecentFailure(now), all)
  {
    FilterFilter(OfType(AuthFailed), Within(5, now), RecentFailure(now), all);
  }

  method EvaluateFailedLogins(store: EventStore, now: DateTime, ids: FreshIds)
    returns (r: Result<seq<Alert>, Fault>)
    requires now.Valid()
    modifies ids
    ensures Evaluated(r, RuleDrafts(now, store.events)(MultipleFailedLoginsRule), store.events,
                      ids.supply, old(ids.drawn), ids.drawn)
  {
    hide Moment, ReadableEvent, InWindow, Drafts, Filter, Sort, Within, OfType, RecentFailure, Mint;
    var all :- store.AllEvents();
    var failures := Filter(OfType(AuthFailed), all);
    var recent := Filter(Within(5, now), failures);
    FailuresInWindow(now, all);
    var users := AlertsForUsers(recent, now, ids, store.events);
    var addresses := AlertsForIps(recent, now, ids, store.events);
    MintConcat(Drafts(ByUser, now, store.events), Drafts(ByAddress, now, store.events), ids.supply, old(ids.drawn));
    r := Ok(users + addresses);
  }

  /** A run of a rule raises only on an unreadable timestamp, before it mints
      anything; else it returns its drafts under fresh identifiers. */
  ghost predicate Evaluated(r: Result<seq<Alert>, Fault>, drafts: seq<Alert>, es: seq<SecurityEvent>,
                            supply: nat -> string, before: nat, after: nat)
  {
    if Readable(es) then r == Ok(Mint(drafts, supply, before)) && after == before + |drafts|
    else r == Err(UnreadableTimestamp) && after == before
  }

  // ---------------------------------------------------------------------- Rule 2

  function SubjectKey(): SecurityEvent -> Option<string> {
    (e: SecurityEvent) => Some(RefusedSubject(e))
  }

  function RecentRefusal(now: DateTime): SecurityEvent -> bool {
    (e: SecurityEvent) => IsRefusal(e) && InWindow(10, now, e)
  }

  method RaiseForSubject(subject: string, events: seq<SecurityEvent>, now: DateTime, ids: FreshIds,
                         ghost es: seq<SecurityEvent>)
    returns (raised: seq<Alert>)
    requires now.Valid()
    requires events == Evidence(BySubject, subject, now, es) && events != []
    modifies ids
    ensures raised == Mint(RaiseFor(BySubject, now, es)(subject), ids.supply, old(ids.drawn))
    ensures ids.drawn == old(ids.drawn) + |raised|
  {
    hide Moment, ReadableEvent, InWindow, Evidence, Format, SortedKeys, Recovered, RaiseFor, PrivilegedEndpoints,
      EventIds, Blank;
    RaisesDraft(BySubject, subject, now, es);
    if |events| < REFUSAL_THRESHOLD {
      return [];
    }
    var last := events[|events| - 1];
    var endpoints := SortedKeys(Endpoints(events));
    var privileged := SortedKeys(PrivilegedEndpoints(events));
    assert last.endpoint in Endpoints(events);
    NonemptyKeys(Endpoints(events));
    NonemptyKeys(PrivilegedEndpoints(events));
    StampIsNotBlank(now);
    var built := BuildAlert(UnauthorisedAccessRule, now, ids,
                            UnauthorisedRequests(|events|, subject, |endpoints|, privileged), events,
                            if privileged != [] then High else Medium,
                            Some(last.serviceName), last.userId,
                            Some(if privileged != [] then privileged[0] else endpoints[0]));
    raised := [built.value];
  }

  method AlertsForSubjects(grouped: map<string, seq<SecurityEvent>>, now: DateTime, ids: FreshIds,
                           ghost es: seq<SecurityEvent>)
    returns (alerts: seq<Alert>)
    requires now.Valid()
    requires Groups(grouped, BySubject, now, es)
    modifies ids
    ensures alerts == Mint(Drafts(BySubject, now, es), ids.supply, old(ids.drawn))
    ensures ids.drawn == old(ids.drawn) + |alerts|
  {
    hide Moment, ReadableEvent, InWindow, Evidence, SubjectSet, SubjectOf, SortedKeys, RaiseFor, Filter, Sort, Mint,
      KeyIs, Recovered, UserKey, AddressKey, SubjectKey, ServiceKey, RecentFailure, RecentRefusal, Within;
    var subjects := SortedKeys(grouped.Keys);
    ghost var raise := RaiseFor(BySubject, now, es);
    alerts := [];
    for i := 0 to |subjects|
      invariant alerts == Mint(FlatMap(raise, subjects[..i]), ids.supply, old(ids.drawn))
      invariant ids.drawn == old(ids.drawn) + |alerts|
    {
      RaiseStep(raise, subjects, i, ids.supply, old(ids.drawn));
      var raised := RaiseForSubject(subjects[i], grouped[subjects[i]], now, ids, es);
      alerts := alerts + raised;
    }
    assert subjects[..|subjects|] == subjects;
  }

  method EvaluateUnauthorisedAccess(store: EventStore, now: DateTime, ids: FreshIds)
    returns (r: Result<seq<Alert>, Fault>)
    requires now.Valid()
    modifies ids
    ensures Evaluated(r, RuleDrafts(now, store.events)(UnauthorisedAccessRule), store.events,
                      ids.supply, old(ids.drawn), ids.drawn)
  {
    hide Drafts, Moment, ReadableEvent, InWindow, Evidence, SubjectSet, SubjectOf, SortedKeys, RaiseFor, Filter,
      Sort, Mint, KeyIs, Recovered, UserKey, AddressKey, SubjectKey, ServiceKey, RecentFailure, RecentRefusal,
      Within;
    ghost var es := store.events;
    var all :- store.AllEvents();
    var refusals := Filter(RecentRefusal(now), all);
    var grouped := GroupBy(refusals, SubjectKey());
    RefusalsGroup(now, es, refusals, grouped);
    var alerts := AlertsForSubjects(grouped, now, ids, es);
    r := Ok(alerts);
  }

  lemma {:induction false} RefusalsGroup(now: DateTime, es: seq<SecurityEvent>, refusals: seq<SecurityEvent>,
                                         grouped: map<string, seq<SecurityEvent>>)
    requires refusals == Filter(RecentRefusal(now), Sort(TimeOrder(), es))
    requires grouped.Keys == set e | e in refusals && SubjectKey()(e).Some? :: SubjectKey()(e).value
    requires forall s :: s in grouped ==> grouped[s] == Filter(KeyIs(SubjectKey(), s), refusals)
    ensures Groups(grouped, BySubject, now, es)
  {
    hide Moment, ReadableEvent;
    GroupedIsEvidence(BySubject, now, es, refusals, RecentRefusal(now), SubjectKey(), grouped);
  }

  lemma {:induction false} NonemptyKeys(keys: set<string>)
    ensures SortedKeys(keys) != [] <==> keys != {}
    ensures keys != {} ==> SortedKeys(keys)[0] == Least(keys)
  {
  }

  // ---------------------------------------------------------------------- Rule 3

  /** An event without an address is evidence about no source. */
  function SourceKey(): SecurityEvent -> Option<string> {
    (e: SecurityEvent) => if Truthy(e.sourceIp) then e.sourceIp else None
  }

  /** One of Rule 3's two dicts holds each source's events of its type. */
  lemma {:induction false} BucketIsTyped(now: DateTime, windowed: seq<SecurityEvent>, all: seq<SecurityEvent>,
                                         t: EventType, typed: seq<SecurityEvent>, s: string)
    requires t == RateLimitExceeded || t == RequestReceived
    requires windowed == Filter(Within(1, now), all)
    requires typed == Filter(OfType(t), windowed)
    ensures Filter(KeyIs(SourceKey(), s), typed) == Filter(CountsTyped(BySource, s, now, t), all)
  {
    hide Moment, ReadableEvent, Format;
    FilterFilter(Within(1, now), OfType(t), RecentOfType(now, t), all);
    forall e
      ensures CountsTyped(BySource, s, now, t)(e) <==> RecentOfType(now, t)(e) && KeyIs(SourceKey(), s)(e)
    {
      assert RecentOfType(now, t)(e) <==> InWindow(1, now, e) && e.eventType == t;
      assert KeyIs(SourceKey(), s)(e) <==> SourceKey()(e) == Some(s);
      assert Counts(BySource, s, now)(e) <==> InWindow(1, now, e) && SubjectOf(BySource, e) == Some(s);
      assert CountsTyped(BySource, s, now, t)(e) <==> Counts(BySource, s, now)(e) && e.eventType == t;
      assert e.eventType == t ==> SubjectOf(BySource, e) == SourceKey()(e);
    }
    FilterFilter(RecentOfType(now, t), KeyIs(SourceKey(), s), CountsTyped(BySource, s, now, t), all);
  }

  function RecentOfType(now: DateTime, t: EventType): SecurityEvent -> bool {
    (e: SecurityEvent) => InWindow(1, now, e) && e.eventType == t
  }

  /** `throttled.get(source, [])` */
  function BucketOf(grouped: map<string, seq<SecurityEvent>>, s: string): seq<SecurityEvent> {
    if s in grouped then grouped[s] else []
  }

  lemma {:induction false} BucketFilters(grouped: map<string, seq<SecurityEvent>>, typed: seq<SecurityEvent>, s: string)
    requires grouped.Keys == set e | e in typed && SourceKey()(e).Some? :: SourceKey()(e).value
    requires forall k :: k in grouped ==> grouped[k] == Filter(KeyIs(SourceKey(), k), typed)
    ensures BucketOf(grouped, s) == Filter(KeyIs(SourceKey(), s), typed)
  {
    if s !in grouped {
      NoneKeyed(typed, SourceKey(), s);
    }
  }

  lemma {:induction false} SourcesAreSubjects(now: DateTime, es: seq<SecurityEvent>, throttled: seq<SecurityEvent>,
                                              volume: seq<SecurityEvent>)
    requires forall e :: e in throttled <==> e in es && RecentOfType(now, RateLimitExceeded)(e)
    requires forall e :: e in volume <==> e in es && RecentOfType(now, RequestReceived)(e)
    ensures (set e | e in throttled && SourceKey()(e).Some? :: SourceKey()(e).value)
      + (set e | e in volume && SourceKey()(e).Some? :: SourceKey()(e).value) == SubjectSet(BySource, now, es)
  {
  }

  /** The two dicts together know exactly the subjects and their evidence. */
  ghost predicate SourceGroups(throttled: map<string, seq<SecurityEvent>>, volume: map<string, seq<SecurityEvent>>,
                               now: DateTime, es: seq<SecurityEvent>)
  {
    var all := Sort(TimeOrder(), es);
    && throttled.Keys + volume.Keys == SubjectSet(BySource, now, es)
    && forall s ::
         && BucketOf(throttled, s) == Filter(CountsTyped(BySource, s, now, RateLimitExceeded), all)
         && BucketOf(volume, s) == Filter(CountsTyped(BySource, s, now, RequestReceived), all)
  }

  method GroupSources(all: seq<SecurityEvent>, now: DateTime, ghost es: seq<SecurityEvent>)
    returns (throttled: map<string, seq<SecurityEvent>>, volume: map<string, seq<SecurityEvent>>)
    requires all == Sort(TimeOrder(), es)
    ensures SourceGroups(throttled, volume, now, es)
  {
    hide Moment, ReadableEvent, InWindow, SubjectOf, Sort, Filter, CountsTyped;
    var windowed := Filter(Within(1, now), all);
    var refused, received := Filter(OfType(RateLimitExceeded), windowed), Filter(OfType(RequestReceived), windowed);
    throttled := GroupBy(refused, SourceKey());
    volume := GroupBy(received, SourceKey());
    TypedElements(now, es, RateLimitExceeded);
    TypedElements(now, es, RequestReceived);
    SourcesAreSubjects(now, es, refused, received);
    forall s
      ensures BucketOf(throttled, s) == Filter(CountsTyped(BySource, s, now, RateLimitExceeded), all)
      ensures BucketOf(volume, s) == Filter(CountsTyped(BySource, s, now, RequestReceived), all)
    {
      BucketFilters(throttled, refused, s);
      BucketFilters(volume, received, s);
      BucketIsTyped(now, windowed, all, RateLimitExceeded, refused, s);
      BucketIsTyped(now, windowed, all, RequestReceived, received, s);
    }
  }

  /** Rule 3's alert, from the source's refusals and requests. */
  function SourceAlert(source: string, now: DateTime, ordered: seq<SecurityEvent>, refused: nat, received: nat): Alert
    requires now.Valid()
  {
    Alert("", Format(now), AbnormalRequestRateRule, High, Open,
          AbnormalRate(source,
                       if refused >= RATE_LIMIT_THRESHOLD then Some(refused) else None,
                       if received >= REQUEST_THRESHOLD then Some(received) else None,
                       SortedKeys(ServiceNames(ordered))),
          EventIds(ordered), Only(ServiceNames(ordered)), Only(Users(ordered)), Some(source))
  }

  lemma {:induction false} SourceRaises(source: string, now: DateTime, es: seq<SecurityEvent>,
                                        ordered: seq<SecurityEvent>, refused: nat, received: nat)
    requires now.Valid() && ordered == Evidence(BySource, source, now, es)
    requires refused == |Filter(OfType(RateLimitExceeded), ordered)|
    requires received == |Filter(OfType(RequestReceived), ordered)|
    requires |ordered| == refused + received
    ensures RaiseFor(BySource, now, es)(source)
      == if refused < RATE_LIMIT_THRESHOLD && received < REQUEST_THRESHOLD then []
         else [SourceAlert(source, now, ordered, refused, received)]
  {
    hide Evidence, Format, Filter, SortedKeys, Only, Users, ServiceNames, EventIds, Recovered;
  }

  method RaiseForSource(source: string, refusals: seq<SecurityEvent>, requests: seq<SecurityEvent>, now: DateTime,
                        ids: FreshIds, ghost es: seq<SecurityEvent>)
    returns (raised: seq<Alert>)
    requires now.Valid()
    requires refusals == Filter(CountsTyped(BySource, source, now, RateLimitExceeded), Sort(TimeOrder(), es))
    requires requests == Filter(CountsTyped(BySource, source, now, RequestReceived), Sort(TimeOrder(), es))
    modifies ids
    ensures raised == Mint(RaiseFor(BySource, now, es)(source), ids.supply, old(ids.drawn))
    ensures ids.drawn == old(ids.drawn) + |raised|
  {
    hide Moment, ReadableEvent, InWindow, Sort, Filter, Format, SortedKeys, Recovered, CountsTyped, Users, RaiseFor,
      ServiceNames, EventIds, Blank, Evidence;
    SignalsCounted(source, now, es);
    SourceEvidence(source, now, es);
    SourceRaises(source, now, es, Evidence(BySource, source, now, es), |refusals|, |requests|);
    if |refusals| < RATE_LIMIT_THRESHOLD && |requests| < REQUEST_THRESHOLD {
      return [];
    }
    var ordered := Sort(TimeOrder(), refusals + requests);
    var services := SortedKeys(ServiceNames(ordered));
    StampIsNotBlank(now);
    var built := BuildAlert(AbnormalRequestRateRule, now, ids,
                            AbnormalRate(source,
                                         if |refusals| >= RATE_LIMIT_THRESHOLD then Some(|refusals|) else None,
                                         if |requests| >= REQUEST_THRESHOLD then Some(|requests|) else None,
                                         services),
                            ordered, High,
                            if |services| == 1 then Some(services[0]) else None,
                            Only(Users(ordered)), Some(source));
    raised := [built.value];
  }

  lemma {:induction false} SourceEvidence(source: string, now: DateTime, es: seq<SecurityEvent>)
    ensures var refusals := Filter(CountsTyped(BySource, source, now, RateLimitExceeded), Sort(TimeOrder(), es));
      var requests := Filter(CountsTyped(BySource, source, now, RequestReceived), Sort(TimeOrder(), es));
      && Evidence(BySource, source, now, es) == Sort(TimeOrder(), refusals + requests)
      && |Evidence(BySource, source, now, es)| == |refusals| + |requests|
  {
    hide Filter, CountsTyped, TimeOrder;
  }

  method AlertsForSources(throttled: map<string, seq<SecurityEvent>>, volume: map<string, seq<SecurityEvent>>,
                          now: DateTime, ids: FreshIds, ghost es: seq<SecurityEvent>)
    returns (alerts: seq<Alert>)
    requires now.Valid()
    requires SourceGroups(throttled, volume, now, es)
    modifies ids
    ensures alerts == Mint(Drafts(BySource, now, es), ids.supply, old(ids.drawn))
    ensures ids.drawn == old(ids.drawn) + |alerts|
  {
    hide Moment, ReadableEvent, InWindow, Evidence, SubjectSet, SubjectOf, SortedKeys, RaiseFor, Filter, Sort, Mint,
      KeyIs, Recovered, UserKey, AddressKey, SubjectKey, ServiceKey, RecentFailure, RecentRefusal, Within,
      CountsTyped, BucketOf;
    var subjects := SortedKeys(throttled.Keys + volume.Keys);
    ghost var raise := RaiseFor(BySource, now, es);
    alerts := [];
    for i := 0 to |subjects|
      invariant alerts == Mint(FlatMap(raise, subjects[..i]), ids.supply, old(ids.drawn))
      invariant ids.drawn == old(ids.drawn) + |alerts|
    {
      RaiseStep(raise, subjects, i, ids.supply, old(ids.drawn));
      var source := subjects[i];
      var raised := RaiseForSource(source, BucketOf(throttled, source), BucketOf(volume, source), now, ids, es);
      alerts := alerts + raised;
    }
    assert subjects[..|subjects|] == subjects;
  }

  method EvaluateAbnormalRate(store: EventStore, now: DateTime, ids: FreshIds)
    returns (r: Result<seq<Alert>, Fault>)
    requires now.Valid()
    modifies ids
    ensures Evaluated(r, RuleDrafts(now, store.events)(AbnormalRequestRateRule), store.events,
                      ids.supply, old(ids.drawn), ids.drawn)
  {
    hide Drafts, Moment, ReadableEvent, InWindow, Evidence, SubjectSet, SubjectOf, SortedKeys, RaiseFor, Filter,
      Sort, Mint, KeyIs, Recovered, UserKey, AddressKey, SubjectKey, ServiceKey, RecentFailure, RecentRefusal,
      Within, CountsTyped, BucketOf;
    ghost var es := store.events;
    var all :- store.AllEvents();
    var throttled, volume := GroupSources(all, now, es);
    var alerts := AlertsForSources(throttled, volume, now, ids, es);
    r := Ok(alerts);
  }

  lemma {:induction false} TypedElements(now: DateTime, es: seq<SecurityEvent>, t: EventType)
    ensures var typed := Filter(OfType(t), Filter(Within(1, now), Sort(TimeOrder(), es)));
      forall e :: e in typed <==> e in es && RecentOfType(now, t)(e)
  {
    TimeOrderIsTotal();
    SortSorts(TimeOrder(), es);
    FilterIn(Within(1, now), Sort(TimeOrder(), es));
    FilterIn(OfType(t), Filter(Within(1, now), Sort(TimeOrder(), es)));
  }

  /** Merging and re-sorting loses neither signal. */
  lemma {:induction false} SignalsCounted(s: string, now: DateTime, es: seq<SecurityEvent>)
    ensures var all, evidence := Sort(TimeOrder(), es), Evidence(BySource, s, now, es);
      && |Filter(OfType(RateLimitExceeded), evidence)|
         == |Filter(CountsTyped(BySource, s, now, RateLimitExceeded), all)|
      && |Filter(OfType(RequestReceived), evidence)| == |Filter(CountsTyped(BySource, s, now, RequestReceived), all)|
  {
    SignalCounted(s, now, es, RateLimitExceeded);
    SignalCounted(s, now, es, RequestReceived);
  }

  lemma {:induction false} SignalCounted(s: string, now: DateTime, es: seq<SecurityEvent>, t: EventType)
    ensures |Filter(OfType(t), Evidence(BySource, s, now, es))|
      == |Filter(CountsTyped(BySource, s, now, t), Sort(TimeOrder(), es))|
  {
    var all := Sort(TimeOrder(), es);
    TimeOrderIsTotal();
    SortSorts(TimeOrder(), es);
    EvidenceElements(BySource, s, now, es);
    FilterPermutation(Counts(BySource, s, now), es, all);
    FilterPermutation(OfType(t), Evidence(BySource, s, now, es), Filter(Counts(BySource, s, now), all));
    FilterFilter(Counts(BySource, s, now), OfType(t), CountsTyped(BySource, s, now, t), all);
  }

  // ---------------------------------------------------------------------- Rule 4

  function ServiceKey(): SecurityEvent -> Option<string> {
    (e: SecurityEvent) => if IsImmediate(e) || IsFailureEvent(e) then Some(e.serviceName) else None
  }

  method RaiseForService(service: string, recovered: bool, events: seq<SecurityEvent>, now: DateTime, ids: FreshIds,
                         ghost es: seq<SecurityEvent>)
    returns (raised: seq<Alert>)
    requires now.Valid()
    requires events == Evidence(ByService, service, now, es) && events != []
    requires recovered == Recovered(service, now, es)
    modifies ids
    ensures raised == Mint(RaiseFor(ByService, now, es)(service), ids.supply, old(ids.drawn))
    ensures ids.drawn == old(ids.drawn) + |raised|
  {
    hide Moment, ReadableEvent, InWindow, Evidence, Format, SortedKeys, Recovered, RaiseFor, AnyOfType, EventIds,
      Blank, Filter;
    RaisesDraft(ByService, service, now, es);
    var breakerOpened := AnyOfType(CircuitOpened, events);
    var healthFailed := AnyOfType(HealthCheckFailed, events);
    var failures := Filter(Failures(), events);
    if !(breakerOpened || healthFailed) && |failures| < SERVICE_FAILURE_THRESHOLD {
      return [];
    }
    var last := events[|events| - 1];
    StampIsNotBlank(now);
    var built := BuildAlert(ServiceFailureRule, now, ids,
                            ServiceFailing(service, breakerOpened, healthFailed, |failures|, recovered),
                            events, High, Some(service), None,
                            if Truthy(last.affectedEntity) then last.affectedEntity else Some(last.endpoint));
    raised := [built.value];
  }

  method AlertsForServices(grouped: map<string, seq<SecurityEvent>>, recovered: set<string>, now: DateTime,
                           ids: FreshIds, ghost es: seq<SecurityEvent>)
    returns (alerts: seq<Alert>)
    requires now.Valid()
    requires Groups(grouped, ByService, now, es)
    requires forall s :: s in recovered <==> Recovered(s, now, es)
    modifies ids
    ensures alerts == Mint(Drafts(ByService, now, es), ids.supply, old(ids.drawn))
    ensures ids.drawn == old(ids.drawn) + |alerts|
  {
    hide Moment, ReadableEvent, InWindow, Evidence, SubjectSet, SubjectOf, SortedKeys, RaiseFor, Filter, Sort, Mint,
      KeyIs, Recovered, UserKey, AddressKey, SubjectKey, ServiceKey, RecentFailure, RecentRefusal, Within;
    var subjects := SortedKeys(grouped.Keys);
    ghost var raise := RaiseFor(ByService, now, es);
    alerts := [];
    for i := 0 to |subjects|
      invariant alerts == Mint(FlatMap(raise, subjects[..i]), ids.supply, old(ids.drawn))
      invariant ids.drawn == old(ids.drawn) + |alerts|
    {
      RaiseStep(raise, subjects, i, ids.supply, old(ids.drawn));
      var raised := RaiseForService(subjects[i], subjects[i] in recovered, grouped[subjects[i]], now, ids, es);
      alerts := alerts + raised;
    }
    assert subjects[..|subjects|] == subjects;
  }

  method EvaluateServiceFailure(store: EventStore, now: DateTime, ids: FreshIds)
    returns (r: Result<seq<Alert>, Fault>)
    requires now.Valid()
    modifies ids
    ensures Evaluated(r, RuleDrafts(now, store.events)(ServiceFailureRule), store.events,
                      ids.supply, old(ids.drawn), ids.drawn)
  {
    hide Drafts, Moment, ReadableEvent, InWindow, Evidence, SubjectSet, SubjectOf, SortedKeys, RaiseFor, Filter,
      Sort, Mint, KeyIs, Recovered, UserKey, AddressKey, SubjectKey, ServiceKey, RecentFailure, RecentRefusal,
      Within;
    ghost var es := store.events;
    var all :- store.AllEvents();
    var windowed := Filter(Within(5, now), all);
    var grouped := GroupBy(windowed, ServiceKey());
    FailuresGroup(now, es, windowed, grouped);
    var recovered := set e | e in windowed && e.eventType == CircuitClosed :: e.serviceName;
    RecoveredServices(now, es, windowed);
    var alerts := AlertsForServices(grouped, recovered, now, ids, es);
    r := Ok(alerts);
  }

  lemma {:induction false} FailuresGroup(now: DateTime, es: seq<SecurityEvent>, windowed: seq<SecurityEvent>,
                                         grouped: map<string, seq<SecurityEvent>>)
    requires windowed == Filter(Within(5, now), Sort(TimeOrder(), es))
    requires grouped.Keys == set e | e in windowed && ServiceKey()(e).Some? :: ServiceKey()(e).value
    requires forall s :: s in grouped ==> grouped[s] == Filter(KeyIs(ServiceKey(), s), windowed)
    ensures Groups(grouped, ByService, now, es)
  {
    hide Moment, ReadableEvent;
    GroupedIsEvidence(ByService, now, es, windowed, Within(5, now), ServiceKey(), grouped);
  }

  lemma {:induction false} RecoveredServices(now: DateTime, es: seq<SecurityEvent>, windowed: seq<SecurityEvent>)
    requires windowed == Filter(Within(5, now), Sort(TimeOrder(), es))
    ensures var recovered := set e | e in windowed && e.eventType == CircuitClosed :: e.serviceName;
      forall s :: s in recovered <==> Recovered(s, now, es)
  {
    hide Moment, ReadableEvent, InWindow, Sort, Filter;
    assert forall e :: e in windowed <==> e in es && InWindow(5, now, e) by {
      TimeOrderIsTotal();
      SortSorts(TimeOrder(), es);
      FilterIn(Within(5, now), Sort(TimeOrder(), es));
    }
  }

  // ------------------------------------------------------------------- the runner

  method Evaluate(rule: Rule, store: EventStore, now: DateTime, ids: FreshIds)
    returns (r: Result<seq<Alert>, Fault>)
    requires now.Valid()
    modifies ids
    ensures Evaluated(r, RuleDrafts(now, store.events)(rule), store.events, ids.supply, old(ids.drawn), ids.drawn)
  {
    match rule
    case MultipleFailedLoginsRule => r := EvaluateFailedLogins(store, now, ids);
    case UnauthorisedAccessRule => r := EvaluateUnauthorisedAccess(store, now, ids);
    case AbnormalRequestRateRule => r := EvaluateAbnormalRate(store, now, ids);
    case ServiceFailureRule => r := EvaluateServiceFailure(store, now, ids);
  }

  /** `evaluate_all`: every rule of the list over one store at one moment. */
  method EvaluateAll(store: EventStore, now: DateTime, rules: seq<Rule>, ids: FreshIds)
    returns (r: Result<seq<Alert>, Fault>)
    requires now.Valid()
    modifies ids
    ensures rules != [] ==> Evaluated(r, FlatMap(RuleDrafts(now, store.events), rules), store.events,
                                      ids.supply, old(ids.drawn), ids.drawn)
    ensures rules == [] ==> r == Ok([]) && ids.drawn == old(ids.drawn)
  {
    hide ReadableEvent, Drafts;
    var alerts: seq<Alert> := [];
    for i := 0 to |rules|
      invariant i > 0 ==> Readable(store.events)
      invariant alerts == Mint(FlatMap(RuleDrafts(now, store.events), rules[..i]), ids.supply, old(ids.drawn))
      invariant ids.drawn == old(ids.drawn) + |alerts|
    {
      var raised :- Evaluate(rules[i], store, now, ids);
      assert rules[..i + 1][..i] == rules[..i];
      MintConcat(FlatMap(RuleDrafts(now, store.events), rules[..i]), RuleDrafts(now, store.events)(rules[i]),
                 ids.supply, old(ids.drawn));
      alerts := alerts + raised;
    }
    assert rules[..|rules|] == rules;
    r := Ok(alerts);
  }

  /** `persist_alerts`: refuse evidence the store does not hold, then hand the
      alerts to the process-wide store. */
  method PersistAlerts(alerts: seq<Alert>, store: EventStore, alertStore: AlertStore)
    returns (r: Result<int, Fault>)
    modifies alertStore
    ensures !Readable(store.events) ==> r == Err(UnreadableTimestamp) && alertStore.alerts == old(alertStore.alerts)
    ensures Readable(store.events) ==>
      if forall a :: a in alerts ==> Resolves(a, store.events)
      then alertStore.alerts == AddAll(old(alertStore.alerts), alerts)
           && r == Ok(|alertStore.alerts.Keys - old(alertStore.alerts).Keys|)
      else r == Err(DanglingEvidence) && alertStore.alerts == old(alertStore.alerts)
  {
    hide Moment, ReadableEvent, Format;
    var all :- store.AllEvents();
    var knownIds := set e | e in all :: e.eventId;
    TimeOrderIsTotal();
    SortSorts(TimeOrder(), store.events);
    for i := 0 to |alerts|
      invariant forall a :: a in alerts[..i] ==> Resolves(a, store.events)
      invariant alertStore.alerts == old(alertStore.alerts)
    {
      var cited := set id | id in alerts[i].relatedEvents;
      var dangling := cited - knownIds;
      if dangling != {} {
        var id :| id in dangling;
        assert alerts[i] in alerts && !Resolves(alerts[i], store.events);
        return Err(DanglingEvidence);
      }
      assert Resolves(alerts[i], store.events) by {
        forall id | id in alerts[i].relatedEvents
          ensures exists e :: e in store.events && e.eventId == id
        {
          assert id in cited && id !in cited - knownIds;
        }
      }
    }
    assert alerts[..|alerts|] == alerts;
    var stored := alertStore.Extend(alerts);
    r := Ok(stored);
  }

  /** Every event the alert cites is in the store. */
  predicate Resolves(a: Alert, es: seq<SecurityEvent>) {
    forall id :: id in a.relatedEvents ==> exists e :: e in es && e.eventId == id
  }
}
