/** The graph loader's orchestrator: run the rules over the collected events,
    re-key their alerts, and apply the three sources in order. */
module Loader {
  import opened Wrappers
  import opened Sequences
  import opened Strings
  import opened Timestamps
  import opened Events
  import opened EventStores
  import opened Alerts
  import opened Detection
  import opened Graphs
  import opened LoadEvents
  import opened LoadOrder
  import opened LoadedGraph
  import Knowledge
  import RuleTheorems
  import Rules
  import Topology

  // ------------------------------------------------------------------ collecting

  /** `_latest_moment`: the newest event's, or the clock's. */
  function LatestMoment(all: seq<SecurityEvent>, clock: DateTime): (now: DateTime)
    requires clock.Valid() && Readable(all)
    ensures now.Valid()
  {
    if all == [] then clock else
    assert all[|all| - 1] in all;
    Parse(all[|all| - 1].timestamp).value
  }

  /** The alerts the graph will hold: the catalogue's, re-keyed, one per
      identifier, newest first. */
  function StoredAlerts(digest: Digest, drafts: seq<Alert>): seq<Alert> {
    Listing(AddAll(map[], WithStableIds(digest, drafts)), EVERYTHING)
  }

  lemma {:induction false} SortedStaysReadable(es: seq<SecurityEvent>)
    requires Readable(es)
    ensures Readable(Sort(TimeOrder(), es))
  {
    hide Moment, ReadableEvent;
    TimeOrderIsTotal();
    SortSorts(TimeOrder(), es);
  }

  /** The moment the rules are evaluated at. */
  function EvaluationMoment(es: seq<SecurityEvent>, clock: DateTime): (now: DateTime)
    requires clock.Valid() && Readable(es)
    ensures now.Valid()
  {
    SortedStaysReadable(es);
    LatestMoment(Sort(TimeOrder(), es), clock)
  }

  /** It is the newest event's. */
  lemma {:induction false} EvaluatedAtNewest(es: seq<SecurityEvent>, clock: DateTime)
    requires clock.Valid() && Readable(es)
    ensures es == [] ==> EvaluationMoment(es, clock) == clock
    ensures forall e :: e in es ==> Moment(e) <= EvaluationMoment(es, clock).Instant()
    ensures es != [] ==> exists e :: e in es && Parse(e.timestamp) == Some(EvaluationMoment(es, clock))
  {
    hide Sort, DateTime.Instant, Parse;
    var all := Sort(TimeOrder(), es);
    TimeOrderIsTotal();
    SortSorts(TimeOrder(), es);
    SortedStaysReadable(es);
    if all != [] {
      var newest := all[|all| - 1];
      assert newest in es && Parse(newest.timestamp) == Some(EvaluationMoment(es, clock));
      forall e | e in es
        ensures Moment(e) <= Moment(newest)
      {
        LastIsGreatest(TimeOrder(), all, e);
      }
    }
  }

  /** So it does not depend on the order of ingestion either. */
  lemma {:induction false} MomentForgetsOrder(es: seq<SecurityEvent>, fs: seq<SecurityEvent>, clock: DateTime)
    requires clock.Valid() && Readable(es) && Readable(fs) && multiset(es) == multiset(fs)
    ensures EvaluationMoment(es, clock) == EvaluationMoment(fs, clock)
  {
    hide EvaluationMoment, DateTime.Instant, Parse;
    SameMultiset(es, fs);
    EvaluatedAtNewest(es, clock);
    EvaluatedAtNewest(fs, clock);
    if es != [] {
      InstantOrder(EvaluationMoment(es, clock), EvaluationMoment(fs, clock));
    }
  }

  /** The first half of `collect_writes`: an alert store of the run's own. */
  method RaiseAlerts(store: EventStore, clock: DateTime, digest: Digest, ids: FreshIds)
    returns (r: Result<AlertStore, Fault>)
    requires clock.Valid()
    modifies ids
    ensures r.Ok? <==> Readable(store.events)
    ensures r.Err? ==> r.error == UnreadableTimestamp
    ensures r.Ok? ==> fresh(r.value)
    ensures r.Ok? ==>
      var drafts := AllDrafts(EvaluationMoment(store.events, clock), store.events);
      r.value.alerts == AddAll(map[], WithStableIds(digest, drafts))
  {
    hide ReadableEvent, Moment, RuleDrafts, FlatMap, AddAll, Sort, WithStableIds, Mint;
    var all :- store.AllEvents();
    SortedStaysReadable(store.events);
    var now := LatestMoment(all, clock);
    assert ALL_RULES[0] in ALL_RULES;
    var raised := Rules.EvaluateAll(store, now, ALL_RULES, ids);
    FreshIdsForgotten(digest, AllDrafts(now, store.events), ids.supply, old(ids.drawn));
    var alertStore := new AlertStore();
    var _ := alertStore.Extend(WithStableIds(digest, raised.value));
    r := Ok(alertStore);
  }

  /** `collect_writes`: (source, writes) pairs in the order they are applied. */
  method CollectWrites(store: EventStore, clock: DateTime, digest: Digest, ids: FreshIds,
                       users: seq<Topology.SeedUser>, assets: seq<Topology.SeedAsset>)
    returns (r: Result<seq<(Source, seq<Write>)>, Fault>)
    requires clock.Valid()
    modifies ids
    ensures !Readable(store.events) ==> r == Err(UnreadableTimestamp)
    ensures Readable(store.events) ==>
      r == Ok([(Source.Topology, Topology.TopologyWrites(users, assets)),
               (LiveEvents,
                EventsWrites(Sort(TimeOrder(), store.events),
                             StoredAlerts(digest, AllDrafts(EvaluationMoment(store.events, clock), store.events)))),
               (SecurityKnowledge, Knowledge.KnowledgeWrites())])
  {
    hide ReadableEvent, Moment, AllDrafts, EventsWrites, Topology.TopologyWrites, Knowledge.KnowledgeWrites,
      Listing, AddAll, WithStableIds, EvaluationMoment, Sort;
    var alertStore :- RaiseAlerts(store, clock, digest, ids);
    AddAllKeyed(map[], WithStableIds(digest, AllDrafts(EvaluationMoment(store.events, clock), store.events)));
    var topology := Topology.BuildTopology(users, assets);
    var live := BuildEvents(store, alertStore);
    var knowledge := Knowledge.BuildKnowledge();
    r := Ok([(Source.Topology, topology), (LiveEvents, live.value), (SecurityKnowledge, knowledge)]);
  }

  // -------------------------------------------------------------------- applying

  function WritesOf(): ((Source, seq<Write>)) -> seq<Write> {
    (pair: (Source, seq<Write>)) => pair.1
  }

  /** One transaction per source, in order. */
  method ApplySources(session: Session, sources: seq<(Source, seq<Write>)>) returns (executed: int)
    modifies session
    ensures session.Contents() == RunAll(FlatMap(WritesOf(), sources), old(session.Contents()))
    ensures executed == |FlatMap(WritesOf(), sources)|
  {
    hide RunAll;
    executed := 0;
    RunNothing(session.Contents());
    for i := 0 to |sources|
      invariant session.Contents() == RunAll(FlatMap(WritesOf(), sources[..i]), old(session.Contents()))
      invariant executed == |FlatMap(WritesOf(), sources[..i])|
    {
      assert sources[..i + 1][..i] == sources[..i];
      RunConcat(FlatMap(WritesOf(), sources[..i]), sources[i].1, old(session.Contents()));
      var count := session.Apply(sources[i].1);
      executed := executed + count;
    }
    assert sources[..|sources|] == sources;
  }

  lemma {:induction false} RunNothing(g: Graph)
    ensures RunAll([], g) == g
  {
  }

  lemma {:induction false} SourcesInOrder(sources: seq<(Source, seq<Write>)>)
    requires |sources| == 3
    ensures FlatMap(WritesOf(), sources) == sources[0].1 + sources[1].1 + sources[2].1
  {
    assert sources[..2][..1] == sources[..1];
    assert FlatMap(WritesOf(), sources[..1]) == [] + sources[0].1;
    assert FlatMap(WritesOf(), sources[..2]) == sources[0].1 + sources[1].1;
  }

  /** The load: a stream with an unreadable timestamp touches nothing; any other
      leaves the graph that the collected writes make of what was there. */
  method Load(session: Session, store: EventStore, clock: DateTime, digest: Digest, ids: FreshIds,
              users: seq<Topology.SeedUser>, assets: seq<Topology.SeedAsset>)
    returns (r: Result<int, Fault>)
    requires clock.Valid()
    modifies session, ids
    ensures !Readable(store.events) ==> r == Err(UnreadableTimestamp) && session.Contents() == old(session.Contents())
    ensures Readable(store.events) ==>
      && session.Contents() == RunAll(LoadedWrites(store.events, clock, digest, users, assets), old(session.Contents()))
      && r == Ok(|LoadedWrites(store.events, clock, digest, users, assets)|)
  {
    hide ReadableEvent, Moment, AllDrafts, EventsWrites, Topology.TopologyWrites, Knowledge.KnowledgeWrites,
      Listing, AddAll, WithStableIds, EvaluationMoment, Sort, RunAll, FlatMap, StoredAlerts;
    var sources :- CollectWrites(store, clock, digest, ids, users, assets);
    SourcesInOrder(sources);
    var executed := ApplySources(session, sources);
    r := Ok(executed);
  }

  /** What one load runs; the supply of fresh identifiers is no part of it. */
  function LoadedWrites(es: seq<SecurityEvent>, clock: DateTime, digest: Digest, users: seq<Topology.SeedUser>,
                        assets: seq<Topology.SeedAsset>): seq<Write>
    requires clock.Valid() && Readable(es)
  {
    CollectedWrites(Sort(TimeOrder(), es), StoredAlerts(digest, AllDrafts(EvaluationMoment(es, clock), es)),
                    users, assets)
  }

  // --------------------------------------------------------------- fresh identity

  /** Re-keying forgets the identifiers the alerts were minted with. */
  lemma {:induction false} FreshIdsForgotten(digest: Digest, drafts: seq<Alert>, supply: nat -> string, n: nat)
    ensures WithStableIds(digest, Mint(drafts, supply, n)) == WithStableIds(digest, drafts)
  {
  }

  /** Nor does the order in which an alert cites its evidence matter. */
  lemma {:induction false} CitationOrderForgotten(digest: Digest, a: Alert, b: Alert)
    requires b == a.(relatedEvents := b.relatedEvents)
    requires multiset(a.relatedEvents) == multiset(b.relatedEvents)
    ensures StableAlertId(digest, a) == StableAlertId(digest, b)
  {
    OrderIsTotal();
    SortForgetsOrder(Order(), a.relatedEvents, b.relatedEvents);
  }

  // ----------------------------------------------------------- one per identifier

  /** The graph's alerts: of those sharing an identifier, the last raised. */
  lemma {:induction false} StoredIsLast(digest: Digest, drafts: seq<Alert>, a: Alert)
    ensures DistinctIds(StoredAlerts(digest, drafts))
    ensures a in StoredAlerts(digest, drafts)
      <==> exists i: nat :: (LastWith(WithStableIds(digest, drafts), i, a.alertId)
                             && WithStableIds(digest, drafts)[i] == a)
  {
    hide Listing, WithStableIds;
    var keyed := WithStableIds(digest, drafts);
    var held := AddAll(map[], keyed);
    AddAllKeyed(map[], keyed);
    ListingIsListing(held, EVERYTHING);
    LastOneWins(keyed, a.alertId);
  }

  ghost predicate AlikeWhenShared(keyed: seq<Alert>) {
    forall i, j :: 0 <= i < j < |keyed| && keyed[i].alertId == keyed[j].alertId ==> keyed[i] == keyed[j]
  }

  /** No raised alert is lost exactly when alerts that share an identifier are
      alike in everything else. */
  lemma {:induction false} NothingLostIff(digest: Digest, drafts: seq<Alert>)
    ensures (forall a :: a in WithStableIds(digest, drafts) ==> a in StoredAlerts(digest, drafts))
      <==> AlikeWhenShared(WithStableIds(digest, drafts))
  {
    hide StoredAlerts, WithStableIds, LastWith;
    var keyed, stored := WithStableIds(digest, drafts), StoredAlerts(digest, drafts);
    forall i | 0 <= i < |keyed|
      ensures AlikeWhenShared(keyed) ==> keyed[i] in stored
    {
      if AlikeWhenShared(keyed) {
        var l := KeptAs(digest, drafts, i);
        assert keyed[l] == keyed[i];
      }
    }
    if forall a :: a in keyed ==> a in stored {
      forall i, j | 0 <= i < j < |keyed| && keyed[i].alertId == keyed[j].alertId
        ensures keyed[i] == keyed[j]
      {
        StoredIsLast(digest, drafts, keyed[i]);
        assert keyed[i] in keyed && keyed[j] in keyed;
      }
    }
  }

  /** What the store holds under the identifier of the alert at `i`. */
  lemma {:induction false} KeptAs(digest: Digest, drafts: seq<Alert>, i: nat) returns (l: nat)
    requires i < |drafts|
    ensures var keyed := WithStableIds(digest, drafts);
      i <= l < |keyed| && keyed[l].alertId == keyed[i].alertId && keyed[l] in StoredAlerts(digest, drafts)
  {
    hide StoredAlerts, WithStableIds;
    var keyed := WithStableIds(digest, drafts);
    LastFrom(keyed, i);
    l :| i <= l && LastWith(keyed, l, keyed[i].alertId);
    StoredIsLast(digest, drafts, keyed[l]);
  }

  lemma {:induction false} LastFrom(keyed: seq<Alert>, i: nat)
    requires i < |keyed|
    ensures exists l: nat :: i <= l && LastWith(keyed, l, keyed[i].alertId)
    decreases |keyed| - i
  {
    if j :| i < j < |keyed| && keyed[j].alertId == keyed[i].alertId {
      LastFrom(keyed, j);
    } else {
      assert LastWith(keyed, i, keyed[i].alertId);
    }
  }

  // ------------------------------------------------------ evidence, end to end

  lemma {:induction false} StoredAreDrafts(digest: Digest, drafts: seq<Alert>, a: Alert) returns (i: nat)
    requires a in StoredAlerts(digest, drafts)
    ensures i < |drafts| && a == Rekeyed(digest)(drafts[i])
  {
    hide StoredAlerts;
    StoredIsLast(digest, drafts, a);
    i :| LastWith(WithStableIds(digest, drafts), i, a.alertId) && WithStableIds(digest, drafts)[i] == a;
  }

  /** Every alert the catalogue hands to the graph cites collected events, and
      at least one. */
  lemma {:induction false} StoredEvidenceResolves(digest: Digest, now: DateTime, es: seq<SecurityEvent>)
    requires now.Valid()
    ensures var stored := StoredAlerts(digest, AllDrafts(now, es));
      && DistinctIds(stored) && EvidenceCollected(Sort(TimeOrder(), es), stored)
      && forall a :: a in stored ==> a.relatedEvents != []
  {
    hide AllDrafts, StoredAlerts, StableAlertId, Sort, TimeOrder;
    var stored := StoredAlerts(digest, AllDrafts(now, es));
    TimeOrderIsTotal();
    SortSorts(TimeOrder(), es);
    RuleTheorems.CatalogueResolves(now, es, (n: nat) => "", 0);
    StoredDistinct(digest, AllDrafts(now, es));
    forall a | a in stored
      ensures a.relatedEvents != [] && Rules.Resolves(a, es)
    {
      var i := StoredAreDrafts(digest, AllDrafts(now, es), a);
      assert AllDrafts(now, es)[i] in AllDrafts(now, es);
      assert Rules.Resolves(AllDrafts(now, es)[i], es);
    }
    forall a, id | a in stored && id in a.relatedEvents
      ensures exists e :: e in Sort(TimeOrder(), es) && e.eventId == id
    {
      assert Rules.Resolves(a, es);
    }
  }

  lemma {:induction false} StoredDistinct(digest: Digest, drafts: seq<Alert>)
    ensures DistinctIds(StoredAlerts(digest, drafts))
  {
    hide Listing, WithStableIds;
    AddAllKeyed(map[], WithStableIds(digest, drafts));
    ListingIsListing(AddAll(map[], WithStableIds(digest, drafts)), EVERYTHING);
  }

  /** From any readable stream: in the graph every alert has an event that
      caused it, and the technique its rule stands for. */
  lemma {:induction false} EveryAlertIsExplained(es: seq<SecurityEvent>, clock: DateTime, digest: Digest,
                                                 users: seq<Topology.SeedUser>, assets: seq<Topology.SeedAsset>,
                                                 a: Alert)
    requires clock.Valid() && Readable(es)
    requires a in StoredAlerts(digest, AllDrafts(EvaluationMoment(es, clock), es))
    ensures var final := RunAll(LoadedWrites(es, clock, digest, users, assets), EMPTY_GRAPH);
      && (exists e :: e in es && Edge(EventKey(e.eventId), CreatedAlert, AlertKey(a.alertId)) in final.edges)
      && Edge(AlertKey(a.alertId), Indicates, Knowledge.ThreatKey(Knowledge.TechniqueOf(a.rule))) in final.edges
  {
    hide AllDrafts, StoredAlerts, Sort, TimeOrder, CollectedWrites, RunAll, EvaluationMoment, ReadableEvent;
    var now := EvaluationMoment(es, clock);
    var all, stored := Sort(TimeOrder(), es), StoredAlerts(digest, AllDrafts(now, es));
    TimeOrderIsTotal();
    SortSorts(TimeOrder(), es);
    StoredEvidenceResolves(digest, now, es);
    var id := a.relatedEvents[0];
    CreatedAlertIff(all, stored, users, assets, a, id);
    IndicatesIff(all, stored, users, assets, a, Knowledge.TechniqueOf(a.rule));
    var e :| e in all && e.eventId == id;
  }

  // ------------------------------------------------------------------- collisions

  lemma {:induction false} SameTextsIff(xs: seq<string>, ys: seq<string>)
    ensures Sort(Order(), xs) == Sort(Order(), ys) <==> multiset(xs) == multiset(ys)
  {
    OrderIsTotal();
    SortSorts(Order(), xs);
    SortSorts(Order(), ys);
    if multiset(xs) == multiset(ys) {
      SortForgetsOrder(Order(), xs, ys);
    }
  }

  /** The same text, a missing one read as empty. */
  ghost predicate SameOrBlank(x: Option<string>, y: Option<string>) {
    x == y || (x in {None, Some("")} && y in {None, Some("")})
  }

  /** Alerts are one to the graph exactly when they are of one rule, name the same
      service, user and entity, and cite the same events, each as often: neither their
      severity nor their time, status or description tells them apart. */
  lemma {:induction false} IdentityIff(a: Alert, b: Alert)
    ensures MaterialOf(a) == MaterialOf(b)
      <==> (&& a.rule == b.rule && multiset(a.relatedEvents) == multiset(b.relatedEvents)
            && SameOrBlank(a.affectedService, b.affectedService) && SameOrBlank(a.affectedUser, b.affectedUser)
            && SameOrBlank(a.affectedEntity, b.affectedEntity))
  {
    hide Sort;
    SameTextsIff(a.relatedEvents, b.relatedEvents);
  }

  /** Re-keying changes the identifier and nothing else, to one that depends on the
      identity alone. */
  lemma {:induction false} RekeyedIn(digest: Digest, alerts: seq<Alert>, i: nat)
    requires i < |alerts|
    ensures var keyed := WithStableIds(digest, alerts)[i];
      && keyed == alerts[i].(alertId := keyed.alertId)
      && "alt-" <= keyed.alertId && keyed.alertId[4..] == digest(MaterialOf(alerts[i]))
  {
    hide MaterialOf;
    var id := WithStableIds(digest, alerts)[i].alertId;
    assert id == "alt-" + digest(MaterialOf(alerts[i]));
  }

  /** Rule 1's alert on a user and its alert on an address get one identifier
      exactly when they cite the same events, the user is the only one named in
      them, and the last of each is of one service. */
  lemma {:induction false} SharedIdentityIff(u: string, s: string, now: DateTime, es: seq<SecurityEvent>)
    requires now.Valid() && Evidence(ByUser, u, now, es) != [] && Evidence(ByAddress, s, now, es) != []
    ensures var ofUser, ofAddress := Evidence(ByUser, u, now, es), Evidence(ByAddress, s, now, es);
      MaterialOf(DraftFor(ByUser, u, now, es)) == MaterialOf(DraftFor(ByAddress, s, now, es))
      <==> (&& multiset(EventIds(ofUser)) == multiset(EventIds(ofAddress))
            && OrEmpty(Only(Users(ofAddress))) == u
            && ofUser[|ofUser| - 1].serviceName == ofAddress[|ofAddress| - 1].serviceName)
    ensures DraftFor(ByUser, u, now, es).description != DraftFor(ByAddress, s, now, es).description
  {
    hide Evidence, Format, Sort, Only, Users, Addresses, EventIds, Recovered, SortedKeys;
    SameTextsIff(EventIds(Evidence(ByUser, u, now, es)), EventIds(Evidence(ByAddress, s, now, es)));
  }

  /** The alert on the user is then lost: the graph keeps another under its
      identifier. */
  lemma {:induction false} SharedIdentityLosesUserAlert(digest: Digest, u: string, s: string, now: DateTime,
                                                        es: seq<SecurityEvent>)
    requires now.Valid() && Alerted(ByUser, u, now, es) && Alerted(ByAddress, s, now, es)
    requires MaterialOf(DraftFor(ByUser, u, now, es)) == MaterialOf(DraftFor(ByAddress, s, now, es))
    ensures DraftFor(ByUser, u, now, es) in AllDrafts(now, es)
    ensures Rekeyed(digest)(DraftFor(ByUser, u, now, es)) !in StoredAlerts(digest, AllDrafts(now, es))
  {
    hide AllDrafts, StoredAlerts, DraftFor, Evidence, Fires, MaterialOf;
    DraftRaised(ByUser, u, now, es);
    DraftRaised(ByAddress, s, now, es);
    UserDescription(u, now, es);
    LaterNamesakeWins(digest, now, es, DraftFor(ByUser, u, now, es), DraftFor(ByAddress, s, now, es));
  }

  lemma {:induction false} LaterNamesakeWins(digest: Digest, now: DateTime, es: seq<SecurityEvent>, d: Alert, b: Alert)
    requires now.Valid() && d in Drafts(ByUser, now, es) && b in Drafts(ByAddress, now, es)
    requires MaterialOf(d) == MaterialOf(b) && d.description.FailedLoginsForUser?
    ensures d in AllDrafts(now, es)
    ensures Rekeyed(digest)(d) !in StoredAlerts(digest, AllDrafts(now, es))
  {
    hide AllDrafts, StoredAlerts, Drafts, MaterialOf;
    var drafts, keyed := AllDrafts(now, es), WithStableIds(digest, AllDrafts(now, es));
    CatalogueOrder(now, es);
    var k: nat :| k < |Drafts(ByAddress, now, es)| && Drafts(ByAddress, now, es)[k] == b;
    var j := |Drafts(ByUser, now, es)| + k;
    assert drafts[j] == b;
    if Rekeyed(digest)(d) in StoredAlerts(digest, drafts) {
      StoredIsLast(digest, drafts, Rekeyed(digest)(d));
      var l: nat :| LastWith(keyed, l, Rekeyed(digest)(d).alertId) && keyed[l] == Rekeyed(digest)(d);
      assert keyed[j].alertId == keyed[l].alertId;
      assert j <= l;
      OnlyUsersFirst(now, es, l);
      assert false;
    }
  }

  lemma {:induction false} UserDescription(u: string, now: DateTime, es: seq<SecurityEvent>)
    requires now.Valid() && Alerted(ByUser, u, now, es)
    ensures DraftFor(ByUser, u, now, es).description.FailedLoginsForUser?
  {
    hide Evidence, Format, Sort, Only, Users, Addresses, EventIds, Recovered, SortedKeys, Fires;
  }

  /** The failures counted against a user are those counted against an address. */
  ghost predicate SameFailures(u: string, s: string, now: DateTime, es: seq<SecurityEvent>) {
    forall e :: e in es ==> (Counts(ByUser, u, now)(e) <==> Counts(ByAddress, s, now)(e))
  }

  lemma {:induction false} SameFailuresSameEvidence(u: string, s: string, now: DateTime, es: seq<SecurityEvent>)
    requires SameFailures(u, s, now, es)
    ensures Evidence(ByUser, u, now, es) == Evidence(ByAddress, s, now, es)
    ensures Alerted(ByUser, u, now, es) <==> Alerted(ByAddress, s, now, es)
    ensures OrEmpty(Only(Users(Evidence(ByUser, u, now, es)))) == u || Evidence(ByUser, u, now, es) == []
  {
    hide Counts, Sort, Filter, Only, Users;
    TimeOrderIsTotal();
    SortSorts(TimeOrder(), es);
    FilterSame(Counts(ByUser, u, now), Counts(ByAddress, s, now), Sort(TimeOrder(), es));
    OnlyUserCounted(u, now, es);
  }

  lemma {:induction false} OnlyUserCounted(u: string, now: DateTime, es: seq<SecurityEvent>)
    ensures OrEmpty(Only(Users(Evidence(ByUser, u, now, es)))) == u || Evidence(ByUser, u, now, es) == []
  {
    hide Evidence, InWindow, Only;
    EvidenceElements(ByUser, u, now, es);
    if Evidence(ByUser, u, now, es) != [] {
      OnlyUser(Evidence(ByUser, u, now, es), u);
    }
  }

  /** An attacker who fails on one account from one address, which fails on no other,
      is alerted on by both keyings, and the alert on the account is lost. */
  lemma {:induction false} OneAttackerIsEnough(digest: Digest, u: string, s: string, now: DateTime,
                                               es: seq<SecurityEvent>)
    requires now.Valid() && RuleTheorems.OverThreshold(ByUser, u, now, es) && SameFailures(u, s, now, es)
    ensures Alerted(ByUser, u, now, es) && Alerted(ByAddress, s, now, es)
    ensures Rekeyed(digest)(DraftFor(ByUser, u, now, es)) !in StoredAlerts(digest, AllDrafts(now, es))
  {
    hide AllDrafts, StoredAlerts, Evidence, MaterialOf, Only, Users, EventIds, DraftFor, Counts, SameFailures,
      Fires, RuleTheorems.OverThreshold;
    RuleTheorems.AlertedIff(ByUser, u, now, es);
    SameFailuresSameEvidence(u, s, now, es);
    SharedIdentityIff(u, s, now, es);
    SharedIdentityLosesUserAlert(digest, u, s, now, es);
  }

  lemma {:induction false} OnlyUser(es: seq<SecurityEvent>, u: string)
    requires es != [] && forall e :: e in es ==> e.userId == Some(u)
    ensures OrEmpty(Only(Users(es))) == u
  {
    assert es[0] in es;
    Rules.NonemptyKeys({});
    if u == "" {
      assert Users(es) == {};
    } else {
      assert Users(es) == {u};
      assert {u} - {u} == {};
      Rules.NonemptyKeys({u});
      var keys := SortedKeys({u});
      assert |keys| == 1;
    }
  }

  // ------------------------------------------------------ what is lost, and only that

  /** An identifier is one event's. */
  ghost predicate IdsIdentify(es: seq<SecurityEvent>) {
    forall e, f :: e in es && f in es && e.eventId == f.eventId ==> e == f
  }

  /** No two of the alerts differ in what is digested and not in the digest. */
  ghost predicate CollisionFree(digest: Digest, drafts: seq<Alert>) {
    forall a, b :: a in drafts && b in drafts && digest(MaterialOf(a)) == digest(MaterialOf(b)) ==>
                     MaterialOf(a) == MaterialOf(b)
  }

  lemma {:induction false} DraftComesFrom(now: DateTime, es: seq<SecurityEvent>, d: Alert) returns (k: Keying,
                                          s: string)
    requires now.Valid() && d in AllDrafts(now, es)
    ensures Alerted(k, s, now, es) && d == DraftFor(k, s, now, es)
  {
    hide Drafts, Alerted, DraftFor, AllDrafts, SubjectSet, SortedKeys;
    CatalogueOrder(now, es);
    k :| d in Drafts(k, now, es);
    s := DraftOf(k, now, es, d);
  }

  lemma {:induction false} DraftOf(k: Keying, now: DateTime, es: seq<SecurityEvent>, d: Alert) returns (s: string)
    requires now.Valid() && d in Drafts(k, now, es)
    ensures Alerted(k, s, now, es) && d == DraftFor(k, s, now, es)
  {
    hide Evidence, SubjectSet, SortedKeys, DraftFor, Fires;
    FlatMapIn(RaiseFor(k, now, es), SortedKeys(SubjectSet(k, now, es)), d);
    s :| d in RaiseFor(k, now, es)(s);
  }

  /** Alerts of one identity cite the same events. */
  lemma {:induction false} SameMaterialSameEvents(k: Keying, s: string, k': Keying, s': string, now: DateTime,
                                                  es: seq<SecurityEvent>, e: SecurityEvent)
    requires now.Valid() && IdsIdentify(es) && Evidence(k, s, now, es) != [] && Evidence(k', s', now, es) != []
    requires MaterialOf(DraftFor(k, s, now, es)) == MaterialOf(DraftFor(k', s', now, es))
    requires e in es && Counts(k, s, now)(e)
    ensures Counts(k', s', now)(e)
  {
    hide Evidence, Counts;
    var mine, others := Evidence(k, s, now, es), Evidence(k', s', now, es);
    EvidenceElements(k, s, now, es);
    EvidenceElements(k', s', now, es);
    SameMaterialSameIds(k, s, now, es, k', s', now, es);
    var i :| 0 <= i < |mine| && mine[i] == e;
    assert EventIds(mine)[i] in multiset(EventIds(mine));
    assert e.eventId in EventIds(others);
    var j :| 0 <= j < |others| && others[j].eventId == e.eventId;
    assert others[j] in others;
  }

  /** Also across streams and moments. */
  lemma {:induction false} SameMaterialSameIds(k: Keying, s: string, now: DateTime, es: seq<SecurityEvent>,
                                               k': Keying, s': string, now': DateTime, es': seq<SecurityEvent>)
    requires now.Valid() && now'.Valid() && Evidence(k, s, now, es) != [] && Evidence(k', s', now', es') != []
    requires MaterialOf(DraftFor(k, s, now, es)) == MaterialOf(DraftFor(k', s', now', es'))
    ensures k.RuleOf() == k'.RuleOf()
    ensures multiset(EventIds(Evidence(k, s, now, es))) == multiset(EventIds(Evidence(k', s', now', es')))
  {
    hide Evidence, Format, Describe, SeverityOf, AffectedService, AffectedUser, AffectedEntity, Recovered, EventIds,
      Sort;
    SameTextsIff(EventIds(Evidence(k, s, now, es)), EventIds(Evidence(k', s', now', es')));
  }

  /** Two different alerts of one identity are Rule 1's on a user and on an address
      with the same failures. */
  lemma {:induction false} SharersAreRuleOne(k: Keying, s: string, k': Keying, s': string, now: DateTime,
                                             es: seq<SecurityEvent>)
    requires now.Valid() && IdsIdentify(es) && Alerted(k, s, now, es) && Alerted(k', s', now, es)
    requires MaterialOf(DraftFor(k, s, now, es)) == MaterialOf(DraftFor(k', s', now, es))
    requires DraftFor(k, s, now, es) != DraftFor(k', s', now, es)
    ensures (k == ByUser && k' == ByAddress && SameFailures(s, s', now, es))
      || (k == ByAddress && k' == ByUser && SameFailures(s', s, now, es))
  {
    hide Evidence, MaterialOf, DraftFor, Fires, IdsIdentify, InWindow;
    SameMaterialSameIds(k, s, now, es, k', s', now, es);
    forall e | e in es
      ensures Counts(k, s, now)(e) <==> Counts(k', s', now)(e)
    {
      if Counts(k, s, now)(e) {
        SameMaterialSameEvents(k, s, k', s', now, es, e);
      } else if Counts(k', s', now)(e) {
        SameMaterialSameEvents(k', s', k, s, now, es, e);
      }
    }
    EvidenceElements(k, s, now, es);
    var e := Evidence(k, s, now, es)[0];
    assert e in es && Counts(k, s, now)(e);
  }

  /** The catalogue puts Rule 1's users before its addresses. */
  lemma {:induction false} UsersBeforeAddresses(now: DateTime, es: seq<SecurityEvent>, i: nat, l: nat, u: string,
                                                s: string)
    requires now.Valid() && i < |AllDrafts(now, es)| && l < |AllDrafts(now, es)|
    requires Alerted(ByUser, u, now, es) && AllDrafts(now, es)[l] == DraftFor(ByUser, u, now, es)
    requires Alerted(ByAddress, s, now, es) && AllDrafts(now, es)[i] == DraftFor(ByAddress, s, now, es)
    ensures l < i
  {
    hide AllDrafts, Drafts, DraftFor, Alerted;
    UserDescription(u, now, es);
    AddressDescription(s, now, es);
    CatalogueOrder(now, es);
    if l >= |Drafts(ByUser, now, es)| {
      OnlyUsersFirst(now, es, l);
    }
    if i < |Drafts(ByUser, now, es)| {
      assert AllDrafts(now, es)[i] in Drafts(ByUser, now, es);
      var v := DraftOf(ByUser, now, es, AllDrafts(now, es)[i]);
      UserDescription(v, now, es);
    }
  }

  lemma {:induction false} AddressDescription(s: string, now: DateTime, es: seq<SecurityEvent>)
    requires now.Valid() && Alerted(ByAddress, s, now, es)
    ensures DraftFor(ByAddress, s, now, es).description.FailedLoginsFromAddress?
  {
    hide Evidence, Format, Sort, Only, Users, Addresses, EventIds, Recovered, SortedKeys, Fires;
  }

  /** An alert the graph does not hold shares its identity with a later one. */
  lemma {:induction false} LostToALater(digest: Digest, now: DateTime, es: seq<SecurityEvent>, d: Alert)
    returns (i: nat, l: nat)
    requires now.Valid() && d in AllDrafts(now, es) && CollisionFree(digest, AllDrafts(now, es))
    requires Rekeyed(digest)(d) !in StoredAlerts(digest, AllDrafts(now, es))
    ensures i < l < |AllDrafts(now, es)| && AllDrafts(now, es)[i] == d && AllDrafts(now, es)[l] != d
    ensures MaterialOf(AllDrafts(now, es)[l]) == MaterialOf(d)
  {
    hide AllDrafts, StoredAlerts, MaterialOf;
    var drafts := AllDrafts(now, es);
    i :| 0 <= i < |drafts| && drafts[i] == d;
    l := KeptAs(digest, drafts, i);
    var mine, other := digest(MaterialOf(d)), digest(MaterialOf(drafts[l]));
    assert mine == ("alt-" + mine)[4..] && other == ("alt-" + other)[4..];
    assert drafts[l] in drafts;
  }

  /** With identifiers that identify events, and no collision of digests, what the
      graph loses of the catalogue's alerts is exactly the alerts on a user whose
      failures are all, and all the failures, of some address. */
  lemma {:induction false} LostIff(digest: Digest, k: Keying, s: string, now: DateTime, es: seq<SecurityEvent>)
    requires now.Valid() && Alerted(k, s, now, es)
    requires IdsIdentify(es) && CollisionFree(digest, AllDrafts(now, es))
    ensures Rekeyed(digest)(DraftFor(k, s, now, es)) !in StoredAlerts(digest, AllDrafts(now, es))
      <==> k == ByUser && exists address :: SameFailures(s, address, now, es)
  {
    hide AllDrafts, StoredAlerts, DraftFor, MaterialOf, Evidence, Fires, SameFailures, IdsIdentify, CollisionFree,
      Rekeyed, RuleTheorems.OverThreshold, Drafts;
    if k == ByUser {
      RuleTheorems.AlertedIff(ByUser, s, now, es);
      if address :| SameFailures(s, address, now, es) {
        OneAttackerIsEnough(digest, s, address, now, es);
      }
    }
    var d := DraftFor(k, s, now, es);
    if Rekeyed(digest)(d) !in StoredAlerts(digest, AllDrafts(now, es)) {
      DraftRaised(k, s, now, es);
      CatalogueOrder(now, es);
      var i, l := LostToALater(digest, now, es, d);
      assert AllDrafts(now, es)[l] in AllDrafts(now, es);
      var k', s' := DraftComesFrom(now, es, AllDrafts(now, es)[l]);
      SharersAreRuleOne(k, s, k', s', now, es);
      if k == ByAddress {
        UsersBeforeAddresses(now, es, i, l, s', s);
        assert false;
      }
    }
  }

  lemma {:induction false} DraftRaised(k: Keying, s: string, now: DateTime, es: seq<SecurityEvent>)
    requires now.Valid() && Alerted(k, s, now, es)
    ensures DraftFor(k, s, now, es) in Drafts(k, now, es)
  {
    hide DraftFor, Evidence, SubjectSet, Fires, FlatMap;
    RuleTheorems.AlertedIff(k, s, now, es);
    FlatMapIn(RaiseFor(k, now, es), SortedKeys(SubjectSet(k, now, es)), DraftFor(k, s, now, es));
  }

  lemma {:induction false} CatalogueOrder(now: DateTime, es: seq<SecurityEvent>)
    requires now.Valid()
    ensures AllDrafts(now, es)
      == Drafts(ByUser, now, es) + Drafts(ByAddress, now, es) + Drafts(BySubject, now, es) + Drafts(BySource, now, es)
         + Drafts(ByService, now, es)
  {
    hide Drafts;
    var f, r := RuleDrafts(now, es), ALL_RULES;
    assert r[..3][..2] == r[..2] && r[..2][..1] == r[..1];
    assert FlatMap(f, r[..1]) == [] + f(r[0]);
    assert FlatMap(f, r[..2]) == f(r[0]) + f(r[1]);
    assert FlatMap(f, r[..3]) == f(r[0]) + f(r[1]) + f(r[2]);
  }

  /** Past Rule 1's users no draft describes failed logins for a user. */
  lemma {:induction false} OnlyUsersFirst(now: DateTime, es: seq<SecurityEvent>, l: nat)
    requires now.Valid() && |Drafts(ByUser, now, es)| <= l < |AllDrafts(now, es)|
    ensures !AllDrafts(now, es)[l].description.FailedLoginsForUser?
  {
    hide Drafts, AllDrafts;
    CatalogueOrder(now, es);
    var d := AllDrafts(now, es)[l];
    assert AllDrafts(now, es)[|Drafts(ByUser, now, es)|..]
      == Drafts(ByAddress, now, es) + Drafts(BySubject, now, es) + Drafts(BySource, now, es)
        + Drafts(ByService, now, es);
    assert d in AllDrafts(now, es)[|Drafts(ByUser, now, es)|..];
    var k :| k != ByUser && d in Drafts(k, now, es);
    DescribedByKeying(k, now, es, d);
  }

  lemma {:induction false} DescribedByKeying(k: Keying, now: DateTime, es: seq<SecurityEvent>, d: Alert)
    requires now.Valid() && k != ByUser && d in Drafts(k, now, es)
    ensures !d.description.FailedLoginsForUser?
  {
    hide Evidence, SubjectSet, Fires, FlatMap, Format, Sort, Only, Users, Addresses, EventIds, Recovered, SortedKeys;
    FlatMapIn(RaiseFor(k, now, es), SortedKeys(SubjectSet(k, now, es)), d);
  }
}
