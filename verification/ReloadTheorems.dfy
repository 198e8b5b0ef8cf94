/** Loading again after more was collected: which Alert nodes the graph then holds,
    and which of them the rules no longer raise. */
module ReloadTheorems {
  import opened Sequences
  import opened Strings
  import opened Timestamps
  import opened Events
  import opened EventStores
  import opened Alerts
  import opened Detection
  import opened Graphs
  import opened LoadEvents
  import opened Loader
  import LoadOrder
  import LoadedGraph
  import RuleTheorems
  import Topology

  // ------------------------------------------------------------------ two loads

  /** A load of these events stores an alert under this identifier. */
  ghost predicate StoresId(digest: Digest, now: DateTime, es: seq<SecurityEvent>, id: string)
    requires now.Valid()
  {
    exists a :: a in StoredAlerts(digest, AllDrafts(now, es)) && a.alertId == id
  }

  /** The graph after loading `es` and then, with later events collected, `es + more`. */
  function LoadedTwice(es: seq<SecurityEvent>, more: seq<SecurityEvent>, clock: DateTime, later: DateTime,
                       digest: Digest, users: seq<Topology.SeedUser>, assets: seq<Topology.SeedAsset>): Graph
    requires clock.Valid() && later.Valid() && Readable(es) && Readable(es + more)
  {
    RunAll(LoadedWrites(es + more, later, digest, users, assets),
           RunAll(LoadedWrites(es, clock, digest, users, assets), EMPTY_GRAPH))
  }

  function LoadedOnce(es: seq<SecurityEvent>, clock: DateTime, digest: Digest, users: seq<Topology.SeedUser>,
                      assets: seq<Topology.SeedAsset>): Graph
    requires clock.Valid() && Readable(es)
  {
    RunAll(LoadedWrites(es, clock, digest, users, assets), EMPTY_GRAPH)
  }

  lemma {:induction false} LoadAddsItsAlerts(es: seq<SecurityEvent>, clock: DateTime, digest: Digest,
                                             users: seq<Topology.SeedUser>, assets: seq<Topology.SeedAsset>,
                                             g: Graph, id: string)
    requires clock.Valid() && Readable(es)
    ensures AlertKey(id) in RunAll(LoadedWrites(es, clock, digest, users, assets), g).nodes
      <==> AlertKey(id) in g.nodes || StoresId(digest, EvaluationMoment(es, clock), es, id)
  {
    hide RunAll, LoadOrder.CollectedWrites, StoredAlerts, AllDrafts, Sort, EvaluationMoment, ReadableEvent;
    var stored := StoredAlerts(digest, AllDrafts(EvaluationMoment(es, clock), es));
    LoadedGraph.AlertNodesAdded(Sort(TimeOrder(), es), stored, users, assets, g, AlertKey(id));
  }

  /** The Alert nodes after both loads are those stored for either stream. */
  lemma {:induction false} AlertNodesOfBothLoads(es: seq<SecurityEvent>, more: seq<SecurityEvent>, clock: DateTime,
                                                 later: DateTime, digest: Digest, users: seq<Topology.SeedUser>,
                                                 assets: seq<Topology.SeedAsset>, id: string)
    requires clock.Valid() && later.Valid() && Readable(es) && Readable(es + more)
    ensures AlertKey(id) in LoadedTwice(es, more, clock, later, digest, users, assets).nodes
      <==> (StoresId(digest, EvaluationMoment(es, clock), es, id)
            || StoresId(digest, EvaluationMoment(es + more, later), es + more, id))
  {
    hide RunAll, LoadedWrites, StoresId, EvaluationMoment, ReadableEvent;
    LoadAddsItsAlerts(es, clock, digest, users, assets, EMPTY_GRAPH, id);
    LoadAddsItsAlerts(es + more, later, digest, users, assets, LoadedOnce(es, clock, digest, users, assets), id);
  }

  /** They are those of one load of everything exactly when every identifier stored
      for the first stream is stored for the grown one. */
  lemma {:induction false} NoStaleNodeIffIdsStay(es: seq<SecurityEvent>, more: seq<SecurityEvent>, clock: DateTime,
                                                 later: DateTime, digest: Digest, users: seq<Topology.SeedUser>,
                                                 assets: seq<Topology.SeedAsset>)
    requires clock.Valid() && later.Valid() && Readable(es) && Readable(es + more)
    ensures (forall id :: AlertKey(id) in LoadedTwice(es, more, clock, later, digest, users, assets).nodes
                     <==> AlertKey(id) in LoadedOnce(es + more, later, digest, users, assets).nodes)
      <==> forall id :: StoresId(digest, EvaluationMoment(es, clock), es, id) ==>
                          StoresId(digest, EvaluationMoment(es + more, later), es + more, id)
  {
    hide RunAll, LoadedWrites, StoresId, EvaluationMoment, ReadableEvent, LoadedTwice, LoadedOnce;
    forall id
      ensures AlertKey(id) in LoadedTwice(es, more, clock, later, digest, users, assets).nodes
        <==> (StoresId(digest, EvaluationMoment(es, clock), es, id)
              || StoresId(digest, EvaluationMoment(es + more, later), es + more, id))
      ensures AlertKey(id) in LoadedOnce(es + more, later, digest, users, assets).nodes
        <==> StoresId(digest, EvaluationMoment(es + more, later), es + more, id)
    {
      AlertNodesOfBothLoads(es, more, clock, later, digest, users, assets, id);
      OneLoadsAlerts(es + more, later, digest, users, assets, id);
    }
  }

  lemma {:induction false} OneLoadsAlerts(es: seq<SecurityEvent>, clock: DateTime, digest: Digest,
                                          users: seq<Topology.SeedUser>, assets: seq<Topology.SeedAsset>, id: string)
    requires clock.Valid() && Readable(es)
    ensures AlertKey(id) in LoadedOnce(es, clock, digest, users, assets).nodes
      <==> StoresId(digest, EvaluationMoment(es, clock), es, id)
  {
    hide RunAll, LoadedWrites, StoresId, EvaluationMoment, ReadableEvent;
    LoadAddsItsAlerts(es, clock, digest, users, assets, EMPTY_GRAPH, id);
  }

  // ------------------------------------------------------- when an identifier stays

  /** Under the same rule, what counted against `s` in `es` is what counts against `s'`
      in `es + more`: the window still holds all of it, and nothing later joins it. */
  ghost predicate Recounted(k: Keying, s: string, now: DateTime, es: seq<SecurityEvent>,
                            k': Keying, s': string, now': DateTime, more: seq<SecurityEvent>)
  {
    && k'.RuleOf() == k.RuleOf()
    && (forall e :: e in es ==> (Counts(k, s, now)(e) <==> Counts(k', s', now')(e)))
    && (forall e :: e in more ==> !Counts(k', s', now')(e))
  }

  lemma {:induction false} FilterGrown(p: SecurityEvent -> bool, q: SecurityEvent -> bool, es: seq<SecurityEvent>,
                                       more: seq<SecurityEvent>)
    requires forall e :: e in es ==> (p(e) <==> q(e))
    requires forall e :: e in more ==> !q(e)
    ensures Filter(q, Sort(TimeOrder(), es + more)) == Filter(p, Sort(TimeOrder(), es))
  {
    hide Filter, Sort;
    TimeOrderIsTotal();
    FilterSort(TimeOrder(), q, es + more);
    FilterSort(TimeOrder(), p, es);
    FilterConcat(q, es, more);
    FilterSame(p, q, es);
    RuleTheorems.KeptNone(q, more);
    assert Filter(q, es) + [] == Filter(q, es);
  }

  lemma {:induction false} RecountedSameEvidence(k: Keying, s: string, now: DateTime, es: seq<SecurityEvent>,
                                                 k': Keying, s': string, now': DateTime, more: seq<SecurityEvent>)
    requires Recounted(k, s, now, es, k', s', now', more)
    ensures k'.RuleOf() == k.RuleOf() && Evidence(k', s', now', es + more) == Evidence(k, s, now, es)
  {
    hide Counts, Filter, Sort;
    if k == BySource {
      FilterGrown(CountsTyped(k, s, now, RateLimitExceeded), CountsTyped(k', s', now', RateLimitExceeded), es, more);
      FilterGrown(CountsTyped(k, s, now, RequestReceived), CountsTyped(k', s', now', RequestReceived), es, more);
    } else {
      FilterGrown(Counts(k, s, now), Counts(k', s', now'), es, more);
    }
  }

  /** Its one subject, or Rule 1's other keying of the same failures. */
  lemma {:induction false} RecountedSubject(k: Keying, s: string, now: DateTime, es: seq<SecurityEvent>,
                                            k': Keying, s': string, now': DateTime, more: seq<SecurityEvent>)
    requires Recounted(k, s, now, es, k', s', now', more)
    requires Evidence(k, s, now, es) != []
    ensures k == k' ==> s == s'
    ensures k != k' ==> k.RuleOf() == MultipleFailedLoginsRule
    ensures k == ByUser ==> OrEmpty(Only(Users(Evidence(k, s, now, es)))) == s
    ensures k' == ByUser ==> OrEmpty(Only(Users(Evidence(k, s, now, es)))) == s'
  {
    hide Evidence, InWindow, Only, Users;
    EvidenceElements(k, s, now, es);
    var evidence := Evidence(k, s, now, es);
    assert evidence[0] in evidence;
    if k == ByUser {
      OnlyUser(evidence, s);
    }
    if k' == ByUser {
      OnlyUser(evidence, s');
    }
  }

  lemma {:induction false} SameFires(k: Keying, k': Keying, evidence: seq<SecurityEvent>)
    requires k.RuleOf() == k'.RuleOf()
    ensures Fires(k, evidence) <==> Fires(k', evidence)
  {
  }

  /** The alert of the same counted events is raised again, under the same identity. */
  lemma {:induction false} RecountedSameMaterial(k: Keying, s: string, now: DateTime, es: seq<SecurityEvent>,
                                                 k': Keying, s': string, now': DateTime, more: seq<SecurityEvent>)
    requires now.Valid() && now'.Valid() && Alerted(k, s, now, es)
    requires Recounted(k, s, now, es, k', s', now', more)
    ensures Alerted(k', s', now', es + more)
    ensures MaterialOf(DraftFor(k', s', now', es + more)) == MaterialOf(DraftFor(k, s, now, es))
  {
    hide Evidence, Fires, Recounted, Only, Users, Format, Describe, SeverityOf, Recovered, EventIds, Sort,
      ServiceNames, Endpoints, PrivilegedEndpoints;
    RecountedSameEvidence(k, s, now, es, k', s', now', more);
    RecountedSubject(k, s, now, es, k', s', now', more);
    SameFires(k, k', Evidence(k, s, now, es));
  }

  /** Identifiers that identify events count as often as their events. */
  lemma {:induction false} IdsCountEvents(evidence: seq<SecurityEvent>, all: seq<SecurityEvent>, e: SecurityEvent)
    requires IdsIdentify(all) && e in all && forall d :: d in evidence ==> d in all
    ensures multiset(EventIds(evidence))[e.eventId] == multiset(evidence)[e]
  {
    if evidence != [] {
      var front, last := evidence[..|evidence| - 1], evidence[|evidence| - 1];
      assert evidence == front + [last];
      assert EventIds(evidence) == EventIds(front) + [last.eventId];
      assert last in evidence;
      IdsCountEvents(front, all, e);
    }
  }

  lemma {:induction false} CountsOfEvidence(k: Keying, s: string, now: DateTime, es: seq<SecurityEvent>,
                                            all: seq<SecurityEvent>, e: SecurityEvent)
    requires IdsIdentify(all) && e in all && forall d :: d in es ==> d in all
    ensures multiset(EventIds(Evidence(k, s, now, es)))[e.eventId]
      == if Counts(k, s, now)(e) then multiset(es)[e] else 0
  {
    hide Evidence, Counts, Filter, EventIds, IdsIdentify;
    EvidenceElements(k, s, now, es);
    IdsCountEvents(Evidence(k, s, now, es), all, e);
    FilterCount(Counts(k, s, now), es, e);
  }

  lemma {:induction false} SameIdsRecountedAt(k: Keying, s: string, now: DateTime, es: seq<SecurityEvent>,
                                              k': Keying, s': string, now': DateTime, more: seq<SecurityEvent>,
                                              e: SecurityEvent)
    requires IdsIdentify(es + more) && e in es + more
    requires multiset(EventIds(Evidence(k, s, now, es))) == multiset(EventIds(Evidence(k', s', now', es + more)))
    ensures e in es ==> (Counts(k, s, now)(e) <==> Counts(k', s', now')(e))
    ensures e in more ==> !Counts(k', s', now')(e)
  {
    hide Evidence, Counts, EventIds, IdsIdentify;
    CountsOfEvidence(k, s, now, es, es + more, e);
    CountsOfEvidence(k', s', now', es + more, es + more, e);
    assert multiset(es + more)[e] == multiset(es)[e] + multiset(more)[e];
    assert e in more ==> multiset(more)[e] > 0;
  }

  /** Only those do that. */
  lemma {:induction false} SameMaterialRecounted(k: Keying, s: string, now: DateTime, es: seq<SecurityEvent>,
                                                 k': Keying, s': string, now': DateTime, more: seq<SecurityEvent>)
    requires now.Valid() && now'.Valid() && IdsIdentify(es + more)
    requires Evidence(k, s, now, es) != [] && Evidence(k', s', now', es + more) != []
    requires MaterialOf(DraftFor(k, s, now, es)) == MaterialOf(DraftFor(k', s', now', es + more))
    ensures Recounted(k, s, now, es, k', s', now', more)
  {
    hide Evidence, Counts, EventIds, IdsIdentify, MaterialOf, DraftFor;
    SameMaterialSameIds(k, s, now, es, k', s', now', es + more);
    forall e | e in es + more
      ensures e in es ==> (Counts(k, s, now)(e) <==> Counts(k', s', now')(e))
      ensures e in more ==> !Counts(k', s', now')(e)
    {
      SameIdsRecountedAt(k, s, now, es, k', s', now', more, e);
    }
    assert forall e :: e in es || e in more ==> e in es + more;
  }

  // ----------------------------------------------------------------- the theorem

  lemma {:induction false} StoresIdIff(digest: Digest, now: DateTime, es: seq<SecurityEvent>, id: string)
    requires now.Valid()
    ensures StoresId(digest, now, es, id) <==> exists d :: d in AllDrafts(now, es) && StableAlertId(digest, d) == id
  {
    hide AllDrafts, StoredAlerts, StableAlertId;
    var drafts := AllDrafts(now, es);
    if a :| a in StoredAlerts(digest, drafts) && a.alertId == id {
      var i := StoredAreDrafts(digest, drafts, a);
      assert drafts[i] in drafts;
    }
    if d :| d in drafts && StableAlertId(digest, d) == id {
      var i: nat :| i < |drafts| && drafts[i] == d;
      var l := KeptAs(digest, drafts, i);
      assert WithStableIds(digest, drafts)[l].alertId == id;
    }
  }

  /** Some alert of the grown stream has what this one had counted. */
  ghost predicate RaisedAgain(k: Keying, s: string, now: DateTime, es: seq<SecurityEvent>, now': DateTime,
                              more: seq<SecurityEvent>)
  {
    exists k', s' :: Recounted(k, s, now, es, k', s', now', more)
  }

  lemma {:induction false} DigestTells(digest: Digest, drafts: seq<Alert>, a: Alert, b: Alert)
    requires CollisionFree(digest, drafts) && a in drafts && b in drafts
    ensures StableAlertId(digest, a) == StableAlertId(digest, b) <==> MaterialOf(a) == MaterialOf(b)
  {
    hide MaterialOf;
    var x, y := digest(MaterialOf(a)), digest(MaterialOf(b));
    assert x == ("alt-" + x)[4..] && y == ("alt-" + y)[4..];
  }

  /** The identifier of an alert of the first stream is stored for the grown one exactly
      when what it counted counts again, for its subject or, under Rule 1, for the other
      keying of the same failures. */
  lemma {:induction false} IdStaysIff(digest: Digest, k: Keying, s: string, now: DateTime, es: seq<SecurityEvent>,
                                      now': DateTime, more: seq<SecurityEvent>)
    requires now.Valid() && now'.Valid() && Alerted(k, s, now, es) && IdsIdentify(es + more)
    requires CollisionFree(digest, AllDrafts(now, es) + AllDrafts(now', es + more))
    ensures StoresId(digest, now', es + more, StableAlertId(digest, DraftFor(k, s, now, es)))
      <==> RaisedAgain(k, s, now, es, now', more)
  {
    hide AllDrafts, StoresId, DraftFor, Evidence, Fires, MaterialOf, StableAlertId, IdsIdentify, CollisionFree,
      Recounted;
    var mine, drafts := DraftFor(k, s, now, es), AllDrafts(now, es) + AllDrafts(now', es + more);
    DraftInCatalogue(k, s, now, es);
    StoresIdIff(digest, now', es + more, StableAlertId(digest, mine));
    if k', s' :| Recounted(k, s, now, es, k', s', now', more) {
      RecountedSameMaterial(k, s, now, es, k', s', now', more);
      DraftInCatalogue(k', s', now', es + more);
      DigestTells(digest, drafts, mine, DraftFor(k', s', now', es + more));
    }
    if d :| d in AllDrafts(now', es + more) && StableAlertId(digest, d) == StableAlertId(digest, mine) {
      var k', s' := DraftComesFrom(now', es + more, d);
      DigestTells(digest, drafts, mine, d);
      SameMaterialRecounted(k, s, now, es, k', s', now', more);
    }
  }

  lemma {:induction false} DraftInCatalogue(k: Keying, s: string, now: DateTime, es: seq<SecurityEvent>)
    requires now.Valid() && Alerted(k, s, now, es)
    ensures DraftFor(k, s, now, es) in AllDrafts(now, es)
  {
    hide AllDrafts, Drafts, DraftFor, Evidence, Fires;
    DraftRaised(k, s, now, es);
    CatalogueOrder(now, es);
  }

  /** After both loads the Alert nodes are those of one load of everything exactly when
      every alert of the first stream has its counted events counted again, no more and
      no fewer. */
  lemma {:induction false} NoStaleAlertIff(es: seq<SecurityEvent>, more: seq<SecurityEvent>, clock: DateTime,
                                           later: DateTime, digest: Digest, users: seq<Topology.SeedUser>,
                                           assets: seq<Topology.SeedAsset>)
    requires clock.Valid() && later.Valid() && Readable(es) && Readable(es + more) && IdsIdentify(es + more)
    requires CollisionFree(digest, AllDrafts(EvaluationMoment(es, clock), es)
                                   + AllDrafts(EvaluationMoment(es + more, later), es + more))
    ensures (forall id :: AlertKey(id) in LoadedTwice(es, more, clock, later, digest, users, assets).nodes
                     <==> AlertKey(id) in LoadedOnce(es + more, later, digest, users, assets).nodes)
      <==> forall k, s :: Alerted(k, s, EvaluationMoment(es, clock), es) ==>
                            RaisedAgain(k, s, EvaluationMoment(es, clock), es, EvaluationMoment(es + more, later), more)
  {
    hide AllDrafts, StoresId, EvaluationMoment, ReadableEvent, LoadedTwice, LoadedOnce, Alerted, RaisedAgain,
      IdsIdentify, CollisionFree;
    var now, now' := EvaluationMoment(es, clock), EvaluationMoment(es + more, later);
    NoStaleNodeIffIdsStay(es, more, clock, later, digest, users, assets);
    IdsStayIffRaisedAgain(digest, now, es, now', more);
  }

  lemma {:induction false} IdsStayIffRaisedAgain(digest: Digest, now: DateTime, es: seq<SecurityEvent>, now': DateTime,
                                                 more: seq<SecurityEvent>)
    requires now.Valid() && now'.Valid() && IdsIdentify(es + more)
    requires CollisionFree(digest, AllDrafts(now, es) + AllDrafts(now', es + more))
    ensures (forall id :: StoresId(digest, now, es, id) ==> StoresId(digest, now', es + more, id))
      <==> forall k, s :: Alerted(k, s, now, es) ==> RaisedAgain(k, s, now, es, now', more)
  {
    hide AllDrafts, StoresId, Evidence, Fires, RaisedAgain, IdsIdentify, CollisionFree, DraftFor, StableAlertId;
    if forall k, s :: Alerted(k, s, now, es) ==> RaisedAgain(k, s, now, es, now', more) {
      forall id | StoresId(digest, now, es, id)
        ensures StoresId(digest, now', es + more, id)
      {
        StoresIdIff(digest, now, es, id);
        var d :| d in AllDrafts(now, es) && StableAlertId(digest, d) == id;
        var k, s := DraftComesFrom(now, es, d);
        IdStaysIff(digest, k, s, now, es, now', more);
      }
    }
    if forall id :: StoresId(digest, now, es, id) ==> StoresId(digest, now', es + more, id) {
      forall k, s | Alerted(k, s, now, es)
        ensures RaisedAgain(k, s, now, es, now', more)
      {
        DraftInCatalogue(k, s, now, es);
        StoresIdIff(digest, now, es, StableAlertId(digest, DraftFor(k, s, now, es)));
        IdStaysIff(digest, k, s, now, es, now', more);
      }
    }
  }

  /** So one more event against a subject of Rules 2 to 4 is enough: the graph keeps the
      alert of before beside whatever is raised now. */
  lemma {:induction false} NewEvidenceLeavesStaleAlert(digest: Digest, k: Keying, s: string, now: DateTime,
                                                       es: seq<SecurityEvent>, now': DateTime,
                                                       more: seq<SecurityEvent>, e: SecurityEvent)
    requires now.Valid() && now'.Valid() && Alerted(k, s, now, es) && IdsIdentify(es + more)
    requires CollisionFree(digest, AllDrafts(now, es) + AllDrafts(now', es + more))
    requires k != ByUser && k != ByAddress && e in more && Counts(k, s, now')(e)
    ensures StoresId(digest, now, es, StableAlertId(digest, DraftFor(k, s, now, es)))
    ensures !StoresId(digest, now', es + more, StableAlertId(digest, DraftFor(k, s, now, es)))
  {
    hide AllDrafts, StoresId, Evidence, Fires, IdsIdentify, CollisionFree, DraftFor, StableAlertId, Counts;
    DraftInCatalogue(k, s, now, es);
    StoresIdIff(digest, now, es, StableAlertId(digest, DraftFor(k, s, now, es)));
    IdStaysIff(digest, k, s, now, es, now', more);
    forall k', s'
      ensures !Recounted(k, s, now, es, k', s', now', more)
    {
      OtherSubjectsDiffer(k, s, now, es, k', s', now', more);
    }
  }

  lemma {:induction false} OtherSubjectsDiffer(k: Keying, s: string, now: DateTime, es: seq<SecurityEvent>,
                                               k': Keying, s': string, now': DateTime, more: seq<SecurityEvent>)
    requires k != ByUser && k != ByAddress && Evidence(k, s, now, es) != []
    ensures Recounted(k, s, now, es, k', s', now', more) ==> k == k' && s == s'
  {
    hide Evidence, Counts, Recounted;
    if Recounted(k, s, now, es, k', s', now', more) {
      RecountedSubject(k, s, now, es, k', s', now', more);
    }
  }
}
