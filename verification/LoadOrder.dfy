/** Why the three sources may be loaded, interrupted and loaded again: the
    collected statements are in a safe order for every store and every list of
    alerts. */
module LoadOrder {
  import opened Wrappers
  import opened Sequences
  import opened Strings
  import opened Events
  import opened EventStores
  import opened Alerts
  import opened Graphs
  import opened WriteOrder
  import opened LoadEvents
  import Knowledge
  import Rules
  import Topology

  /** Topology, then events, alerts and incidents, then knowledge. */
  function CollectedWrites(all: seq<SecurityEvent>, alerts: seq<Alert>, users: seq<Topology.SeedUser>,
                           assets: seq<Topology.SeedAsset>): seq<Write>
  {
    Topology.TopologyWrites(users, assets) + EventsWrites(all, alerts) + Knowledge.KnowledgeWrites()
  }

  predicate EventsPresent(all: seq<SecurityEvent>, before: set<NodeKey>) {
    forall e :: e in all ==> EventKey(e.eventId) in before
  }

  predicate AlertsPresent(alerts: seq<Alert>, before: set<NodeKey>) {
    forall a :: a in alerts ==> AlertKey(a.alertId) in before
  }

  // ------------------------------------------------------------------ per block

  lemma {:induction false} EventLinkShape(e: SecurityEvent, w: Write)
    requires w in EventLinks(e)
    ensures w.statement.MergeThenLink? && w.statement.matched == EventKey(e.eventId)
  {
    hide EndpointStem, AssetNamedIn, AssetRead, Truthy;
    LinkParts(e, w);
  }

  lemma {:induction false} EventBlockClosed(e: SecurityEvent, before: set<NodeKey>)
    ensures ClosedUpTo(EventWrites(e), before, {})
  {
    hide EventLinks, ClosedUpTo;
    forall w | w in EventLinks(e)
      ensures Needs(w.statement) == {EventKey(e.eventId)}
    {
      EventLinkShape(e, w);
    }
    HeadedBlockClosed(EventNode(e), EventLinks(e), before, {});
  }

  lemma {:induction false} EventsClosed(all: seq<SecurityEvent>, before: set<NodeKey>)
    ensures ClosedUpTo(FlatMap(EventWrites, all), before, {})
  {
    hide ClosedUpTo, EventWrites;
    forall e | e in all
      ensures ClosedUpTo(EventWrites(e), before, {})
    {
      EventBlockClosed(e, before);
    }
    ClosedFlatMap(EventWrites, all, before, {});
  }

  lemma {:induction false} EventsSecured(all: seq<SecurityEvent>)
    ensures EventsPresent(all, Secured(FlatMap(EventWrites, all)))
  {
    hide EventLinks, FlatMap;
    forall e | e in all
      ensures EventKey(e.eventId) in Secured(FlatMap(EventWrites, all))
    {
      var w := EventNode(e);
      assert w in EventWrites(e);
      FlatMapIn(EventWrites, all, w);
      SecuredBy(FlatMap(EventWrites, all), w, EventKey(e.eventId));
    }
  }

  /** Each alert's citations find their events, or look up a label that `free`
      leaves open. */
  lemma {:induction false} AlertsClosed(alerts: seq<Alert>, before: set<NodeKey>, free: set<Label>)
    requires forall a, id :: a in alerts && id in a.relatedEvents ==> EventKey(id) in before || Event in free
    ensures ClosedUpTo(FlatMap(AlertWrites, alerts), before, free)
  {
    hide ClosedUpTo;
    forall a | a in alerts
      ensures ClosedUpTo(AlertWrites(a), before, free)
    {
      HeadedBlockClosed(AlertNode(a), Map(CitationWrite(a.alertId), a.relatedEvents), before, free);
    }
    ClosedFlatMap(AlertWrites, alerts, before, free);
  }

  lemma {:induction false} AlertsSecured(alerts: seq<Alert>)
    ensures AlertsPresent(alerts, Secured(FlatMap(AlertWrites, alerts)))
  {
    hide FlatMap;
    forall a | a in alerts
      ensures AlertKey(a.alertId) in Secured(FlatMap(AlertWrites, alerts))
    {
      var w := AlertNode(a);
      assert w in AlertWrites(a);
      FlatMapIn(AlertWrites, alerts, w);
      SecuredBy(FlatMap(AlertWrites, alerts), w, AlertKey(a.alertId));
    }
  }

  /** What the writes of one incident may look up. */
  lemma {:induction false} IncidentLinks(id: string, reports: seq<SecurityEvent>, alerts: seq<Alert>,
                                         times: map<string, int>, w: Write)
    requires reports != [] && w in IncidentWrites(id, reports, alerts, times)
    ensures !w.statement.LinkWhere?
    ensures forall n :: n in Creates(w.statement) ==> n.tag == Incident || n.tag == Asset
    ensures forall x :: x in Needs(w.statement) ==>
              || x == IncidentKey(id)
              || (exists e :: e in reports && x == EventKey(e.eventId))
              || (exists a :: a in alerts && x == AlertKey(a.alertId))
  {
    hide FlatMap, Grouped, EventStores.Moment, FirstCreation;
    FlatMapIn(ContainsWrites(id, Moment(CreationOf(reports)), times), alerts, w);
  }

  lemma {:induction false} IncidentBlockClosed(id: string, reports: seq<SecurityEvent>, alerts: seq<Alert>,
                                               times: map<string, int>, before: set<NodeKey>)
    requires reports != [] && EventsPresent(reports, before) && AlertsPresent(alerts, before)
    ensures ClosedUpTo(IncidentWrites(id, reports, alerts, times), before, {})
  {
    hide ClosedUpTo, Creates, EventStores.Moment, FlatMap, AffectsWrites, FirstCreation;
    var ws := IncidentWrites(id, reports, alerts, times);
    forall w | w in ws
      ensures forall x :: x in Needs(w.statement) ==> x in before || x == IncidentKey(id)
    {
      IncidentLinks(id, reports, alerts, times, w);
    }
    HeadedBlockClosed(ws[0], ws[1..], before, {});
    assert ws == [ws[0]] + ws[1..];
  }

  lemma {:induction false} ReportsAreEvents(id: string, all: seq<SecurityEvent>, before: set<NodeKey>)
    requires EventsPresent(all, before)
    ensures EventsPresent(ReportsOf(id, all), before)
  {
    hide Filter, Sort, TextOrder;
    TextOrderIsTotal();
    SortSorts(TextOrder(), all);
    FilterIn(Rules.KeyIs(IncidentOf(), id), Sort(TextOrder(), all));
  }

  lemma {:induction false} IncidentsClosed(all: seq<SecurityEvent>, alerts: seq<Alert>, before: set<NodeKey>)
    requires EventsPresent(all, before) && AlertsPresent(alerts, before)
    ensures ClosedUpTo(IncidentsWrites(all, alerts), before, {})
  {
    hide ClosedUpTo, IncidentWrites, ReportsOf, EventTimes, SortedKeys, IncidentIds, EventsPresent, AlertsPresent,
      FlatMap;
    var ids := SortedKeys(IncidentIds(all));
    forall id | id in ids
      ensures ClosedUpTo(IncidentBlock(all, alerts)(id), before, {})
    {
      if ReportsOf(id, all) == [] {
        ClosedEmpty(before, {});
      } else {
        ReportsAreEvents(id, all, before);
        IncidentBlockClosed(id, ReportsOf(id, all), alerts, EventTimes(all), before);
      }
    }
    ClosedFlatMap(IncidentBlock(all, alerts), ids, before, {});
  }

  // --------------------------------------------------------------------- labels

  lemma {:induction false} EventsShape(all: seq<SecurityEvent>)
    ensures NoPropertyMatch(FlatMap(EventWrites, all))
  {
    hide FlatMap, EventLinks;
    forall w | w in FlatMap(EventWrites, all)
      ensures !w.statement.LinkWhere?
    {
      FlatMapIn(EventWrites, all, w);
      var e :| e in all && w in EventWrites(e);
      if w in EventLinks(e) {
        EventLinkShape(e, w);
      }
    }
  }

  lemma {:induction false} AlertsShape(alerts: seq<Alert>)
    ensures NoPropertyMatch(FlatMap(AlertWrites, alerts))
    ensures LabelsMade(FlatMap(AlertWrites, alerts)) <= {Label.Alert}
  {
    hide FlatMap;
    forall w | w in FlatMap(AlertWrites, alerts)
      ensures !w.statement.LinkWhere? && forall n :: n in Creates(w.statement) ==> n.tag == Label.Alert
    {
      FlatMapIn(AlertWrites, alerts, w);
    }
  }

  lemma {:induction false} IncidentsShape(all: seq<SecurityEvent>, alerts: seq<Alert>)
    ensures NoPropertyMatch(IncidentsWrites(all, alerts))
    ensures LabelsMade(IncidentsWrites(all, alerts)) <= {Incident, Asset}
  {
    hide FlatMap, IncidentWrites, ReportsOf, EventTimes, SortedKeys, IncidentIds;
    forall w | w in IncidentsWrites(all, alerts)
      ensures !w.statement.LinkWhere? && forall n :: n in Creates(w.statement) ==> n.tag in {Incident, Asset}
    {
      FlatMapIn(IncidentBlock(all, alerts), SortedKeys(IncidentIds(all)), w);
      var id :| w in IncidentBlock(all, alerts)(id);
      IncidentLinks(id, ReportsOf(id, all), alerts, EventTimes(all), w);
    }
  }

  lemma {:induction false} ReferenceLabels()
    ensures NoPropertyMatch(Knowledge.ReferenceWrites())
    ensures Event !in LabelsMade(Knowledge.ReferenceWrites())
    ensures Label.Alert !in LabelsMade(Knowledge.ReferenceWrites())
  {
    hide Knowledge.ReferenceWrites, Creates;
    forall w | w in Knowledge.ReferenceWrites()
      ensures !w.statement.LinkWhere?
      ensures forall n :: n in Creates(w.statement) ==> n.tag != Event && n.tag != Label.Alert
    {
      Knowledge.ReferenceShape(w);
    }
  }

  // --------------------------------------------------------------------- theorem

  /** Every citation of every alert names a collected event. */
  predicate EvidenceCollected(all: seq<SecurityEvent>, alerts: seq<Alert>) {
    forall a, id :: a in alerts && id in a.relatedEvents ==> exists e :: e in all && e.eventId == id
  }

  lemma {:induction false} StartClosed(all: seq<SecurityEvent>, users: seq<Topology.SeedUser>,
                                       assets: seq<Topology.SeedAsset>)
    ensures var a := Topology.TopologyWrites(users, assets) + FlatMap(EventWrites, all);
      && ClosedUpTo(a, {}, {}) && NoPropertyMatch(a) && EventsPresent(all, Secured(a))
  {
    hide ClosedUpTo, FlatMap, EventWrites, Topology.TopologyWrites, Secured;
    var topology, events := Topology.TopologyWrites(users, assets), FlatMap(EventWrites, all);
    Topology.TopologyClosed(users, assets);
    Topology.TopologyHasNoPropertyMatch(users, assets);
    EventsClosed(all, {} + Secured(topology));
    ClosedConcat(topology, events, {}, {});
    EventsShape(all);
    EventsSecured(all);
    SecuredConcat(topology, events);
  }

  /** The collected list as four consecutive parts. */
  lemma {:induction false} FourParts(all: seq<SecurityEvent>, alerts: seq<Alert>, users: seq<Topology.SeedUser>,
                                     assets: seq<Topology.SeedAsset>)
    ensures CollectedWrites(all, alerts, users, assets)
      == (Topology.TopologyWrites(users, assets) + FlatMap(EventWrites, all))
         + (FlatMap(AlertWrites, alerts)
            + (IncidentsWrites(all, alerts) + (Knowledge.ReferenceWrites() + Knowledge.RuleLinks())))
  {
    hide FlatMap, Topology.TopologyWrites, IncidentsWrites, Knowledge.ReferenceWrites, Knowledge.RuleLinks;
  }

  lemma {:induction false} ReferenceThenLinksOrdered(before: set<NodeKey>)
    ensures Ordered(Knowledge.ReferenceWrites() + Knowledge.RuleLinks(), before, {})
    ensures ClosedUpTo(Knowledge.ReferenceWrites() + Knowledge.RuleLinks(), before, {})
    ensures Event !in LabelsMade(Knowledge.ReferenceWrites() + Knowledge.RuleLinks())
    ensures Label.Alert !in LabelsMade(Knowledge.ReferenceWrites() + Knowledge.RuleLinks())
  {
    hide ClosedUpTo, Ordered, Secured, LabelsMade, Knowledge.ReferenceWrites, Knowledge.RuleLinks;
    var a, b := Knowledge.ReferenceWrites(), Knowledge.RuleLinks();
    Knowledge.ReferenceClosed();
    ReferenceLabels();
    ClosedWiden(a, {}, before, {}, {});
    Knowledge.RuleLinksOrdered(before + Secured(a));
    ClosedIsOrdered(a, before, {}, LabelsMade(b) + {});
    OrderedConcat(a, b, before, {});
    ClosedConcat(a, b, before, {});
    SecuredConcat(a, b);
  }

  lemma {:induction false} IncidentsOnwards(all: seq<SecurityEvent>, alerts: seq<Alert>, before: set<NodeKey>)
    requires EventsPresent(all, before) && AlertsPresent(alerts, before)
    ensures var rest := IncidentsWrites(all, alerts) + (Knowledge.ReferenceWrites() + Knowledge.RuleLinks());
      && Ordered(rest, before, {}) && ClosedUpTo(rest, before, {})
      && Event !in LabelsMade(rest) && Label.Alert !in LabelsMade(rest)
  {
    hide ClosedUpTo, Ordered, Secured, LabelsMade, Knowledge.ReferenceWrites, Knowledge.RuleLinks, IncidentsWrites,
      EventsPresent, AlertsPresent;
    var c, d := IncidentsWrites(all, alerts), Knowledge.ReferenceWrites() + Knowledge.RuleLinks();
    IncidentsClosed(all, alerts, before);
    IncidentsShape(all, alerts);
    ReferenceThenLinksOrdered(before + Secured(c));
    ClosedIsOrdered(c, before, {}, LabelsMade(d) + {});
    OrderedConcat(c, d, before, {});
    ClosedConcat(c, d, before, {});
    SecuredConcat(c, d);
  }

  lemma {:induction false} AlertsOnwards(all: seq<SecurityEvent>, alerts: seq<Alert>, before: set<NodeKey>)
    requires EventsPresent(all, before)
    ensures var rest := FlatMap(AlertWrites, alerts)
                        + (IncidentsWrites(all, alerts) + (Knowledge.ReferenceWrites() + Knowledge.RuleLinks()));
      Ordered(rest, before, {}) && (EvidenceCollected(all, alerts) ==> ClosedUpTo(rest, before, {}))
  {
    hide ClosedUpTo, Ordered, Secured, LabelsMade, Knowledge.ReferenceWrites, Knowledge.RuleLinks, IncidentsWrites,
      FlatMap, EvidenceCollected;
    var b := FlatMap(AlertWrites, alerts);
    var rest := IncidentsWrites(all, alerts) + (Knowledge.ReferenceWrites() + Knowledge.RuleLinks());
    AlertsSecured(alerts);
    AlertsClosed(alerts, before, {Event});
    AlertsShape(alerts);
    IncidentsOnwards(all, alerts, before + Secured(b));
    ClosedIsOrdered(b, before, {Event}, LabelsMade(rest) + {});
    OrderedConcat(b, rest, before, {});
    if EvidenceCollected(all, alerts) {
      CitationsFound(all, alerts, before);
      AlertsClosed(alerts, before, {});
      ClosedConcat(b, rest, before, {});
    }
  }

  lemma {:induction false} CitationsFound(all: seq<SecurityEvent>, alerts: seq<Alert>, before: set<NodeKey>)
    requires EventsPresent(all, before) && EvidenceCollected(all, alerts)
    ensures forall a, id :: a in alerts && id in a.relatedEvents ==> EventKey(id) in before
  {
  }

  /** Safe to reload, whatever was collected and whatever alerts there are, even
      ones whose evidence is missing; and no MATCH fails when it is not. */
  lemma {:induction false} CollectedInOrder(all: seq<SecurityEvent>, alerts: seq<Alert>,
                                            users: seq<Topology.SeedUser>, assets: seq<Topology.SeedAsset>)
    ensures Ordered(CollectedWrites(all, alerts, users, assets), {}, {})
    ensures EvidenceCollected(all, alerts) ==> Graphs.Closed(CollectedWrites(all, alerts, users, assets), {})
  {
    hide ClosedUpTo, Ordered, Graphs.Closed, Secured, LabelsMade, Knowledge.ReferenceWrites, Knowledge.RuleLinks,
      IncidentsWrites, FlatMap, EvidenceCollected, CollectedWrites, Topology.TopologyWrites, EventsPresent;
    var a := Topology.TopologyWrites(users, assets) + FlatMap(EventWrites, all);
    var rest := FlatMap(AlertWrites, alerts)
                + (IncidentsWrites(all, alerts) + (Knowledge.ReferenceWrites() + Knowledge.RuleLinks()));
    StartClosed(all, users, assets);
    Widened(all, Secured(a));
    AlertsOnwards(all, alerts, {} + Secured(a));
    FourParts(all, alerts, users, assets);
    ClosedIsOrdered(a, {}, {}, LabelsMade(rest) + {});
    OrderedConcat(a, rest, {}, {});
    if EvidenceCollected(all, alerts) {
      ClosedConcat(a, rest, {}, {});
      ClosedIsClosedUpTo(a + rest, {});
    }
  }

  lemma {:induction false} Widened(all: seq<SecurityEvent>, present: set<NodeKey>)
    requires EventsPresent(all, present)
    ensures EventsPresent(all, {} + present)
  {
  }

  /** A load that was cut short anywhere, or ran to its end, leaves nothing that
      loading again does not repair: from any graph the second load reaches the
      graph one full load reaches. */
  lemma {:induction false} ReloadReachesSameGraph(all: seq<SecurityEvent>, alerts: seq<Alert>,
                                                  users: seq<Topology.SeedUser>, assets: seq<Topology.SeedAsset>,
                                                  k: nat, g: Graph)
    requires NoNulls(g) && k <= |CollectedWrites(all, alerts, users, assets)|
    ensures var ws := CollectedWrites(all, alerts, users, assets);
      && RunAll(ws, RunAll(ws[..k], g)) == RunAll(ws, g)
      && RunAll(ws, RunAll(ws, g)) == RunAll(ws, g)
  {
    hide CollectedWrites, RunAll, Ordered, Graphs.Closed;
    CollectedInOrder(all, alerts, users, assets);
    ResumeReachesSameGraph(CollectedWrites(all, alerts, users, assets), k, g);
    OrderedLoadsAreIdempotent(CollectedWrites(all, alerts, users, assets), g);
  }
}
