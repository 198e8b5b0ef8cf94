/** What the graph holds after a load into the empty graph, told from the events
    and the alerts alone. */
module LoadedGraph {
  import opened Wrappers
  import opened Sequences
  import opened Strings
  import opened Events
  import opened EventStores
  import opened Alerts
  import opened Graphs
  import opened WriteOrder
  import opened LoadEvents
  import opened LoadOrder
  import Knowledge
  import Rules
  import Topology

  // -------------------------------------------------------- edges, block by block

  function EventEdges(e: SecurityEvent): set<Edge> {
    var here := EventKey(e.eventId);
    {Edge(here, GeneratedBy, NodeKey(Service, e.serviceName)),
     Edge(here, Targeted, NodeKey(Endpoint, EndpointStem(e.endpoint)))}
    + (if Truthy(AssetRead(e)) then {Edge(here, Accessed, NodeKey(Asset, AssetRead(e).value))} else {})
    + (if Truthy(e.userId) then {Edge(NodeKey(User, e.userId.value), Triggered, here)} else {})
  }

  lemma {:induction false} AccessDeclares(e: SecurityEvent, final: Graph)
    ensures DeclaredEdges(AccessWrites(e), final)
      == if Truthy(AssetRead(e)) then {Edge(EventKey(e.eventId), Accessed, NodeKey(Asset, AssetRead(e).value))} else {}
  {
    hide DeclaredEdges, AssetRead, Truthy, Rows;
    DeclaredNone(final);
    if Truthy(AssetRead(e)) {
      DeclaredOne(AccessWrites(e)[0], final);
    }
  }

  lemma {:induction false} UserDeclares(e: SecurityEvent, final: Graph)
    ensures DeclaredEdges(UserWrites(e), final)
      == if Truthy(e.userId) then {Edge(NodeKey(User, e.userId.value), Triggered, EventKey(e.eventId))} else {}
  {
    hide DeclaredEdges, Truthy, Rows;
    DeclaredNone(final);
    if Truthy(e.userId) {
      DeclaredOne(UserWrites(e)[0], final);
    }
  }

  /** The node and its two links that every event has. */
  lemma {:induction false} HeadDeclares(e: SecurityEvent, final: Graph)
    ensures DeclaredEdges([EventNode(e)] + StandingLinks(e), final)
      == {Edge(EventKey(e.eventId), GeneratedBy, NodeKey(Service, e.serviceName)),
          Edge(EventKey(e.eventId), Targeted, NodeKey(Endpoint, EndpointStem(e.endpoint)))}
  {
    hide DeclaredEdges, EventNode, EndpointStem, AssetRead, Truthy, Rows, AccessWrites, UserWrites;
    var service := Tagged(MergeThenLink(NodeKey(Service, e.serviceName), EventKey(e.eventId), GeneratedBy, false));
    var endpoint :=
      Tagged(MergeThenLink(NodeKey(Endpoint, EndpointStem(e.endpoint)), EventKey(e.eventId), Targeted, false));
    assert [EventNode(e)] + StandingLinks(e) == [EventNode(e)] + [service] + [endpoint];
    DeclaredConcat([EventNode(e)] + [service], [endpoint], final);
    DeclaredConcat([EventNode(e)], [service], final);
    DeclaredOne(EventNode(e), final);
    NodesDeclareNothing(e, final);
    DeclaredOne(service, final);
    DeclaredOne(endpoint, final);
  }

  lemma {:induction false} EventDeclares(e: SecurityEvent, final: Graph)
    ensures DeclaredEdges(EventWrites(e), final) == EventEdges(e)
  {
    hide DeclaredEdges, EventNode, StandingLinks, EventLinks, EventWrites, EndpointStem, AssetRead, Truthy, Rows,
      AccessWrites, UserWrites, EventKey;
    HeadDeclares(e, final);
    var head := [EventNode(e)] + StandingLinks(e);
    EventParts(e);
    DeclaredConcat(head + AccessWrites(e), UserWrites(e), final);
    DeclaredConcat(head, AccessWrites(e), final);
    AccessDeclares(e, final);
    UserDeclares(e, final);
  }

  lemma {:induction false} NodesDeclareNothing(e: SecurityEvent, final: Graph)
    ensures EdgesOf(EventNode(e).statement, final) == {}
  {
    hide Rows;
  }

  lemma {:induction false} AlertDeclares(a: Alert, final: Graph, x: Edge)
    ensures x in DeclaredEdges(AlertWrites(a), final)
      <==> exists id :: id in a.relatedEvents && x == Edge(EventKey(id), CreatedAlert, AlertKey(a.alertId))
  {
    hide AlertNode, Rows, DeclaredEdges;
    var citations := Map(CitationWrite(a.alertId), a.relatedEvents);
    DeclaredConcat([AlertNode(a)], citations, final);
    DeclaredOne(AlertNode(a), final);
    AlertNodeDeclaresNothing(a, final);
    DeclaredMap(CitationWrite(a.alertId), a.relatedEvents, final, x);
  }

  lemma {:induction false} AlertNodeDeclaresNothing(a: Alert, final: Graph)
    ensures EdgesOf(AlertNode(a).statement, final) == {}
  {
    hide Rows;
  }

  /** The edges of one incident's block. */
  predicate IncidentEdge(id: string, reports: seq<SecurityEvent>, alerts: seq<Alert>, times: map<string, int>, x: Edge)
    requires reports != []
  {
    var created := CreationOf(reports);
    || (exists e :: e in reports && x == Edge(EventKey(e.eventId), Concerns, IncidentKey(id)))
    || (Truthy(AssetNamedIn(created.message))
        && x == Edge(IncidentKey(id), Affects, NodeKey(Asset, AssetNamedIn(created.message).value)))
    || (exists a :: a in alerts && Grouped(a, Moment(created), times)
          && x == Edge(IncidentKey(id), Contains, AlertKey(a.alertId)))
  }

  lemma {:induction false} ConcernsDeclare(id: string, reports: seq<SecurityEvent>, final: Graph, x: Edge)
    ensures x in DeclaredEdges(Map(ConcernsWrite(id), reports), final)
      <==> exists e :: e in reports && x == Edge(EventKey(e.eventId), Concerns, IncidentKey(id))
  {
    hide Rows, DeclaredEdges;
    DeclaredMap(ConcernsWrite(id), reports, final, x);
  }

  lemma {:induction false} ContainsDeclare(id: string, createdAt: int, alerts: seq<Alert>, times: map<string, int>,
                                           final: Graph, x: Edge)
    ensures x in DeclaredEdges(FlatMap(ContainsWrites(id, createdAt, times), alerts), final)
      <==> exists a :: a in alerts && Grouped(a, createdAt, times)
                       && x == Edge(IncidentKey(id), Contains, AlertKey(a.alertId))
  {
    hide Rows, Grouped, DeclaredEdges;
    var f := ContainsWrites(id, createdAt, times);
    DeclaredFlatMap(f, alerts, final, x);
    forall a
      ensures x in DeclaredEdges(f(a), final)
        <==> Grouped(a, createdAt, times) && x == Edge(IncidentKey(id), Contains, AlertKey(a.alertId))
    {
      DeclaredNone(final);
      if Grouped(a, createdAt, times) {
        DeclaredOne(f(a)[0], final);
      }
    }
  }

  lemma {:induction false} AffectsDeclare(id: string, created: SecurityEvent, final: Graph, x: Edge)
    ensures x in DeclaredEdges(AffectsWrites(id, created), final)
      <==> Truthy(AssetNamedIn(created.message))
           && x == Edge(IncidentKey(id), Affects, NodeKey(Asset, AssetNamedIn(created.message).value))
  {
    hide Rows, AssetNamedIn, DeclaredEdges;
    DeclaredNone(final);
    if Truthy(AssetNamedIn(created.message)) {
      DeclaredOne(AffectsWrites(id, created)[0], final);
    }
  }

  lemma {:induction false} IncidentDeclares(id: string, reports: seq<SecurityEvent>, alerts: seq<Alert>,
                                            times: map<string, int>, final: Graph, x: Edge)
    requires reports != []
    ensures x in DeclaredEdges(IncidentWrites(id, reports, alerts, times), final)
      <==> IncidentEdge(id, reports, alerts, times, x)
  {
    hide DeclaredEdges, Rows, Moment, FlatMap, AffectsWrites, FirstCreation, AssetNamedIn, Grouped, IncidentNode;
    var created := CreationOf(reports);
    var node := [IncidentNode(id, created, reports[|reports| - 1])];
    var concerns, affects := Map(ConcernsWrite(id), reports), AffectsWrites(id, created);
    var contains := FlatMap(ContainsWrites(id, Moment(created), times), alerts);
    DeclaredConcat(node + concerns + affects, contains, final);
    DeclaredConcat(node + concerns, affects, final);
    DeclaredConcat(node, concerns, final);
    DeclaredOne(node[0], final);
    IncidentNodeDeclaresNothing(id, created, reports[|reports| - 1], final);
    ConcernsDeclare(id, reports, final, x);
    AffectsDeclare(id, created, final, x);
    ContainsDeclare(id, Moment(created), alerts, times, final, x);
  }

  lemma {:induction false} IncidentNodeDeclaresNothing(id: string, created: SecurityEvent, latest: SecurityEvent,
                                                       final: Graph)
    ensures EdgesOf(IncidentNode(id, created, latest).statement, final) == {}
  {
    hide Rows;
  }

  // --------------------------------------------------------------- the records

  ghost predicate FromEvents(x: Edge, all: seq<SecurityEvent>) {
    exists e :: e in all && x in EventEdges(e)
  }

  ghost predicate FromCitations(x: Edge, alerts: seq<Alert>) {
    exists a, id :: a in alerts && id in a.relatedEvents && x == Edge(EventKey(id), CreatedAlert, AlertKey(a.alertId))
  }

  ghost predicate FromIncidents(x: Edge, all: seq<SecurityEvent>, alerts: seq<Alert>) {
    exists id :: ReportsOf(id, all) != [] && IncidentEdge(id, ReportsOf(id, all), alerts, EventTimes(all), x)
  }

  ghost predicate Indicated(x: Edge, alerts: seq<Alert>) {
    exists a :: a in alerts
      && x == Edge(AlertKey(a.alertId), Indicates, Knowledge.ThreatKey(Knowledge.TechniqueOf(a.rule)))
  }

  /** Every edge the loaded graph is meant to hold. */
  ghost predicate Recorded(x: Edge, all: seq<SecurityEvent>, alerts: seq<Alert>, users: seq<Topology.SeedUser>) {
    || FromEvents(x, all)
    || FromCitations(x, alerts)
    || FromIncidents(x, all, alerts)
    || Indicated(x, alerts)
    || Topology.Charted(x, users)
    || Knowledge.Charted(x)
  }

  lemma {:induction false} EventsDeclare(all: seq<SecurityEvent>, final: Graph, x: Edge)
    ensures x in DeclaredEdges(FlatMap(EventWrites, all), final) <==> FromEvents(x, all)
  {
    hide DeclaredEdges, EventWrites, EventEdges;
    DeclaredFlatMap(EventWrites, all, final, x);
    forall e
      ensures x in DeclaredEdges(EventWrites(e), final) <==> x in EventEdges(e)
    {
      EventDeclares(e, final);
    }
  }

  lemma {:induction false} AlertsDeclare(alerts: seq<Alert>, final: Graph, x: Edge)
    ensures x in DeclaredEdges(FlatMap(AlertWrites, alerts), final) <==> FromCitations(x, alerts)
  {
    hide DeclaredEdges, AlertWrites;
    DeclaredFlatMap(AlertWrites, alerts, final, x);
    forall a
      ensures x in DeclaredEdges(AlertWrites(a), final)
        <==> exists id :: id in a.relatedEvents && x == Edge(EventKey(id), CreatedAlert, AlertKey(a.alertId))
    {
      AlertDeclares(a, final, x);
    }
  }

  lemma {:induction false} ReportedIsIncident(id: string, all: seq<SecurityEvent>)
    ensures id in IncidentIds(all) <==> ReportsOf(id, all) != []
  {
    hide Filter, Sort, TextOrder, IncidentOf;
    TextOrderIsTotal();
    SortSorts(TextOrder(), all);
    FilterIn(Rules.KeyIs(IncidentOf(), id), Sort(TextOrder(), all));
    var reports := ReportsOf(id, all);
    if reports != [] {
      assert reports[0] in reports;
    }
    if id in IncidentIds(all) {
      var e :| e in all && IncidentOf()(e).Some? && IncidentOf()(e).value == id;
      assert e in reports;
    }
  }

  lemma {:induction false} IncidentsDeclare(all: seq<SecurityEvent>, alerts: seq<Alert>, final: Graph, x: Edge)
    ensures x in DeclaredEdges(IncidentsWrites(all, alerts), final) <==> FromIncidents(x, all, alerts)
  {
    hide DeclaredEdges, IncidentWrites, IncidentEdge, ReportsOf, EventTimes, IncidentIds;
    var ids := SortedKeys(IncidentIds(all));
    DeclaredFlatMap(IncidentBlock(all, alerts), ids, final, x);
    forall id
      ensures id in ids && x in DeclaredEdges(IncidentBlock(all, alerts)(id), final)
        <==> ReportsOf(id, all) != [] && IncidentEdge(id, ReportsOf(id, all), alerts, EventTimes(all), x)
    {
      ReportedIsIncident(id, all);
      if ReportsOf(id, all) != [] {
        IncidentDeclares(id, ReportsOf(id, all), alerts, EventTimes(all), final, x);
      }
    }
  }

  // ---------------------------------------------------------------- properties

  /** A property every SET of which agrees, and which is set, holds that value. */
  lemma {:induction false} OverlayAgreed(ws: seq<Write>, n: NodeKey, p: Property, v: Value, before: Value)
    requires forall w :: w in ws && w.statement.MergeSet? && w.statement.node == n && p in w.statement.props ==>
               w.statement.props[p] == v
    ensures Overlay(ws, n, p, before) == v || Overlay(ws, n, p, before) == before
    ensures (exists w :: w in ws && w.statement.MergeSet? && w.statement.node == n && p in w.statement.props) ==>
      Overlay(ws, n, p, before) == v
  {
    if ws != [] {
      var front, last := ws[..|ws| - 1], ws[|ws| - 1];
      assert ws == front + [last];
      OverlayAgreed(front, n, p, v, before);
    }
  }

  /** A loaded node was there before, or some statement creates it. */
  lemma {:induction false} LoadedIsCreated(ws: seq<Write>, g: Graph, n: NodeKey)
    requires n in RunAll(ws, g).nodes && n !in g.nodes
    ensures exists w :: w in ws && n in Creates(w.statement)
  {
    var front, last := ws[..|ws| - 1], ws[|ws| - 1];
    assert ws == front + [last];
    if n in RunAll(front, g).nodes {
      LoadedIsCreated(front, g, n);
    } else {
      assert n in Creates(last.statement);
    }
  }

  /** The one write that makes, and sets, an incident's node. */
  function IncidentNodeOf(id: string, all: seq<SecurityEvent>): Write
    requires ReportsOf(id, all) != []
  {
    var reports := ReportsOf(id, all);
    IncidentNode(id, CreationOf(reports), reports[|reports| - 1])
  }

  lemma {:induction false} IncidentMaker(id: string, all: seq<SecurityEvent>, alerts: seq<Alert>, w: Write, n: NodeKey)
    requires ReportsOf(id, all) != []
    requires w in IncidentWrites(id, ReportsOf(id, all), alerts, EventTimes(all))
    requires n in Creates(w.statement)
    ensures n.tag == Asset || w == IncidentNodeOf(id, all)
  {
    hide FlatMap, Grouped, EventStores.Moment, FirstCreation, ReportsOf, EventTimes, IncidentNode, AssetNamedIn;
    var reports := ReportsOf(id, all);
    FlatMapIn(ContainsWrites(id, Moment(CreationOf(reports)), EventTimes(all)), alerts, w);
  }

  lemma {:induction false} EventsMake(all: seq<SecurityEvent>, alerts: seq<Alert>, w: Write, n: NodeKey)
    requires w in FlatMap(EventWrites, all) && n in Creates(w.statement)
    ensures MadeBy(w, n, all, alerts)
  {
    hide FlatMap, EventLinks, EventNode, IncidentNodeOf;
    FlatMapIn(EventWrites, all, w);
    var e :| e in all && w in EventWrites(e);
    if w in EventLinks(e) {
      EventLinkMakes(e, w, n);
    } else {
      EventNodeShape(e);
    }
  }

  lemma {:induction false} EventNodeShape(e: SecurityEvent)
    ensures EventNode(e).statement.MergeSet? && EventNode(e).statement.node == EventKey(e.eventId)
    ensures Creates(EventNode(e).statement) == {EventKey(e.eventId)}
  {
  }

  lemma {:induction false} EventLinkMakes(e: SecurityEvent, w: Write, n: NodeKey)
    requires w in EventLinks(e) && n in Creates(w.statement)
    ensures n.tag != Label.Alert && n.tag != Incident && n.tag != Event
  {
    hide EndpointStem, AssetNamedIn, AssetRead, Truthy, EventLinks;
    LinkParts(e, w);
  }

  /** Whatever makes a node of one of these labels is the write that sets it. */
  ghost predicate MadeBy(w: Write, n: NodeKey, all: seq<SecurityEvent>, alerts: seq<Alert>) {
    && (n.tag == Event ==> exists e :: e in all && w == EventNode(e) && n == EventKey(e.eventId))
    && (n.tag == Label.Alert ==> exists a :: a in alerts && w == AlertNode(a) && n == AlertKey(a.alertId))
    && (n.tag == Incident ==> ReportsOf(n.key, all) != [] && w == IncidentNodeOf(n.key, all))
  }

  lemma {:induction false} IncidentsMake(all: seq<SecurityEvent>, alerts: seq<Alert>, w: Write, n: NodeKey)
    requires w in IncidentsWrites(all, alerts) && n in Creates(w.statement)
    ensures MadeBy(w, n, all, alerts)
  {
    hide FlatMap, IncidentWrites, ReportsOf, EventTimes, SortedKeys, IncidentIds, FirstCreation;
    FlatMapIn(IncidentBlock(all, alerts), SortedKeys(IncidentIds(all)), w);
    var id :| w in IncidentBlock(all, alerts)(id);
    IncidentMaker(id, all, alerts, w, n);
  }

  lemma {:induction false} AlertsMake(all: seq<SecurityEvent>, alerts: seq<Alert>, w: Write, n: NodeKey)
    requires w in FlatMap(AlertWrites, alerts) && n in Creates(w.statement)
    ensures MadeBy(w, n, all, alerts)
  {
    hide FlatMap;
    FlatMapIn(AlertWrites, alerts, w);
  }

  lemma {:induction false} CollectedMakes(all: seq<SecurityEvent>, alerts: seq<Alert>,
                                          users: seq<Topology.SeedUser>, assets: seq<Topology.SeedAsset>, w: Write,
                                          n: NodeKey)
    requires w in CollectedWrites(all, alerts, users, assets) && n in Creates(w.statement)
    ensures MadeBy(w, n, all, alerts)
  {
    hide FlatMap, Topology.TopologyWrites, IncidentsWrites, Knowledge.ReferenceWrites, Knowledge.RuleLinks,
      CollectedWrites, Creates, MadeBy;
    FourParts(all, alerts, users, assets);
    if w in Topology.TopologyWrites(users, assets) {
      Topology.TopologyShape(users, assets, w);
      MadeByNobody(w, n, all, alerts);
    } else if w in FlatMap(EventWrites, all) {
      EventsMake(all, alerts, w, n);
    } else if w in FlatMap(AlertWrites, alerts) {
      AlertsMake(all, alerts, w, n);
    } else if w in IncidentsWrites(all, alerts) {
      IncidentsMake(all, alerts, w, n);
    } else if w in Knowledge.ReferenceWrites() {
      Knowledge.ReferenceShape(w);
      MadeByNobody(w, n, all, alerts);
    } else {
      Knowledge.RuleLinksExact(w);
      MakesNothing(w);
    }
  }

  lemma {:induction false} MadeByNobody(w: Write, n: NodeKey, all: seq<SecurityEvent>, alerts: seq<Alert>)
    requires n.tag != Label.Alert && n.tag != Incident && n.tag != Event
    ensures MadeBy(w, n, all, alerts)
  {
  }

  lemma {:induction false} MakesNothing(w: Write)
    requires exists rule :: w == Knowledge.IndicatesWrite(rule)
    ensures Creates(w.statement) == {}
  {
  }

  /** The alerts come from a store, so their identifiers differ. */
  lemma {:induction false} AlertPropertiesLoaded(all: seq<SecurityEvent>, alerts: seq<Alert>,
                                                 users: seq<Topology.SeedUser>, assets: seq<Topology.SeedAsset>,
                                                 a: Alert, p: Property)
    requires DistinctIds(alerts) && a in alerts && p in AlertNode(a).statement.props
    ensures Get(RunAll(CollectedWrites(all, alerts, users, assets), EMPTY_GRAPH), AlertKey(a.alertId), p)
      == AlertNode(a).statement.props[p]
  {
    hide CollectedWrites, RunAll, Overlay, AlertNode, IncidentNodeOf;
    var ws, n := CollectedWrites(all, alerts, users, assets), AlertKey(a.alertId);
    AlertWritten(all, alerts, users, assets, a);
    AlertNodeShape(a);
    forall w | w in ws && w.statement.MergeSet? && w.statement.node == n && p in w.statement.props
      ensures w == AlertNode(a)
    {
      CollectedMakes(all, alerts, users, assets, w, n);
      var b :| b in alerts && w == AlertNode(b) && n == AlertKey(b.alertId);
      SameAlert(alerts, a, b);
    }
    OverlayAgreed(ws, n, p, AlertNode(a).statement.props[p], Absent);
    RunProperty(ws, EMPTY_GRAPH, n, p);
  }

  lemma {:induction false} AlertNodeShape(a: Alert)
    ensures AlertNode(a).statement.MergeSet? && AlertNode(a).statement.node == AlertKey(a.alertId)
  {
  }

  lemma {:induction false} SameAlert(alerts: seq<Alert>, a: Alert, b: Alert)
    requires DistinctIds(alerts) && a in alerts && b in alerts && a.alertId == b.alertId
    ensures a == b
  {
  }

  lemma {:induction false} AlertWritten(all: seq<SecurityEvent>, alerts: seq<Alert>, users: seq<Topology.SeedUser>,
                                        assets: seq<Topology.SeedAsset>, a: Alert)
    requires a in alerts
    ensures AlertNode(a) in CollectedWrites(all, alerts, users, assets)
  {
    hide FlatMap, Topology.TopologyWrites, IncidentsWrites, Knowledge.ReferenceWrites, Knowledge.RuleLinks,
      CollectedWrites, AlertNode;
    FourParts(all, alerts, users, assets);
    FlatMapIn(AlertWrites, alerts, AlertNode(a));
    assert AlertWrites(a)[0] in AlertWrites(a);
  }

  /** On any graph a load adds the nodes of its alerts, and no other Alert node. */
  lemma {:induction false} AlertNodesAdded(all: seq<SecurityEvent>, alerts: seq<Alert>,
                                           users: seq<Topology.SeedUser>, assets: seq<Topology.SeedAsset>,
                                           g: Graph, n: NodeKey)
    requires n.tag == Label.Alert
    ensures n in RunAll(CollectedWrites(all, alerts, users, assets), g).nodes
      <==> n in g.nodes || exists a :: a in alerts && n == AlertKey(a.alertId)
  {
    hide CollectedWrites, RunAll, AlertNode, Creates, Secured;
    var ws := CollectedWrites(all, alerts, users, assets);
    RunGrows(ws, g);
    if a :| a in alerts && n == AlertKey(a.alertId) {
      AlertWritten(all, alerts, users, assets, a);
      AlertNodeSecures(a);
      SecuredBy(ws, AlertNode(a), n);
      SecuredPresent(ws, g);
    }
    if n in RunAll(ws, g).nodes && n !in g.nodes {
      LoadedIsCreated(ws, g, n);
      var w :| w in ws && n in Creates(w.statement);
      CollectedMakes(all, alerts, users, assets, w, n);
    }
  }

  lemma {:induction false} AlertNodesLoaded(all: seq<SecurityEvent>, alerts: seq<Alert>,
                                            users: seq<Topology.SeedUser>, assets: seq<Topology.SeedAsset>,
                                            n: NodeKey)
    requires n.tag == Label.Alert
    ensures n in RunAll(CollectedWrites(all, alerts, users, assets), EMPTY_GRAPH).nodes
      <==> exists a :: a in alerts && n == AlertKey(a.alertId)
  {
    hide CollectedWrites, RunAll;
    AlertNodesAdded(all, alerts, users, assets, EMPTY_GRAPH, n);
  }

  lemma {:induction false} AlertNodeSecures(a: Alert)
    ensures AlertKey(a.alertId) in Secures(AlertNode(a).statement)
  {
  }

  /** A rule's links reach exactly the nodes of its alerts. */
  lemma {:induction false} RuleLinksDeclare(all: seq<SecurityEvent>, alerts: seq<Alert>,
                                            users: seq<Topology.SeedUser>, assets: seq<Topology.SeedAsset>, x: Edge)
    requires DistinctIds(alerts)
    ensures x in DeclaredEdges(Knowledge.RuleLinks(), RunAll(CollectedWrites(all, alerts, users, assets), EMPTY_GRAPH))
      <==> Indicated(x, alerts)
  {
    hide CollectedWrites, RunAll, Knowledge.RuleLinks, Knowledge.TechniqueOf, Knowledge.ThreatKey, Selected;
    var final := RunAll(CollectedWrites(all, alerts, users, assets), EMPTY_GRAPH);
    if x in DeclaredEdges(Knowledge.RuleLinks(), final) {
      var w :| w in Knowledge.RuleLinks() && x in EdgesOf(w.statement, final);
      Knowledge.RuleLinksExact(w);
      var rule :| w == Knowledge.IndicatesWrite(rule);
      RuleRows(all, alerts, users, assets, x.start, rule);
    }
    if a :| a in alerts
            && x == Edge(AlertKey(a.alertId), Indicates, Knowledge.ThreatKey(Knowledge.TechniqueOf(a.rule))) {
      var w := Knowledge.IndicatesWrite(a.rule);
      Knowledge.RuleLinksExact(w);
      RuleRows(all, alerts, users, assets, x.start, a.rule);
      assert x in EdgesOf(w.statement, final);
    }
  }

  lemma {:induction false} RuleRows(all: seq<SecurityEvent>, alerts: seq<Alert>, users: seq<Topology.SeedUser>,
                                    assets: seq<Topology.SeedAsset>, n: NodeKey, rule: Rule)
    requires DistinctIds(alerts)
    ensures n in Rows(RunAll(CollectedWrites(all, alerts, users, assets), EMPTY_GRAPH), Label.Alert, PRuleName,
                      RuleName(rule))
      <==> exists a :: a in alerts && a.rule == rule && n == AlertKey(a.alertId)
  {
    hide CollectedWrites, RunAll;
    if n.tag == Label.Alert {
      AlertNodesLoaded(all, alerts, users, assets, n);
    }
    forall a | a in alerts && n == AlertKey(a.alertId)
      ensures Get(RunAll(CollectedWrites(all, alerts, users, assets), EMPTY_GRAPH), n, PRuleName) == RuleName(a.rule)
    {
      AlertPropertiesLoaded(all, alerts, users, assets, a, PRuleName);
    }
  }

  // -------------------------------------------------------------------- theorems

  /** Loaded into the empty graph, alerts whose evidence was collected leave
      exactly the recorded edges: no edge write is silently skipped. */
  lemma {:induction false} EdgesAsRecorded(all: seq<SecurityEvent>, alerts: seq<Alert>,
                                           users: seq<Topology.SeedUser>, assets: seq<Topology.SeedAsset>, x: Edge)
    requires EvidenceCollected(all, alerts) && DistinctIds(alerts)
    ensures x in RunAll(CollectedWrites(all, alerts, users, assets), EMPTY_GRAPH).edges
      <==> Recorded(x, all, alerts, users)
  {
    hide CollectedWrites, RunAll, Knowledge.RuleLinks, Knowledge.ReferenceWrites, IncidentsWrites,
      Topology.TopologyWrites, FlatMap, DeclaredEdges, FromEvents, FromCitations, FromIncidents, Indicated, Ordered,
      Graphs.Closed, EvidenceCollected, Topology.Charted, Knowledge.Charted;
    var ws := CollectedWrites(all, alerts, users, assets);
    var final := RunAll(ws, EMPTY_GRAPH);
    CollectedInOrder(all, alerts, users, assets);
    LoadAddsDeclaredEdges(ws, EMPTY_GRAPH);
    FourParts(all, alerts, users, assets);
    var a, b, c := Topology.TopologyWrites(users, assets), FlatMap(EventWrites, all), FlatMap(AlertWrites, alerts);
    var d, e, f := IncidentsWrites(all, alerts), Knowledge.ReferenceWrites(), Knowledge.RuleLinks();
    DeclaredConcat(a + b, c + (d + (e + f)), final);
    DeclaredConcat(a, b, final);
    DeclaredConcat(c, d + (e + f), final);
    DeclaredConcat(d, e + f, final);
    DeclaredConcat(e, f, final);
    EventsDeclare(all, final, x);
    AlertsDeclare(alerts, final, x);
    IncidentsDeclare(all, alerts, final, x);
    RuleLinksDeclare(all, alerts, users, assets, x);
    Topology.TopologyDeclares(users, assets, final, x);
    Knowledge.ReferenceDeclares(final, x);
  }

  lemma {:induction false} LiveIsNotCharted(x: Edge, users: seq<Topology.SeedUser>)
    requires x.kind in {CreatedAlert, Contains, Affects, Indicates}
    ensures !Topology.Charted(x, users) && !Knowledge.Charted(x)
  {
  }

  /** The graph says an event caused an alert exactly when the alert cites it. */
  lemma {:induction false} CreatedAlertIff(all: seq<SecurityEvent>, alerts: seq<Alert>,
                                           users: seq<Topology.SeedUser>, assets: seq<Topology.SeedAsset>, a: Alert,
                                           eventId: string)
    requires EvidenceCollected(all, alerts) && DistinctIds(alerts) && a in alerts
    ensures Edge(EventKey(eventId), CreatedAlert, AlertKey(a.alertId))
              in RunAll(CollectedWrites(all, alerts, users, assets), EMPTY_GRAPH).edges
      <==> eventId in a.relatedEvents
  {
    hide Topology.Charted, Knowledge.Charted, CollectedWrites, RunAll, ReportsOf, EventTimes, Grouped, EndpointStem,
      AssetRead, AssetNamedIn, Truthy, FirstCreation, EventStores.Moment;
    var x := Edge(EventKey(eventId), CreatedAlert, AlertKey(a.alertId));
    EdgesAsRecorded(all, alerts, users, assets, x);
    LiveIsNotCharted(x, users);
    forall b | b in alerts && b.alertId == a.alertId
      ensures a == b
    {
      SameAlert(alerts, a, b);
    }
  }

  /** A missing text is null, which a node does not hold. */
  ghost function TextOrNull(s: Option<string>): Value {
    match s
    case None => Absent
    case Some(text) => Text(text)
  }

  lemma {:induction false} NullableIs(s: Option<string>)
    ensures Nullable(s) == TextOrNull(s)
  {
  }

  ghost function StatusWord(status: Status): string {
    match status
    case Open => "OPEN"
    case Acknowledged => "ACKNOWLEDGED"
    case Closed => "CLOSED"
  }

  /** Some event the alert cites, of events with its identifier the last, happened in
      the half hour up to the creation, both ends included. */
  ghost predicate EvidenceBefore(a: Alert, created: SecurityEvent, all: seq<SecurityEvent>) {
    exists i: nat :: LastOfItsId(all, i) && all[i].eventId in a.relatedEvents
                     && 0 <= Moment(created) - Moment(all[i]) <= 1_800_000_000
  }

  lemma {:induction false} TimedIff(all: seq<SecurityEvent>, id: string)
    ensures id in EventTimes(all) <==> exists i: nat :: LastOfItsId(all, i) && all[i].eventId == id
    ensures forall i: nat :: LastOfItsId(all, i) && all[i].eventId == id ==>
              id in EventTimes(all) && EventTimes(all)[id] == Moment(all[i])
  {
    hide Moment;
    forall i: nat | LastOfItsId(all, i) && all[i].eventId == id
      ensures id in EventTimes(all) && EventTimes(all)[id] == Moment(all[i])
    {
      TimeOfLast(all, i);
    }
    if id in EventTimes(all) {
      TimedIsCarried(all, id);
    }
  }

  lemma {:induction false} TimedIsCarried(all: seq<SecurityEvent>, id: string)
    requires id in EventTimes(all)
    ensures exists i: nat :: LastOfItsId(all, i) && all[i].eventId == id
  {
    hide Moment;
    var front, last := all[..|all| - 1], all[|all| - 1];
    if last.eventId == id {
      assert LastOfItsId(all, |all| - 1);
    } else {
      TimedIsCarried(front, id);
      var i: nat :| LastOfItsId(front, i) && front[i].eventId == id;
      assert forall j :: 0 <= j < |front| ==> front[j] == all[j];
      assert LastOfItsId(all, i);
    }
  }

  lemma {:induction false} GroupedIff(a: Alert, created: SecurityEvent, all: seq<SecurityEvent>)
    ensures Grouped(a, Moment(created), EventTimes(all))
      <==> (a.severity == High || a.severity == Critical) && EvidenceBefore(a, created, all)
  {
    hide Moment, EventTimes;
    forall id | id in a.relatedEvents
      ensures id in EventTimes(all) <==> exists i: nat :: LastOfItsId(all, i) && all[i].eventId == id
      ensures forall i: nat :: LastOfItsId(all, i) && all[i].eventId == id ==>
                id in EventTimes(all) && EventTimes(all)[id] == Moment(all[i])
    {
      TimedIff(all, id);
    }
    if i: nat :| LastOfItsId(all, i) && all[i].eventId in a.relatedEvents
                 && 0 <= Moment(created) - Moment(all[i]) <= 1_800_000_000 {
      assert InIncidentWindow(EventTimes(all)[all[i].eventId], Moment(created));
    }
  }

  /** An incident contains an alert exactly when the alert is HIGH or CRITICAL and some
      of its evidence happened in the half hour up to the incident's creation. */
  lemma {:induction false} ContainsIff(all: seq<SecurityEvent>, alerts: seq<Alert>, users: seq<Topology.SeedUser>,
                                       assets: seq<Topology.SeedAsset>, id: string, a: Alert)
    requires EvidenceCollected(all, alerts) && DistinctIds(alerts) && a in alerts && ReportsOf(id, all) != []
    ensures Edge(IncidentKey(id), Contains, AlertKey(a.alertId))
              in RunAll(CollectedWrites(all, alerts, users, assets), EMPTY_GRAPH).edges
      <==> (a.severity == High || a.severity == Critical)
           && EvidenceBefore(a, CreationOf(ReportsOf(id, all)), all)
  {
    hide Topology.Charted, Knowledge.Charted, CollectedWrites, RunAll, ReportsOf, EventTimes, Grouped, EndpointStem,
      AssetRead, AssetNamedIn, Truthy, FirstCreation, EventStores.Moment, EvidenceBefore;
    var x := Edge(IncidentKey(id), Contains, AlertKey(a.alertId));
    EdgesAsRecorded(all, alerts, users, assets, x);
    LiveIsNotCharted(x, users);
    GroupedIff(a, CreationOf(ReportsOf(id, all)), all);
    forall b | b in alerts && b.alertId == a.alertId
      ensures a == b
    {
      SameAlert(alerts, a, b);
    }
  }

  /** An incident affects an asset exactly when its creation names it. */
  lemma {:induction false} AffectsIff(all: seq<SecurityEvent>, alerts: seq<Alert>, users: seq<Topology.SeedUser>,
                                      assets: seq<Topology.SeedAsset>, id: string, name: string)
    requires EvidenceCollected(all, alerts) && DistinctIds(alerts) && ReportsOf(id, all) != []
    ensures Edge(IncidentKey(id), Affects, NodeKey(Asset, name))
              in RunAll(CollectedWrites(all, alerts, users, assets), EMPTY_GRAPH).edges
      <==> name != "" && AssetNamedIn(CreationOf(ReportsOf(id, all)).message) == Some(name)
  {
    hide Topology.Charted, Knowledge.Charted, CollectedWrites, RunAll, ReportsOf, EventTimes, Grouped, EndpointStem,
      AssetRead, AssetNamedIn, FirstCreation, EventStores.Moment;
    var x := Edge(IncidentKey(id), Affects, NodeKey(Asset, name));
    EdgesAsRecorded(all, alerts, users, assets, x);
    LiveIsNotCharted(x, users);
  }

  lemma {:induction false} EventKindsNotCharted(x: Edge, users: seq<Topology.SeedUser>)
    requires x.kind in {GeneratedBy, Targeted, Accessed, Triggered, Concerns}
    ensures !Topology.Charted(x, users) && !Knowledge.Charted(x)
  {
  }

  ghost predicate KnownPath(path: string) {
    path in {"/api/v1/auth/login", "/api/v1/auth/verify", "/api/v1/auth/users", "/api/v1/incidents", "/api/v1/assets"}
  }

  /** The endpoint a path is one of: the longest known path it starts with, else itself. */
  ghost predicate PartOf(path: string, endpoint: string) {
    if exists known :: KnownPath(known) && known <= path then
      && KnownPath(endpoint) && endpoint <= path
      && forall known :: KnownPath(known) && known <= path ==> |known| <= |endpoint|
    else endpoint == path
  }

  lemma {:induction false} KnownIff(path: string)
    ensures path in KNOWN_ENDPOINTS <==> KnownPath(path)
  {
  }

  lemma {:induction false} StemIff(path: string, endpoint: string)
    ensures EndpointStem(path) == endpoint <==> PartOf(path, endpoint)
  {
    hide EndpointStem, KnownPath, KNOWN_ENDPOINTS;
    var stem := EndpointStem(path);
    forall known
      ensures known in KNOWN_ENDPOINTS <==> KnownPath(known)
    {
      KnownIff(known);
    }
    StemOfUnknown(path);
    if KnownPath(endpoint) && KnownPath(stem) && endpoint <= path && |endpoint| == |stem| {
      assert endpoint == path[..|endpoint|] && stem == path[..|stem|];
    }
  }

  lemma {:induction false} StemOfUnknown(path: string)
    ensures if exists known :: known in KNOWN_ENDPOINTS && known <= path then EndpointStem(path) in KNOWN_ENDPOINTS
            else EndpointStem(path) == path
  {
    hide KNOWN_ENDPOINTS;
  }

  /** Whose event it was, which endpoint it addressed, whom it names and which asset it
      read: each recorded exactly when some event with that identifier says so. */
  lemma {:induction false} EventLinksIff(all: seq<SecurityEvent>, alerts: seq<Alert>, users: seq<Topology.SeedUser>,
                                         assets: seq<Topology.SeedAsset>, id: string, name: string)
    requires EvidenceCollected(all, alerts) && DistinctIds(alerts)
    ensures var edges := RunAll(CollectedWrites(all, alerts, users, assets), EMPTY_GRAPH).edges;
      && (Edge(EventKey(id), GeneratedBy, NodeKey(Service, name)) in edges
          <==> exists e :: e in all && e.eventId == id && e.serviceName == name)
      && (Edge(EventKey(id), Targeted, NodeKey(Endpoint, name)) in edges
          <==> exists e :: e in all && e.eventId == id && PartOf(e.endpoint, name))
      && (Edge(NodeKey(User, name), Triggered, EventKey(id)) in edges
          <==> name != "" && exists e :: e in all && e.eventId == id && e.userId == Some(name))
      && (Edge(EventKey(id), Accessed, NodeKey(Asset, name)) in edges
          <==> name != "" && exists e :: e in all && e.eventId == id && e.eventType == AssetAccessed
                                         && AssetNamedIn(e.message) == Some(name))
  {
    hide Topology.Charted, Knowledge.Charted, CollectedWrites, RunAll, ReportsOf, EventTimes, EndpointStem, PartOf,
      AssetNamedIn, FromEvents, FromIncidents, Recorded;
    FromEventsOnly(all, alerts, users, assets, Edge(EventKey(id), GeneratedBy, NodeKey(Service, name)));
    FromEventsOnly(all, alerts, users, assets, Edge(EventKey(id), Targeted, NodeKey(Endpoint, name)));
    FromEventsOnly(all, alerts, users, assets, Edge(NodeKey(User, name), Triggered, EventKey(id)));
    FromEventsOnly(all, alerts, users, assets, Edge(EventKey(id), Accessed, NodeKey(Asset, name)));
    EventEdgeFields(all, id, name);
    forall e: SecurityEvent
      ensures EndpointStem(e.endpoint) == name <==> PartOf(e.endpoint, name)
    {
      StemIff(e.endpoint, name);
    }
  }

  lemma {:induction false} FromEventsOnly(all: seq<SecurityEvent>, alerts: seq<Alert>, users: seq<Topology.SeedUser>,
                                          assets: seq<Topology.SeedAsset>, x: Edge)
    requires EvidenceCollected(all, alerts) && DistinctIds(alerts)
    requires x.kind in {GeneratedBy, Targeted, Accessed, Triggered}
    ensures x in RunAll(CollectedWrites(all, alerts, users, assets), EMPTY_GRAPH).edges <==> FromEvents(x, all)
  {
    hide Topology.Charted, Knowledge.Charted, CollectedWrites, RunAll, ReportsOf, EventTimes, Grouped, EndpointStem,
      AssetRead, AssetNamedIn, Truthy, FirstCreation, EventStores.Moment, FromEvents;
    EdgesAsRecorded(all, alerts, users, assets, x);
    EventKindsNotCharted(x, users);
  }

  lemma {:induction false} EventEdgeFields(all: seq<SecurityEvent>, id: string, name: string)
    ensures FromEvents(Edge(EventKey(id), GeneratedBy, NodeKey(Service, name)), all)
      <==> exists e :: e in all && e.eventId == id && e.serviceName == name
    ensures FromEvents(Edge(EventKey(id), Targeted, NodeKey(Endpoint, name)), all)
      <==> exists e :: e in all && e.eventId == id && EndpointStem(e.endpoint) == name
    ensures FromEvents(Edge(NodeKey(User, name), Triggered, EventKey(id)), all)
      <==> name != "" && exists e :: e in all && e.eventId == id && e.userId == Some(name)
    ensures FromEvents(Edge(EventKey(id), Accessed, NodeKey(Asset, name)), all)
      <==> name != "" && exists e :: e in all && e.eventId == id && e.eventType == AssetAccessed
                                     && AssetNamedIn(e.message) == Some(name)
  {
    hide EndpointStem, AssetNamedIn, EventEdges, EventKey;
    forall e {
      EdgesOfEvent(e, id, name);
    }
  }

  lemma {:induction false} EdgesOfEvent(e: SecurityEvent, id: string, name: string)
    ensures Edge(EventKey(id), GeneratedBy, NodeKey(Service, name)) in EventEdges(e)
      <==> e.eventId == id && e.serviceName == name
    ensures Edge(EventKey(id), Targeted, NodeKey(Endpoint, name)) in EventEdges(e)
      <==> e.eventId == id && EndpointStem(e.endpoint) == name
    ensures Edge(NodeKey(User, name), Triggered, EventKey(id)) in EventEdges(e)
      <==> name != "" && e.eventId == id && e.userId == Some(name)
    ensures Edge(EventKey(id), Accessed, NodeKey(Asset, name)) in EventEdges(e)
      <==> name != "" && e.eventId == id && e.eventType == AssetAccessed && AssetNamedIn(e.message) == Some(name)
  {
    hide EndpointStem, AssetNamedIn, EventEdges, AssetRead;
    EdgeMembers(e, Edge(EventKey(id), GeneratedBy, NodeKey(Service, name)));
    EdgeMembers(e, Edge(EventKey(id), Targeted, NodeKey(Endpoint, name)));
    EdgeMembers(e, Edge(NodeKey(User, name), Triggered, EventKey(id)));
    EdgeMembers(e, Edge(EventKey(id), Accessed, NodeKey(Asset, name)));
    ReadIs(e, name);
  }

  lemma {:induction false} ReadIs(e: SecurityEvent, name: string)
    ensures AssetRead(e) == Some(name) <==> e.eventType == AssetAccessed && AssetNamedIn(e.message) == Some(name)
  {
    hide AssetNamedIn;
  }

  lemma {:induction false} EdgeMembers(e: SecurityEvent, x: Edge)
    ensures x in EventEdges(e)
      <==> (|| x == Edge(EventKey(e.eventId), GeneratedBy, NodeKey(Service, e.serviceName))
            || x == Edge(EventKey(e.eventId), Targeted, NodeKey(Endpoint, EndpointStem(e.endpoint)))
            || (Truthy(AssetRead(e)) && x == Edge(EventKey(e.eventId), Accessed, NodeKey(Asset, AssetRead(e).value)))
            || (Truthy(e.userId) && x == Edge(NodeKey(User, e.userId.value), Triggered, EventKey(e.eventId))))
  {
    hide EndpointStem, AssetRead, EventKey;
  }

  /** An event concerns an incident exactly when it is a creation or an escalation that
      names it. */
  lemma {:induction false} ConcernsIff(all: seq<SecurityEvent>, alerts: seq<Alert>, users: seq<Topology.SeedUser>,
                                       assets: seq<Topology.SeedAsset>, eventId: string, id: string)
    requires EvidenceCollected(all, alerts) && DistinctIds(alerts)
    ensures Edge(EventKey(eventId), Concerns, IncidentKey(id))
              in RunAll(CollectedWrites(all, alerts, users, assets), EMPTY_GRAPH).edges
      <==> id != "" && exists e :: e in all && e.eventId == eventId && e.affectedEntity == Some(id)
                                   && (e.eventType == IncidentCreated || e.eventType == IncidentEscalated)
  {
    hide Topology.Charted, Knowledge.Charted, CollectedWrites, RunAll, ReportsOf, EventTimes, Grouped, EndpointStem,
      AssetRead, AssetNamedIn, Truthy, FirstCreation, EventStores.Moment;
    var x := Edge(EventKey(eventId), Concerns, IncidentKey(id));
    EdgesAsRecorded(all, alerts, users, assets, x);
    EventKindsNotCharted(x, users);
    forall e
      ensures e in ReportsOf(id, all) <==> e in all && id != "" && e.affectedEntity == Some(id)
                                            && (e.eventType == IncidentCreated || e.eventType == IncidentEscalated)
    {
      ReportIff(id, all, e);
    }
  }

  lemma {:induction false} ReportIff(id: string, all: seq<SecurityEvent>, e: SecurityEvent)
    ensures e in ReportsOf(id, all) <==> e in all && id != "" && e.affectedEntity == Some(id)
                                          && (e.eventType == IncidentCreated || e.eventType == IncidentEscalated)
  {
    hide Sort, TextOrder, Filter;
    TextOrderIsTotal();
    SortSorts(TextOrder(), all);
    FilterIn(Rules.KeyIs(IncidentOf(), id), Sort(TextOrder(), all));
  }

  /** An alert indicates the technique of its own rule and no other. */
  lemma {:induction false} IndicatesIff(all: seq<SecurityEvent>, alerts: seq<Alert>, users: seq<Topology.SeedUser>,
                                        assets: seq<Topology.SeedAsset>, a: Alert, techniqueId: string)
    requires EvidenceCollected(all, alerts) && DistinctIds(alerts) && a in alerts
    ensures Edge(AlertKey(a.alertId), Indicates, Knowledge.ThreatKey(techniqueId))
              in RunAll(CollectedWrites(all, alerts, users, assets), EMPTY_GRAPH).edges
      <==> techniqueId == Knowledge.TechniqueOf(a.rule)
  {
    hide Topology.Charted, Knowledge.Charted, CollectedWrites, RunAll, ReportsOf, EventTimes, Grouped, EndpointStem,
      AssetRead, AssetNamedIn, Truthy, FirstCreation, EventStores.Moment, Knowledge.TechniqueOf;
    var x := Edge(AlertKey(a.alertId), Indicates, Knowledge.ThreatKey(techniqueId));
    EdgesAsRecorded(all, alerts, users, assets, x);
    LiveIsNotCharted(x, users);
    forall b | b in alerts && b.alertId == a.alertId
      ensures a == b
    {
      SameAlert(alerts, a, b);
    }
  }

  lemma {:induction false} IncidentWritten(all: seq<SecurityEvent>, alerts: seq<Alert>,
                                           users: seq<Topology.SeedUser>, assets: seq<Topology.SeedAsset>,
                                           id: string)
    requires ReportsOf(id, all) != []
    ensures IncidentNodeOf(id, all) in CollectedWrites(all, alerts, users, assets)
  {
    hide FlatMap, Topology.TopologyWrites, Knowledge.ReferenceWrites, Knowledge.RuleLinks, CollectedWrites,
      IncidentNode, ReportsOf, FirstCreation, EventTimes, AffectsWrites, EventStores.Moment;
    FourParts(all, alerts, users, assets);
    ReportedIsIncident(id, all);
    FlatMapIn(IncidentBlock(all, alerts), SortedKeys(IncidentIds(all)), IncidentNodeOf(id, all));
    assert IncidentBlock(all, alerts)(id)[0] == IncidentNodeOf(id, all);
  }

  /** An incident's node carries the title, time and reporter of its creation,
      and the severity of its latest report. */
  lemma {:induction false} IncidentPropertiesLoaded(all: seq<SecurityEvent>, alerts: seq<Alert>,
                                                    users: seq<Topology.SeedUser>, assets: seq<Topology.SeedAsset>,
                                                    id: string)
    requires ReportsOf(id, all) != []
    ensures var final := RunAll(CollectedWrites(all, alerts, users, assets), EMPTY_GRAPH);
      var created, latest := CreationOf(ReportsOf(id, all)), ReportsOf(id, all)[|ReportsOf(id, all)| - 1];
      && Get(final, IncidentKey(id), PTitle) == Text(created.message)
      && Get(final, IncidentKey(id), PCreatedAt) == Text(created.timestamp)
      && Get(final, IncidentKey(id), PReportedBy) == TextOrNull(created.userId)
      && Get(final, IncidentKey(id), PSeverity) == Text(latest.severity.Name())
  {
    hide RunAll, CollectedWrites, ReportsOf, FirstCreation;
    IncidentPropertyLoaded(all, alerts, users, assets, id, PTitle);
    IncidentPropertyLoaded(all, alerts, users, assets, id, PCreatedAt);
    IncidentPropertyLoaded(all, alerts, users, assets, id, PReportedBy);
    IncidentPropertyLoaded(all, alerts, users, assets, id, PSeverity);
  }

  lemma {:induction false} IncidentPropertyLoaded(all: seq<SecurityEvent>, alerts: seq<Alert>,
                                                  users: seq<Topology.SeedUser>, assets: seq<Topology.SeedAsset>,
                                                  id: string, p: Property)
    requires ReportsOf(id, all) != [] && IncidentNodeOf(id, all).statement.MergeSet?
    requires p in IncidentNodeOf(id, all).statement.props
    ensures Get(RunAll(CollectedWrites(all, alerts, users, assets), EMPTY_GRAPH), IncidentKey(id), p)
      == IncidentNodeOf(id, all).statement.props[p]
  {
    hide CollectedWrites, RunAll, Overlay, ReportsOf, FirstCreation;
    var ws, n := CollectedWrites(all, alerts, users, assets), IncidentKey(id);
    IncidentWritten(all, alerts, users, assets, id);
    forall w | w in ws && w.statement.MergeSet? && w.statement.node == n && p in w.statement.props
      ensures w == IncidentNodeOf(id, all)
    {
      CollectedMakes(all, alerts, users, assets, w, n);
    }
    OverlayAgreed(ws, n, p, IncidentNodeOf(id, all).statement.props[p], Absent);
    RunProperty(ws, EMPTY_GRAPH, n, p);
  }

  /** No later event carries the identifier of the one at `i`. */
  ghost predicate LastOfItsId(all: seq<SecurityEvent>, i: nat) {
    i < |all| && forall j :: i < j < |all| ==> all[j].eventId != all[i].eventId
  }

  lemma {:induction false} LinksSetNothing(e: SecurityEvent, n: NodeKey, p: Property, v: Value)
    ensures Overlay(EventLinks(e), n, p, v) == v
  {
    hide EndpointStem, AssetNamedIn, AssetRead, Truthy, EventLinks;
    forall w | w in EventLinks(e)
      ensures !w.statement.MergeSet?
    {
      LinkParts(e, w);
    }
    OverlayUnset(EventLinks(e), n, p, v);
  }

  lemma {:induction false} OverlayUnset(ws: seq<Write>, n: NodeKey, p: Property, v: Value)
    requires forall w :: w in ws ==> !w.statement.MergeSet?
    ensures Overlay(ws, n, p, v) == v
  {
    if ws != [] {
      assert ws[|ws| - 1] in ws;
      OverlayUnset(ws[..|ws| - 1], n, p, v);
    }
  }

  lemma {:induction false} OneEventSets(e: SecurityEvent, n: NodeKey, p: Property, v: Value)
    requires EventNode(e).statement.MergeSet?
    ensures Overlay(EventWrites(e), n, p, v)
      == if n == EventKey(e.eventId) && p in EventNode(e).statement.props then EventNode(e).statement.props[p] else v
  {
    hide EventNode, EventLinks;
    EventNodeShape(e);
    OverlayConcat([EventNode(e)], EventLinks(e), n, p, v);
    LinksSetNothing(e, n, p, Overlay([EventNode(e)], n, p, v));
    assert [EventNode(e)][..0] == [];
  }

  /** Of the events with one identifier the last one's values stay. */
  lemma {:induction false} LastEventSets(all: seq<SecurityEvent>, i: nat, p: Property, v: Value)
    requires LastOfItsId(all, i) && EventNode(all[i]).statement.MergeSet? && p in EventNode(all[i]).statement.props
    ensures Overlay(FlatMap(EventWrites, all), EventKey(all[i].eventId), p, v) == EventNode(all[i]).statement.props[p]
  {
    hide EventNode, EventWrites, Overlay;
    var front, last := all[..|all| - 1], all[|all| - 1];
    EventNodeShape(last);
    OverlayConcat(FlatMap(EventWrites, front), EventWrites(last), EventKey(all[i].eventId), p, v);
    OneEventSets(last, EventKey(all[i].eventId), p,
                 Overlay(FlatMap(EventWrites, front), EventKey(all[i].eventId), p, v));
    if i < |front| {
      assert front[i] == all[i];
      LastEventSets(front, i, p, v);
    }
  }

  lemma {:induction false} NothingLaterSetsEvents(all: seq<SecurityEvent>, alerts: seq<Alert>, id: string,
                                                  p: Property, v: Value)
    ensures Overlay(FlatMap(AlertWrites, alerts)
                    + (IncidentsWrites(all, alerts) + (Knowledge.ReferenceWrites() + Knowledge.RuleLinks())),
                    EventKey(id), p, v) == v
  {
    hide FlatMap, IncidentsWrites, Knowledge.ReferenceWrites, Knowledge.RuleLinks, LabelsMade, Overlay, Ordered,
      ClosedUpTo;
    var b, c, d := FlatMap(AlertWrites, alerts), IncidentsWrites(all, alerts),
                   Knowledge.ReferenceWrites() + Knowledge.RuleLinks();
    AlertsShape(alerts);
    IncidentsShape(all, alerts);
    ReferenceThenLinksOrdered({});
    OverlayConcat(b, c + d, EventKey(id), p, v);
    OverlayConcat(c, d, EventKey(id), p, v);
    OverlayOfOthers(b, EventKey(id), p, v);
    OverlayOfOthers(c, EventKey(id), p, v);
    OverlayOfOthers(d, EventKey(id), p, v);
  }

  lemma {:induction false} EventPropertyLoaded(all: seq<SecurityEvent>, alerts: seq<Alert>,
                                               users: seq<Topology.SeedUser>, assets: seq<Topology.SeedAsset>,
                                               i: nat, p: Property)
    requires LastOfItsId(all, i) && EventNode(all[i]).statement.MergeSet? && p in EventNode(all[i]).statement.props
    ensures Get(RunAll(CollectedWrites(all, alerts, users, assets), EMPTY_GRAPH), EventKey(all[i].eventId), p)
      == EventNode(all[i]).statement.props[p]
  {
    hide CollectedWrites, RunAll, Overlay, EventNode, FlatMap, Topology.TopologyWrites, IncidentsWrites,
      Knowledge.ReferenceWrites, Knowledge.RuleLinks;
    var topology, events := Topology.TopologyWrites(users, assets), FlatMap(EventWrites, all);
    var rest := FlatMap(AlertWrites, alerts)
                + (IncidentsWrites(all, alerts) + (Knowledge.ReferenceWrites() + Knowledge.RuleLinks()));
    var n := EventKey(all[i].eventId);
    FourParts(all, alerts, users, assets);
    RunProperty(CollectedWrites(all, alerts, users, assets), EMPTY_GRAPH, n, p);
    var before := Get(EMPTY_GRAPH, n, p);
    OverlayConcat(topology + events, rest, n, p, before);
    NothingLaterSetsEvents(all, alerts, all[i].eventId, p, Overlay(topology + events, n, p, before));
    OverlayConcat(topology, events, n, p, before);
    LastEventSets(all, i, p, Overlay(topology, n, p, before));
  }

  /** The node `n` holds what the event says. */
  ghost predicate ReadsAs(g: Graph, n: NodeKey, e: SecurityEvent) {
    && Get(g, n, PTimestamp) == Text(e.timestamp) && Get(g, n, PServiceName) == Text(e.serviceName)
    && Get(g, n, PEventType) == Text(e.eventType.Name()) && Get(g, n, PSeverity) == Text(e.severity.Name())
    && Get(g, n, PEndpoint) == Text(e.endpoint) && Get(g, n, PHttpMethod) == Text(e.httpMethod)
    && Get(g, n, PStatusCode) == Number(e.statusCode) && Get(g, n, PMessage) == Text(e.message)
    && Get(g, n, PCorrelationId) == Text(e.correlationId)
    && Get(g, n, PUserId) == TextOrNull(e.userId) && Get(g, n, PSourceIp) == TextOrNull(e.sourceIp)
  }

  lemma {:induction false} PropertiesRead(g: Graph, n: NodeKey, e: SecurityEvent)
    requires EventNode(e).statement.MergeSet?
    requires forall p :: p in EventNode(e).statement.props ==> Get(g, n, p) == EventNode(e).statement.props[p]
    ensures ReadsAs(g, n, e)
  {
    hide Get, Nullable, TextOrNull, EventKey, EventType.Name, Severity.Name;
    NullableIs(e.userId);
    NullableIs(e.sourceIp);
  }

  /** An event's node reads as the event does, of events that share an identifier as
      the last of them in time order; what that event does not know, the node does
      not hold. */
  lemma {:induction false} EventReadsAsCollected(all: seq<SecurityEvent>, alerts: seq<Alert>,
                                                 users: seq<Topology.SeedUser>, assets: seq<Topology.SeedAsset>,
                                                 i: nat)
    requires LastOfItsId(all, i)
    ensures ReadsAs(RunAll(CollectedWrites(all, alerts, users, assets), EMPTY_GRAPH), EventKey(all[i].eventId), all[i])
  {
    hide CollectedWrites, RunAll, Get, EventNode, ReadsAs;
    EventNodeShape(all[i]);
    var g, node := RunAll(CollectedWrites(all, alerts, users, assets), EMPTY_GRAPH), EventNode(all[i]).statement;
    forall p | p in node.props
      ensures Get(g, EventKey(all[i].eventId), p) == node.props[p]
    {
      EventPropertyLoaded(all, alerts, users, assets, i, p);
    }
    PropertiesRead(g, EventKey(all[i].eventId), all[i]);
  }

  /** An alert's node reads as the alert does. */
  lemma {:induction false} AlertReadsAsRaised(all: seq<SecurityEvent>, alerts: seq<Alert>,
                                              users: seq<Topology.SeedUser>, assets: seq<Topology.SeedAsset>,
                                              a: Alert)
    requires DistinctIds(alerts) && a in alerts
    ensures var g, n := RunAll(CollectedWrites(all, alerts, users, assets), EMPTY_GRAPH), AlertKey(a.alertId);
      && Get(g, n, PTimestamp) == Text(a.timestamp) && Get(g, n, PRuleName) == RuleName(a.rule)
      && Get(g, n, PSeverity) == Text(a.severity.Name()) && Get(g, n, PStatus) == Text(StatusWord(a.status))
      && Get(g, n, PDescription) == Summary(a.description) && Get(g, n, PRecommendedAction) == Action(a.rule)
      && Get(g, n, PAffectedService) == TextOrNull(a.affectedService)
      && Get(g, n, PAffectedUser) == TextOrNull(a.affectedUser)
      && Get(g, n, PAffectedEntity) == TextOrNull(a.affectedEntity)
  {
    hide CollectedWrites, RunAll, Get;
    var node := AlertNode(a).statement;
    forall p | p in node.props
      ensures Get(RunAll(CollectedWrites(all, alerts, users, assets), EMPTY_GRAPH), AlertKey(a.alertId), p)
        == node.props[p]
    {
      AlertPropertiesLoaded(all, alerts, users, assets, a, p);
    }
  }
}
