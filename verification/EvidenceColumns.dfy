/** What evidence holds, told from the columns of the rows a question's query returned:
    its nodes, their properties and its relationships. */
module EvidenceColumns {
  import opened Wrappers
  import opened Sequences
  import opened Graphs
  import opened Retrieval
  import opened RetrievalTheorems
  import opened Intents

  // --------------------------------------------------------------------- columns

  predicate Says(row: Row, c: Column, text: string) {
    text != "" && c in row && row[c] == Cell.Text(text)
  }

  predicate ListsName(row: Row, c: Column, name: string) {
    name != "" && c in row && row[c].Names? && Some(name) in row[c].names
  }

  predicate ListsAlert(row: Row, id: string) {
    && id != "" && CAlerts in row && row[CAlerts].Entries?
    && exists e :: e in row[CAlerts].entries && e.AlertMap? && e.alertId == Some(id)
  }

  function Content(row: Row, c: Column): Cell {
    if c in row then row[c] else Null
  }

  /** Which nodes a row of each query names. */
  predicate RowNames(query: QueryKey, row: Row, tag: Label, key: string) {
    match query
    case ControlsForAlert =>
      || (tag == Label.Alert && Says(row, CAlertId, key))
      || (tag == Threat && Says(row, CTechniqueId, key))
      || (tag == Control && ListsName(row, CControls, key))
      || (tag == Document && ListsName(row, CRunbooks, key))
    case AlertsForService => tag == Label.Alert && Says(row, CAlertId, key)
    case ThreatsForService =>
      || (tag == Threat && Says(row, CTechniqueId, key))
      || (tag == Vulnerability && ListsName(row, CExploitsVulnerabilities, key))
      || (tag == Control && ListsName(row, CMitigatedBy, key))
    case UsersHighSeverity =>
      || (tag == User && Says(row, CUsername, key))
      || (tag == Event && ListsName(row, CEvidenceEvents, key))
    case DependencyImpact => tag == Service && Says(row, CImpactedService, key)
    case IncidentsAndAlerts =>
      || (tag == Incident && Says(row, CIncidentId, key))
      || (tag == Asset && Says(row, CAsset, key))
      || (tag == Label.Alert && ListsAlert(row, key))
  }

  /** Which relationships it states. */
  predicate RowStates(query: QueryKey, row: Row, l: Link) {
    match query
    case ControlsForAlert =>
      || (l.kind == Indicates && Says(row, CAlertId, l.start) && Says(row, CTechniqueId, l.end))
      || (l.kind == Mitigates && ListsName(row, CControls, l.start) && Says(row, CTechniqueId, l.end))
      || (l.kind == SupportsResponseTo && ListsName(row, CRunbooks, l.start) && Says(row, CTechniqueId, l.end))
    case AlertsForService => false
    case ThreatsForService =>
      || (l.kind == Exploits && Says(row, CTechniqueId, l.start) && ListsName(row, CExploitsVulnerabilities, l.end))
      || (l.kind == Mitigates && ListsName(row, CMitigatedBy, l.start) && Says(row, CTechniqueId, l.end))
    case UsersHighSeverity =>
      l.kind == Triggered && Says(row, CUsername, l.start) && ListsName(row, CEvidenceEvents, l.end)
    case DependencyImpact => false
    case IncidentsAndAlerts =>
      || (l.kind == Affects && Says(row, CIncidentId, l.start) && Says(row, CAsset, l.end))
      || (l.kind == Contains && Says(row, CIncidentId, l.start) && ListsAlert(row, l.end))
  }

  /** What it says of a node it names; an alert of an incident is told of in its entry. */
  predicate RowDescribes(query: QueryKey, row: Row, n: Node) {
    match (query, n.tag)
    case (ControlsForAlert, Alert) =>
      n.properties == map[CRuleName := Content(row, CRuleName),
                          CRecommendedAction := Content(row, CRuleRecommendedAction)]
    case (ControlsForAlert, Threat) => n.properties == map[CName := Content(row, CTechnique)]
    case (AlertsForService, _) =>
      && n.properties.Keys == {CRuleName, CSeverity, CStatus, CDescription, CRecommendedAction, CTimestamp}
      && forall c :: c in n.properties ==> n.properties[c] == Content(row, c)
    case (ThreatsForService, Threat) =>
      n.properties == map[CName := Content(row, CTechnique), CTactic := Content(row, CTactic)]
    case (UsersHighSeverity, User) =>
      && n.properties.Keys == {CRole, CRuleName, CSeverity, CAlertCount}
      && forall c :: c in n.properties ==> n.properties[c] == Content(row, c)
    case (DependencyImpact, _) => n.properties == map[CHops := Content(row, CHops)]
    case (IncidentsAndAlerts, Incident) =>
      && n.properties.Keys == {CSeverity, CTitle, CReportedBy}
      && forall c :: c in n.properties ==> n.properties[c] == Content(row, c)
    case (IncidentsAndAlerts, Alert) =>
      && CAlerts in row && row[CAlerts].Entries?
      && exists e :: e in row[CAlerts].entries && e.AlertMap? && e.alertId == Some(n.key)
                     && n.properties == map[CRuleName := e.ruleName]
    case _ => n.properties == map[]
  }

  // --------------------------------------------------------------- one row at a time

  lemma {:induction false} KeySays(row: Row, c: Column, key: string)
    ensures key != "" ==> (Key(row, c) == key <==> Says(row, c, key))
  {
  }

  lemma {:induction false} ValuesList(row: Row, c: Column, name: string)
    ensures name in Values(At(row, c)) <==> ListsName(row, c, name)
  {
    var cell := At(row, c);
    if cell.Names? {
      var kept := Filter(NonEmpty(), cell.names);
      FilterIn(NonEmpty(), cell.names);
      if ListsName(row, c, name) {
        assert Some(name) in kept;
        var i :| 0 <= i < |kept| && kept[i] == Some(name);
        assert Values(cell)[i] == name;
      }
      if name in Values(cell) {
        var i :| 0 <= i < |kept| && Values(cell)[i] == name;
        assert kept[i] in kept;
      }
    }
  }

  /** The node is one of those mapped from a column's names. */
  lemma {:induction false} MappedNode(f: string -> Node, tag: Label, names: seq<string>, n: Node)
    requires forall name :: f(name).tag == tag && f(name).key == name
    ensures n in Map(f, names) <==> n.key in names && n == f(n.key)
  {
    if n.key in names && n == f(n.key) {
      var i :| 0 <= i < |names| && names[i] == n.key;
      assert Map(f, names)[i] == n;
    }
    if n in Map(f, names) {
      var i :| 0 <= i < |names| && Map(f, names)[i] == n;
      assert names[i] in names;
    }
  }

  lemma {:induction false} MappedLink(f: string -> Link, names: seq<string>, l: Link, name: string)
    requires forall x :: f(x) == l <==> x == name && f(name) == l
    ensures l in Map(f, names) <==> name in names && f(name) == l
  {
    if name in names && f(name) == l {
      var i :| 0 <= i < |names| && names[i] == name;
      assert Map(f, names)[i] == l;
    }
    if l in Map(f, names) {
      var i :| 0 <= i < |names| && Map(f, names)[i] == l;
      assert names[i] in names;
    }
  }

  lemma {:induction false} ControlsRow(row: Row, n: Node)
    requires n.key != ""
    ensures n in ShapeControls(row).nodes ==> RowNames(ControlsForAlert, row, n.tag, n.key)
                                              && RowDescribes(ControlsForAlert, row, n)
  {
    hide Values, Says, ListsName;
    var controls, runbooks := Values(At(row, CControls)), Values(At(row, CRunbooks));
    MappedNode(Named(Control, CName), Control, controls, n);
    MappedNode(Named(Document, CTitle), Document, runbooks, n);
    ValuesList(row, CControls, n.key);
    ValuesList(row, CRunbooks, n.key);
    KeySays(row, CAlertId, n.key);
    KeySays(row, CTechniqueId, n.key);
  }

  lemma {:induction false} ControlsRowNames(row: Row, tag: Label, key: string)
    requires RowNames(ControlsForAlert, row, tag, key)
    ensures exists n :: n in ShapeControls(row).nodes && n.tag == tag && n.key == key
  {
    hide Values;
    var nodes, controls, runbooks := ShapeControls(row).nodes, Values(At(row, CControls)), Values(At(row, CRunbooks));
    ValuesList(row, CControls, key);
    ValuesList(row, CRunbooks, key);
    MappedNode(Named(Control, CName), Control, controls, Named(Control, CName)(key));
    MappedNode(Named(Document, CTitle), Document, runbooks, Named(Document, CTitle)(key));
    assert nodes[0] in nodes && nodes[1] in nodes;
    assert Named(Control, CName)(key) in Map(Named(Control, CName), controls) ==> Named(Control, CName)(key) in nodes;
    assert Named(Document, CTitle)(key) in Map(Named(Document, CTitle), runbooks) ==>
        Named(Document, CTitle)(key) in nodes;
  }

  lemma {:induction false} ThreatsRow(row: Row, n: Node)
    requires n.key != ""
    ensures n in ShapeThreats(row).nodes ==> RowNames(ThreatsForService, row, n.tag, n.key)
                                             && RowDescribes(ThreatsForService, row, n)
  {
    hide Values, Says, ListsName;
    var vulnerabilities, controls := Values(At(row, CExploitsVulnerabilities)), Values(At(row, CMitigatedBy));
    MappedNode(Named(Vulnerability, CName), Vulnerability, vulnerabilities, n);
    MappedNode(Named(Control, CName), Control, controls, n);
    ValuesList(row, CExploitsVulnerabilities, n.key);
    ValuesList(row, CMitigatedBy, n.key);
    KeySays(row, CTechniqueId, n.key);
  }

  lemma {:induction false} ThreatsRowNames(row: Row, tag: Label, key: string)
    requires RowNames(ThreatsForService, row, tag, key)
    ensures exists n :: n in ShapeThreats(row).nodes && n.tag == tag && n.key == key
  {
    hide Values;
    var nodes := ShapeThreats(row).nodes;
    var vulnerabilities, controls := Values(At(row, CExploitsVulnerabilities)), Values(At(row, CMitigatedBy));
    ValuesList(row, CExploitsVulnerabilities, key);
    ValuesList(row, CMitigatedBy, key);
    var v, c := Named(Vulnerability, CName)(key), Named(Control, CName)(key);
    MappedNode(Named(Vulnerability, CName), Vulnerability, vulnerabilities, v);
    MappedNode(Named(Control, CName), Control, controls, c);
    assert nodes[0] in nodes;
    assert v in Map(Named(Vulnerability, CName), vulnerabilities) ==> v in nodes;
    assert c in Map(Named(Control, CName), controls) ==> c in nodes;
  }

  lemma {:induction false} UserRow(row: Row, n: Node)
    requires n.key != ""
    ensures n in ShapeUser(row).nodes ==> RowNames(UsersHighSeverity, row, n.tag, n.key)
                                          && RowDescribes(UsersHighSeverity, row, n)
  {
    hide Values, Says, ListsName;
    MappedNode(Bare(Event), Event, Values(At(row, CEvidenceEvents)), n);
    ValuesList(row, CEvidenceEvents, n.key);
    KeySays(row, CUsername, n.key);
  }

  lemma {:induction false} UserRowNames(row: Row, tag: Label, key: string)
    requires RowNames(UsersHighSeverity, row, tag, key)
    ensures exists n :: n in ShapeUser(row).nodes && n.tag == tag && n.key == key
  {
    hide Values;
    var nodes, events, e := ShapeUser(row).nodes, Values(At(row, CEvidenceEvents)), Bare(Event)(key);
    ValuesList(row, CEvidenceEvents, key);
    MappedNode(Bare(Event), Event, events, e);
    assert nodes[0] in nodes;
    assert e in Map(Bare(Event), events) ==> e in nodes;
  }

  lemma {:induction false} ListedEntries(row: Row, e: Entry)
    ensures e in ListedAlerts(At(row, CAlerts))
      <==> CAlerts in row && row[CAlerts].Entries? && e in row[CAlerts].entries && e.AlertMap? && Truthy(e.alertId)
  {
    if At(row, CAlerts).Entries? {
      FilterIn(HasAlertId(), At(row, CAlerts).entries);
    }
  }

  lemma {:induction false} IncidentRow(row: Row, n: Node)
    requires n.key != ""
    ensures n in ShapeIncident(row).nodes ==> RowNames(IncidentsAndAlerts, row, n.tag, n.key)
                                              && RowDescribes(IncidentsAndAlerts, row, n)
  {
    hide ListedAlerts, Says;
    KeySays(row, CIncidentId, n.key);
    KeySays(row, CAsset, n.key);
    var listed := ListedAlerts(At(row, CAlerts));
    if n in Map(EntryNode(), listed) {
      var i :| 0 <= i < |listed| && Map(EntryNode(), listed)[i] == n;
      assert listed[i] in listed;
      ListedEntries(row, listed[i]);
    }
  }

  lemma {:induction false} IncidentRowNames(row: Row, tag: Label, key: string)
    requires RowNames(IncidentsAndAlerts, row, tag, key)
    ensures exists n :: n in ShapeIncident(row).nodes && n.tag == tag && n.key == key
  {
    hide ListedAlerts;
    var nodes, listed := ShapeIncident(row).nodes, ListedAlerts(At(row, CAlerts));
    assert nodes[0] in nodes;
    if tag == Asset {
      assert nodes[1] == Bare(Asset)(key);
      assert nodes[1] in nodes;
    }
    if tag == Label.Alert {
      var e :| e in row[CAlerts].entries && e.AlertMap? && e.alertId == Some(key);
      ListedEntries(row, e);
      var i :| 0 <= i < |listed| && listed[i] == e;
      var mapped := Map(EntryNode(), listed);
      assert mapped[i] in mapped;
      assert mapped[i] in nodes;
    }
  }

  lemma {:induction false} SingleRow(query: QueryKey, row: Row, n: Node)
    requires (query == AlertsForService || query == DependencyImpact) && n.key != ""
    ensures n in Shape(query)(row).nodes ==> RowNames(query, row, n.tag, n.key) && RowDescribes(query, row, n)
  {
    KeySays(row, CAlertId, n.key);
    KeySays(row, CImpactedService, n.key);
  }

  lemma {:induction false} SingleRowNames(query: QueryKey, row: Row, tag: Label, key: string)
    requires (query == AlertsForService || query == DependencyImpact) && RowNames(query, row, tag, key)
    ensures exists n :: n in Shape(query)(row).nodes && n.tag == tag && n.key == key
  {
    var nodes := Shape(query)(row).nodes;
    assert nodes[0] in nodes;
  }

  lemma {:induction false} RowGives(query: QueryKey, row: Row, n: Node)
    requires n.key != "" && n in Shape(query)(row).nodes
    ensures RowNames(query, row, n.tag, n.key) && RowDescribes(query, row, n)
  {
    hide RowNames, RowDescribes, ShapeControls, ShapeThreats, ShapeUser, ShapeIncident, ShapeServiceAlert, ShapeImpact;
    match query
    case ControlsForAlert => ControlsRow(row, n);
    case ThreatsForService => ThreatsRow(row, n);
    case UsersHighSeverity => UserRow(row, n);
    case IncidentsAndAlerts => IncidentRow(row, n);
    case _ => SingleRow(query, row, n);
  }

  lemma {:induction false} RowHolds(query: QueryKey, row: Row, tag: Label, key: string)
    requires RowNames(query, row, tag, key)
    ensures key != "" && exists n :: n in Shape(query)(row).nodes && n.tag == tag && n.key == key
  {
    hide ShapeControls, ShapeThreats, ShapeUser, ShapeIncident, ShapeServiceAlert, ShapeImpact;
    match query
    case ControlsForAlert => ControlsRowNames(row, tag, key);
    case ThreatsForService => ThreatsRowNames(row, tag, key);
    case UsersHighSeverity => UserRowNames(row, tag, key);
    case IncidentsAndAlerts => IncidentRowNames(row, tag, key);
    case _ => SingleRowNames(query, row, tag, key);
  }

  // ----------------------------------------------------------------- nodes

  /** Evidence holds a node of a label and key exactly when some row names it. */
  lemma {:induction false} NodesInColumns(query: QueryKey, rows: seq<Row>, tag: Label, key: string)
    ensures Holds(ShapedRows(query, rows).nodes, tag, key)
      <==> exists row :: row in rows && RowNames(query, row, tag, key)
  {
    hide Shape, ShapedRows, RowNames, RowDescribes, Present;
    if row :| row in rows && RowNames(query, row, tag, key) {
      RowHolds(query, row, tag, key);
      var n :| n in Shape(query)(row).nodes && n.tag == tag && n.key == key;
      PresentIn(Shape(query)(row).nodes, n);
      PresentIsKept(query, rows, row, tag, key);
      PresentIsIn(ShapedRows(query, rows).nodes, tag, key);
    }
    if n :| n in ShapedRows(query, rows).nodes && n.tag == tag && n.key == key {
      var row := RowOfNode(query, rows, n);
    }
  }

  lemma {:induction false} PresentIsIn(nodes: seq<Node>, tag: Label, key: string)
    requires Present(nodes, tag, key)
    ensures exists n :: n in nodes && n.tag == tag && n.key == key
  {
    var i :| 0 <= i < |nodes| && NodeIdentity()(nodes[i]) == (tag, key);
    assert nodes[i] in nodes;
  }

  lemma {:induction false} RowOfNode(query: QueryKey, rows: seq<Row>, n: Node) returns (row: Row)
    requires n in ShapedRows(query, rows).nodes
    ensures row in rows && RowNames(query, row, n.tag, n.key) && RowDescribes(query, row, n)
  {
    hide Shape, ShapedRows, RowNames, RowDescribes;
    EvidenceComesFromRows(query, rows, n, Link("", Indicates, ""));
    row :| row in rows && n in Shape(query)(row).nodes;
    RowGives(query, row, n);
  }

  /** What evidence says of a node is what a row that names it says. */
  lemma {:induction false} PropertiesInColumns(query: QueryKey, rows: seq<Row>, n: Node)
    requires n in ShapedRows(query, rows).nodes
    ensures exists row :: row in rows && RowNames(query, row, n.tag, n.key) && RowDescribes(query, row, n)
  {
    hide Shape, ShapedRows, RowNames, RowDescribes;
    var row := RowOfNode(query, rows, n);
  }

  // --------------------------------------------------------------- relationships

  lemma {:induction false} ControlsLinks(row: Row, l: Link)
    requires l.start != "" && l.end != ""
    ensures l in ShapeControls(row).links <==> RowStates(ControlsForAlert, row, l)
  {
    hide Values, Says, ListsName;
    var techniqueId, controls, runbooks := Key(row, CTechniqueId), Values(At(row, CControls)),
        Values(At(row, CRunbooks));
    MappedLink(To(Mitigates, techniqueId), controls, l, l.start);
    MappedLink(To(SupportsResponseTo, techniqueId), runbooks, l, l.start);
    ValuesList(row, CControls, l.start);
    ValuesList(row, CRunbooks, l.start);
    KeySays(row, CAlertId, l.start);
    KeySays(row, CTechniqueId, l.end);
  }

  lemma {:induction false} ThreatsLinks(row: Row, l: Link)
    requires l.start != "" && l.end != ""
    ensures l in ShapeThreats(row).links <==> RowStates(ThreatsForService, row, l)
  {
    hide Values, Says, ListsName;
    var techniqueId := Key(row, CTechniqueId);
    MappedLink(From(techniqueId, Exploits), Values(At(row, CExploitsVulnerabilities)), l, l.end);
    MappedLink(To(Mitigates, techniqueId), Values(At(row, CMitigatedBy)), l, l.start);
    ValuesList(row, CExploitsVulnerabilities, l.end);
    ValuesList(row, CMitigatedBy, l.start);
    KeySays(row, CTechniqueId, l.start);
    KeySays(row, CTechniqueId, l.end);
  }

  lemma {:induction false} UserLinks(row: Row, l: Link)
    requires l.start != "" && l.end != ""
    ensures l in ShapeUser(row).links <==> RowStates(UsersHighSeverity, row, l)
  {
    hide Values, Says, ListsName;
    MappedLink(From(Key(row, CUsername), Triggered), Values(At(row, CEvidenceEvents)), l, l.end);
    ValuesList(row, CEvidenceEvents, l.end);
    KeySays(row, CUsername, l.start);
  }

  lemma {:induction false} IncidentLinks(row: Row, l: Link)
    requires l.start != "" && l.end != ""
    ensures l in ShapeIncident(row).links <==> RowStates(IncidentsAndAlerts, row, l)
  {
    hide ListedAlerts, Says, ListsAlert;
    var incidentId := Key(row, CIncidentId);
    KeySays(row, CIncidentId, l.start);
    KeySays(row, CAsset, l.end);
    ContainsLink(row, incidentId, l);
  }

  lemma {:induction false} ContainsLink(row: Row, incidentId: string, l: Link)
    requires l.end != ""
    ensures l in Map(EntryLink(incidentId), ListedAlerts(At(row, CAlerts)))
      <==> l.start == incidentId && l.kind == Contains && ListsAlert(row, l.end)
  {
    hide ListedAlerts;
    var listed := ListedAlerts(At(row, CAlerts));
    var links := Map(EntryLink(incidentId), listed);
    if l.start == incidentId && l.kind == Contains && ListsAlert(row, l.end) {
      var e :| e in row[CAlerts].entries && e.AlertMap? && e.alertId == Some(l.end);
      ListedEntries(row, e);
      var i :| 0 <= i < |listed| && listed[i] == e;
      EntryLinkIs(incidentId, e);
      assert links[i] == EntryLink(incidentId)(e);
    }
    if l in links {
      var i :| 0 <= i < |links| && links[i] == l;
      assert listed[i] in listed;
      ListedEntries(row, listed[i]);
      EntryLinkIs(incidentId, listed[i]);
    }
  }

  lemma {:induction false} EntryLinkIs(incidentId: string, e: Entry)
    requires e.AlertMap? && e.alertId.Some?
    ensures EntryLink(incidentId)(e) == Link(incidentId, Contains, e.alertId.value)
  {
    assert EntryNode()(e).key == e.alertId.value;
  }

  lemma {:induction false} RowLinks(query: QueryKey, row: Row, l: Link)
    requires l.start != "" && l.end != ""
    ensures l in Shape(query)(row).links <==> RowStates(query, row, l)
  {
    hide ShapeControls, ShapeThreats, ShapeUser, ShapeIncident;
    match query
    case ControlsForAlert => ControlsLinks(row, l);
    case ThreatsForService => ThreatsLinks(row, l);
    case UsersHighSeverity => UserLinks(row, l);
    case IncidentsAndAlerts => IncidentLinks(row, l);
    case _ =>
  }

  /** Evidence holds a relationship exactly when some row states it. */
  lemma {:induction false} LinksInColumns(query: QueryKey, rows: seq<Row>, l: Link)
    ensures l in ShapedRows(query, rows).links <==> exists row :: row in rows && RowStates(query, row, l)
  {
    hide Shape, ShapedRows;
    EvidenceComesFromRows(query, rows, Node(User, "", map[], None), l);
    if l.start != "" && l.end != "" {
      forall row: Row
        ensures l in Shape(query)(row).links <==> RowStates(query, row, l)
      {
        RowLinks(query, row, l);
      }
    }
  }

  // -------------------------------------------------------- from question to evidence

  /** A question that got a query got its intent's own, with the entity it names bound
      and nothing else; its rows are that query's. */
  predicate RanFor(e: Evidence, answers: Call -> seq<Row>, query: QueryKey, parameter: Option<Parameter>) {
    && e.query == Some(query)
    && e.rows == answers((query, e.parameters))
    && (match parameter
        case None => e.parameters == map[]
        case Some(p) => e.parameters.Keys == {p} && e.parameters[p] != "")
  }

  ghost predicate Holds(nodes: seq<Node>, tag: Label, key: string) {
    exists n :: n in nodes && n.tag == tag && n.key == key
  }

  /** Evidence lists exactly the things of this label that the column names. */
  ghost predicate Lists(e: Evidence, tag: Label, c: Column) {
    forall key :: Holds(e.nodes, tag, key) <==> exists row :: row in e.rows && Says(row, c, key)
  }

  /** What evidence calls its documents are the keys of its Document nodes. */
  lemma {:induction false} DocumentsAreRunbooks(question: string, answers: Call -> seq<Row>, key: string)
    ensures var e := Retrieved(question, answers);
      key in e.documents <==> Holds(e.nodes, Document, key)
  {
    hide Classify, ShapedRows, Filter, BuildQuery;
    var e := Retrieved(question, answers);
    FilterIn(IsDocument(), e.nodes);
    var runbooks := Filter(IsDocument(), e.nodes);
    if n :| n in e.nodes && n.tag == Document && n.key == key {
      assert n in runbooks;
      var i :| 0 <= i < |runbooks| && runbooks[i] == n;
      assert Map(KeyOf(), runbooks)[i] == key;
    }
    if BuildQuery(Classify(question)).Ok? && key in e.documents {
      var i :| 0 <= i < |e.documents| && e.documents[i] == key;
      assert runbooks[i] in runbooks;
    }
  }

  lemma {:induction false} ListsColumn(query: QueryKey, e: Evidence, tag: Label, c: Column)
    requires e.nodes == ShapedRows(query, e.rows).nodes
    requires forall row, key :: RowNames(query, row, tag, key) <==> Says(row, c, key)
    ensures Lists(e, tag, c)
  {
    hide Shape, ShapedRows, RowNames, Says;
    forall key
      ensures Holds(e.nodes, tag, key) <==> exists row :: row in e.rows && Says(row, c, key)
    {
      NodesInColumns(query, e.rows, tag, key);
    }
  }

  lemma {:induction false} HeadColumns()
    ensures forall row, key :: RowNames(ControlsForAlert, row, Label.Alert, key) <==> Says(row, CAlertId, key)
    ensures forall row, key :: RowNames(AlertsForService, row, Label.Alert, key) <==> Says(row, CAlertId, key)
    ensures forall row, key :: RowNames(ThreatsForService, row, Threat, key) <==> Says(row, CTechniqueId, key)
    ensures forall row, key :: RowNames(UsersHighSeverity, row, User, key) <==> Says(row, CUsername, key)
    ensures forall row, key :: RowNames(DependencyImpact, row, Service, key) <==> Says(row, CImpactedService, key)
    ensures forall row, key :: RowNames(IncidentsAndAlerts, row, Incident, key) <==> Says(row, CIncidentId, key)
  {
    hide Says;
  }

  /** What each kind of question is answered with: the evidence lists exactly the alerts,
      techniques, users, services or incidents that the rows of its own query name. */
  lemma {:induction false} QuestionsGetTheirOwn(question: string, answers: Call -> seq<Row>)
    ensures var e := Retrieved(question, answers);
      if e.query.None? then e.nodes == [] && e.links == [] && e.rows == []
      else
        match e.intent
        case AlertExplanation =>
          RanFor(e, answers, ControlsForAlert, Some(AlertIdParameter)) && Lists(e, Label.Alert, CAlertId)
        case ResponseProcedure =>
          RanFor(e, answers, ControlsForAlert, Some(AlertIdParameter)) && Lists(e, Label.Alert, CAlertId)
        case ServiceAlerts =>
          RanFor(e, answers, AlertsForService, Some(ServiceParameter)) && Lists(e, Label.Alert, CAlertId)
        case ThreatMitigation =>
          RanFor(e, answers, ThreatsForService, Some(ServiceParameter)) && Lists(e, Threat, CTechniqueId)
        case UserLinkage => RanFor(e, answers, UsersHighSeverity, None) && Lists(e, User, CUsername)
        case ImpactOfFailure =>
          RanFor(e, answers, DependencyImpact, Some(ServiceParameter)) && Lists(e, Service, CImpactedService)
        case IncidentLinkage => RanFor(e, answers, IncidentsAndAlerts, None) && Lists(e, Incident, CIncidentId)
        case Unsupported => false
  {
    hide Classify, ShapedRows, Filter, Lists, RowNames, Says;
    var e := Retrieved(question, answers);
    HeadColumns();
    if e.query.Some? {
      match e.intent
      case AlertExplanation => ListsColumn(ControlsForAlert, e, Label.Alert, CAlertId);
      case ResponseProcedure => ListsColumn(ControlsForAlert, e, Label.Alert, CAlertId);
      case ServiceAlerts => ListsColumn(AlertsForService, e, Label.Alert, CAlertId);
      case ThreatMitigation => ListsColumn(ThreatsForService, e, Threat, CTechniqueId);
      case UserLinkage => ListsColumn(UsersHighSeverity, e, User, CUsername);
      case ImpactOfFailure => ListsColumn(DependencyImpact, e, Service, CImpactedService);
      case IncidentLinkage => ListsColumn(IncidentsAndAlerts, e, Incident, CIncidentId);
      case Unsupported =>
    }
  }
}
