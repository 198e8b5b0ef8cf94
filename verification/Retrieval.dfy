/** From query rows to evidence: six row shapers, and deduplication that keeps
    the first of its kind. */
module Retrieval {
  import opened Wrappers
  import opened Sequences
  import opened Graphs

  // ------------------------------------------------------------------------ rows

  datatype Column =
    | CAlertId | CTechniqueId | CRuleName | CRuleRecommendedAction | CTechnique | CControls | CRunbooks
    | CSeverity | CStatus | CDescription | CRecommendedAction | CTimestamp
    | CTactic | CExploitsVulnerabilities | CMitigatedBy
    | CUsername | CRole | CAlertCount | CEvidenceEvents
    | CImpactedService | CHops
    | CIncidentId | CTitle | CReportedBy | CAsset | CAlerts
    | CName

  /** One entry of the `alerts` column: a map, or something else. */
  datatype Entry = NotAMap | AlertMap(alertId: Option<string>, ruleName: Cell)

  /** A collected column holds names, or null where an OPTIONAL MATCH found none. */
  datatype Cell = Null | Text(s: string) | Number(n: int) | Names(names: seq<Option<string>>)
                | Entries(entries: seq<Entry>)

  type Row = map<Column, Cell>

  /** `row.get(column)` */
  function At(row: Row, c: Column): Cell {
    if c in row then row[c] else Null
  }

  /** `row.get(column, "")`, as a key: neither null nor "" is kept below. */
  function Key(row: Row, c: Column): string {
    if At(row, c).Text? then At(row, c).s else ""
  }

  function NonEmpty(): Option<string> -> bool {
    (s: Option<string>) => Truthy(s)
  }

  function Value(): Option<string> -> string {
    (s: Option<string>) => if s.Some? then s.value else ""
  }

  /** `_values` */
  function Values(cell: Cell): (names: seq<string>) {
    if cell.Names? then Map(Value(), Filter(NonEmpty(), cell.names)) else []
  }

  // -------------------------------------------------------------------- evidence

  datatype Node = Node(tag: Label, key: string, properties: map<Column, Cell>, keyProperty: Option<Column>)

  datatype Link = Link(start: string, kind: Kind, end: string)

  datatype Shaped = Shaped(nodes: seq<Node>, links: seq<Link>)

  datatype QueryKey = ControlsForAlert | AlertsForService | ThreatsForService | UsersHighSeverity
                    | DependencyImpact | IncidentsAndAlerts

  function Bare(tag: Label): string -> Node {
    (key: string) => Node(tag, key, map[], None)
  }

  function Named(tag: Label, column: Column): string -> Node {
    (key: string) => Node(tag, key, map[], Some(column))
  }

  function From(start: string, kind: Kind): string -> Link {
    (end: string) => Link(start, kind, end)
  }

  function To(kind: Kind, end: string): string -> Link {
    (start: string) => Link(start, kind, end)
  }

  /** The alerts an incident's row lists, those with an identifier. */
  function HasAlertId(): Entry -> bool {
    (e: Entry) => e.AlertMap? && Truthy(e.alertId)
  }

  function ListedAlerts(cell: Cell): seq<Entry> {
    if cell.Entries? then Filter(HasAlertId(), cell.entries) else []
  }

  function EntryNode(): Entry -> Node {
    (e: Entry) => if e.AlertMap? && e.alertId.Some?
      then Node(Alert, e.alertId.value, map[CRuleName := e.ruleName], None)
                  else Node(Alert, "", map[], None)
  }

  function EntryLink(incident: string): Entry -> Link {
    (e: Entry) => Link(incident, Contains, EntryNode()(e).key)
  }

  /** The alert and the technique it indicates. */
  function AlertAndTechnique(row: Row): (nodes: seq<Node>)
    ensures |nodes| == 2
    ensures nodes[0].tag == Alert && nodes[0].key == Key(row, CAlertId)
    ensures nodes[1].tag == Threat && nodes[1].key == Key(row, CTechniqueId)
  {
    [Node(Alert, Key(row, CAlertId),
          map[CRuleName := At(row, CRuleName), CRecommendedAction := At(row, CRuleRecommendedAction)], None),
     Node(Threat, Key(row, CTechniqueId), map[CName := At(row, CTechnique)], None)]
  }

  function ShapeControls(row: Row): Shaped {
    var alertId, techniqueId := Key(row, CAlertId), Key(row, CTechniqueId);
    var controls, runbooks := Values(At(row, CControls)), Values(At(row, CRunbooks));
    Shaped(AlertAndTechnique(row)
           + Map(Named(Control, CName), controls) + Map(Named(Document, CTitle), runbooks),
           [Link(alertId, Indicates, techniqueId)]
           + Map(To(Mitigates, techniqueId), controls) + Map(To(SupportsResponseTo, techniqueId), runbooks))
  }

  function ShapeServiceAlert(row: Row): Shaped {
    Shaped([Node(Alert, Key(row, CAlertId),
                 map[CRuleName := At(row, CRuleName), CSeverity := At(row, CSeverity), CStatus := At(row, CStatus),
                     CDescription := At(row, CDescription), CRecommendedAction := At(row, CRecommendedAction),
                     CTimestamp := At(row, CTimestamp)], None)],
           [])
  }

  function Technique(row: Row): (n: Node)
    ensures n.tag == Threat && n.key == Key(row, CTechniqueId)
  {
    Node(Threat, Key(row, CTechniqueId), map[CName := At(row, CTechnique), CTactic := At(row, CTactic)], None)
  }

  function ShapeThreats(row: Row): Shaped {
    var techniqueId := Key(row, CTechniqueId);
    var vulnerabilities, controls := Values(At(row, CExploitsVulnerabilities)), Values(At(row, CMitigatedBy));
    Shaped([Technique(row)]
           + Map(Named(Vulnerability, CName), vulnerabilities) + Map(Named(Control, CName), controls),
           Map(From(techniqueId, Exploits), vulnerabilities) + Map(To(Mitigates, techniqueId), controls))
  }

  function Account(row: Row): (n: Node)
    ensures n.tag == User && n.key == Key(row, CUsername)
  {
    Node(User, Key(row, CUsername), map[CRole := At(row, CRole), CRuleName := At(row, CRuleName),
                                        CSeverity := At(row, CSeverity), CAlertCount := At(row, CAlertCount)], None)
  }

  function ShapeUser(row: Row): Shaped {
    var username, events := Key(row, CUsername), Values(At(row, CEvidenceEvents));
    Shaped([Account(row)]
           + Map(Bare(Event), events),
           Map(From(username, Triggered), events))
  }

  function ShapeImpact(row: Row): Shaped {
    Shaped([Node(Service, Key(row, CImpactedService), map[CHops := At(row, CHops)], None)], [])
  }

  function IncidentOf(row: Row): (n: Node)
    ensures n.tag == Incident && n.key == Key(row, CIncidentId)
  {
    Node(Incident, Key(row, CIncidentId), map[CSeverity := At(row, CSeverity), CTitle := At(row, CTitle),
                                              CReportedBy := At(row, CReportedBy)], None)
  }

  function ShapeIncident(row: Row): Shaped {
    var incidentId, asset := Key(row, CIncidentId), Key(row, CAsset);
    var alerts := ListedAlerts(At(row, CAlerts));
    Shaped([IncidentOf(row)]
           + (if asset != "" then [Bare(Asset)(asset)] else []) + Map(EntryNode(), alerts),
           (if asset != "" then [Link(incidentId, Affects, asset)] else []) + Map(EntryLink(incidentId), alerts))
  }

  /** `SHAPERS` */
  function Shape(query: QueryKey): Row -> Shaped {
    (row: Row) =>
      match query
      case ControlsForAlert => ShapeControls(row)
      case AlertsForService => ShapeServiceAlert(row)
      case ThreatsForService => ShapeThreats(row)
      case UsersHighSeverity => ShapeUser(row)
      case DependencyImpact => ShapeImpact(row)
      case IncidentsAndAlerts => ShapeIncident(row)
  }

  // ---------------------------------------------------------------- deduplication

  /** `_identity` of a node, and of a relationship. */
  function NodeIdentity(): Node -> (Label, string) {
    (n: Node) => (n.tag, n.key)
  }

  function LinkIdentity(): Link -> Link {
    (l: Link) => l
  }

  predicate Marked<T, K(==)>(identity: T -> K, xs: seq<T>, mark: K) {
    exists i :: 0 <= i < |xs| && identity(xs[i]) == mark
  }

  /** `_unique`: the first of each identity, in order. */
  function Unique<T, K(==)>(identity: T -> K, xs: seq<T>): seq<T> {
    if xs == [] then []
    else
      var front, last := xs[..|xs| - 1], xs[|xs| - 1];
      if Marked(identity, front, identity(last)) then Unique(identity, front) else Unique(identity, front) + [last]
  }

  method Deduplicate<T, K(==, !new)>(identity: T -> K, items: seq<T>) returns (ordered: seq<T>)
    ensures ordered == Unique(identity, items)
  {
    ordered := [];
    var marks: set<K> := {};
    for i := 0 to |items|
      invariant ordered == Unique(identity, items[..i])
      invariant forall k :: k in marks <==> Marked(identity, items[..i], k)
    {
      var item := items[i];
      var mark := identity(item);
      assert items[..i + 1] == items[..i] + [item];
      UniqueSnoc(identity, items[..i], item);
      if mark !in marks {
        marks := marks + {mark};
        ordered := ordered + [item];
      }
    }
    assert items[..|items|] == items;
  }

  lemma {:induction false} MarkedSnoc<T, K>(identity: T -> K, front: seq<T>, last: T, k: K)
    ensures Marked(identity, front + [last], k) <==> Marked(identity, front, k) || identity(last) == k
  {
    var xs := front + [last];
    assert xs[|front|] == last;
    assert forall i :: 0 <= i < |front| ==> xs[i] == front[i];
  }

  lemma {:induction false} UniqueSnoc<T, K(!new)>(identity: T -> K, front: seq<T>, last: T)
    ensures Unique(identity, front + [last])
      == if Marked(identity, front, identity(last)) then Unique(identity, front) else Unique(identity, front) + [last]
    ensures forall k :: Marked(identity, front + [last], k) <==> Marked(identity, front, k) || identity(last) == k
  {
    assert (front + [last])[..|front|] == front;
    forall k
      ensures Marked(identity, front + [last], k) <==> Marked(identity, front, k) || identity(last) == k
    {
      MarkedSnoc(identity, front, last, k);
    }
  }

  // --------------------------------------------------------------------- shaping

  function NodesOf(query: QueryKey): Row -> seq<Node> {
    (row: Row) => Filter(HasKey(), Shape(query)(row).nodes)
  }

  function LinksOf(query: QueryKey): Row -> seq<Link> {
    (row: Row) => Filter(HasEnds(), Shape(query)(row).links)
  }

  function HasKey(): Node -> bool {
    (n: Node) => n.key != ""
  }

  function HasEnds(): Link -> bool {
    (l: Link) => l.start != "" && l.end != ""
  }

  /** `shape_rows` as a function of the rows. */
  function ShapedRows(query: QueryKey, rows: seq<Row>): Shaped {
    Shaped(Unique(NodeIdentity(), FlatMap(NodesOf(query), rows)), Unique(LinkIdentity(), FlatMap(LinksOf(query), rows)))
  }

  /** A collected column: for each name a node, and a relationship to or from it. */
  method Collect(names: seq<string>, node: string -> Node, link: string -> Link) returns (nodes: seq<Node>,
                 links: seq<Link>)
    ensures nodes == Map(node, names) && links == Map(link, names)
  {
    nodes, links := [], [];
    for i := 0 to |names|
      invariant nodes == Map(node, names)[..i] && links == Map(link, names)[..i]
    {
      nodes := nodes + [node(names[i])];
      links := links + [link(names[i])];
    }
    assert Map(node, names)[..|names|] == Map(node, names) && Map(link, names)[..|names|] == Map(link, names);
  }

  method ShapeControlsRow(row: Row) returns (nodes: seq<Node>, links: seq<Link>)
    ensures Shaped(nodes, links) == ShapeControls(row)
  {
    hide Values, AlertAndTechnique, Key, At;
    var alertId, techniqueId := Key(row, CAlertId), Key(row, CTechniqueId);
    nodes := AlertAndTechnique(row);
    links := [Link(alertId, Indicates, techniqueId)];
    var controls, mitigates := Collect(Values(At(row, CControls)), Named(Control, CName), To(Mitigates, techniqueId));
    nodes, links := nodes + controls, links + mitigates;
    var runbooks, supports :=
      Collect(Values(At(row, CRunbooks)), Named(Document, CTitle), To(SupportsResponseTo, techniqueId));
    nodes, links := nodes + runbooks, links + supports;
  }

  method ShapeThreatsRow(row: Row) returns (nodes: seq<Node>, links: seq<Link>)
    ensures Shaped(nodes, links) == ShapeThreats(row)
  {
    hide Values, Technique, Key, At;
    var techniqueId := Key(row, CTechniqueId);
    nodes, links := [Technique(row)], [];
    var vulnerabilities, exploits :=
      Collect(Values(At(row, CExploitsVulnerabilities)), Named(Vulnerability, CName), From(techniqueId, Exploits));
    nodes, links := nodes + vulnerabilities, links + exploits;
    var controls, mitigates :=
      Collect(Values(At(row, CMitigatedBy)), Named(Control, CName), To(Mitigates, techniqueId));
    nodes, links := nodes + controls, links + mitigates;
  }

  method ShapeUserRow(row: Row) returns (nodes: seq<Node>, links: seq<Link>)
    ensures Shaped(nodes, links) == ShapeUser(row)
  {
    hide Values, Account, Key, At;
    nodes := [Account(row)];
    var events, triggered :=
      Collect(Values(At(row, CEvidenceEvents)), Bare(Event), From(Key(row, CUsername), Triggered));
    nodes, links := nodes + events, triggered;
  }

  /** The loop over an incident's alerts; a map without an identifier is skipped. */
  method CollectAlerts(incidentId: string, listed: seq<Entry>) returns (nodes: seq<Node>, links: seq<Link>)
    ensures nodes == Map(EntryNode(), Filter(HasAlertId(), listed))
    ensures links == Map(EntryLink(incidentId), Filter(HasAlertId(), listed))
  {
    nodes, links := [], [];
    for i := 0 to |listed|
      invariant nodes == Map(EntryNode(), Filter(HasAlertId(), listed[..i]))
      invariant links == Map(EntryLink(incidentId), Filter(HasAlertId(), listed[..i]))
    {
      var alert := listed[i];
      assert listed[..i + 1][..i] == listed[..i];
      if alert.AlertMap? && Truthy(alert.alertId) {
        nodes := nodes + [Node(Alert, alert.alertId.value, map[CRuleName := alert.ruleName], None)];
        links := links + [Link(incidentId, Contains, alert.alertId.value)];
      }
    }
    assert listed[..|listed|] == listed;
  }

  method ShapeIncidentRow(row: Row) returns (nodes: seq<Node>, links: seq<Link>)
    ensures Shaped(nodes, links) == ShapeIncident(row)
  {
    hide IncidentOf, Key, Filter, EntryNode, EntryLink;
    var incidentId, asset := Key(row, CIncidentId), Key(row, CAsset);
    nodes, links := [IncidentOf(row)], [];
    if asset != "" {
      nodes := nodes + [Node(Asset, asset, map[], None)];
      links := links + [Link(incidentId, Affects, asset)];
    }
    var listed := if At(row, CAlerts).Entries? then At(row, CAlerts).entries else [];
    var alerts, contains := CollectAlerts(incidentId, listed);
    nodes, links := nodes + alerts, links + contains;
    assert Filter(HasAlertId(), listed) == ListedAlerts(At(row, CAlerts)) by {
      NothingListed();
    }
  }

  lemma {:induction false} NothingListed()
    ensures Filter(HasAlertId(), []) == []
  {
  }

  method ShapeRow(query: QueryKey, row: Row) returns (nodes: seq<Node>, links: seq<Link>)
    ensures Shaped(nodes, links) == Shape(query)(row)
  {
    match query
    case ControlsForAlert => nodes, links := ShapeControlsRow(row);
    case AlertsForService => nodes, links := ShapeServiceAlert(row).nodes, [];
    case ThreatsForService => nodes, links := ShapeThreatsRow(row);
    case UsersHighSeverity => nodes, links := ShapeUserRow(row);
    case DependencyImpact => nodes, links := ShapeImpact(row).nodes, [];
    case IncidentsAndAlerts => nodes, links := ShapeIncidentRow(row);
  }

  /** `shape_rows` */
  method ShapeRows(query: QueryKey, rows: seq<Row>) returns (shaped: Shaped)
    ensures shaped == ShapedRows(query, rows)
  {
    hide Shape, Unique, Filter;
    var nodes: seq<Node>, links: seq<Link> := [], [];
    for i := 0 to |rows|
      invariant nodes == FlatMap(NodesOf(query), rows[..i])
      invariant links == FlatMap(LinksOf(query), rows[..i])
    {
      assert rows[..i + 1][..i] == rows[..i];
      var rowNodes, rowLinks := ShapeRow(query, rows[i]);
      nodes := nodes + Filter(HasKey(), rowNodes);
      links := links + Filter(HasEnds(), rowLinks);
    }
    assert rows[..|rows|] == rows;
    var uniqueNodes := Deduplicate(NodeIdentity(), nodes);
    var uniqueLinks := Deduplicate(LinkIdentity(), links);
    shaped := Shaped(uniqueNodes, uniqueLinks);
  }
}
