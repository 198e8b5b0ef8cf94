/** What shaped evidence guarantees for all rows of any query. */
module RetrievalTheorems {
  import opened Sequences
  import opened Graphs
  import opened Retrieval

  // ---------------------------------------------------------------- deduplication

  /** The item at `i` is the first of its identity. */
  ghost predicate First<T(!new), K>(identity: T -> K, xs: seq<T>, i: nat) {
    i < |xs| && forall j :: 0 <= j < i ==> identity(xs[j]) != identity(xs[i])
  }

  lemma {:induction false} FirstSnoc<T(!new), K>(identity: T -> K, front: seq<T>, last: T, i: nat)
    ensures First(identity, front + [last], i)
      <==> First(identity, front, i) || (i == |front| && !Marked(identity, front, identity(last)))
  {
    var xs := front + [last];
    assert forall j :: 0 <= j < |front| ==> xs[j] == front[j];
  }

  /** Exactly the first of each identity is kept. */
  lemma {:induction false} KeepsTheFirst<T(!new), K(!new)>(identity: T -> K, xs: seq<T>, x: T)
    ensures x in Unique(identity, xs) <==> exists i: nat :: First(identity, xs, i) && xs[i] == x
  {
    if xs != [] {
      var front, last := xs[..|xs| - 1], xs[|xs| - 1];
      assert xs == front + [last];
      KeepsTheFirst(identity, front, x);
      forall i: nat
        ensures First(identity, xs, i)
          <==> First(identity, front, i) || (i == |front| && !Marked(identity, front, identity(last)))
      {
        FirstSnoc(identity, front, last, i);
      }
      if i: nat :| First(identity, front, i) && front[i] == x {
        assert First(identity, xs, i) && xs[i] == x;
      }
      if !Marked(identity, front, identity(last)) && x == last {
        assert First(identity, xs, |front|) && xs[|front|] == x;
      }
    }
  }

  /** No identity is lost, and none is kept twice. */
  lemma {:induction false} KeepsEachIdentityOnce<T(!new), K(!new)>(identity: T -> K, xs: seq<T>)
    ensures forall k :: Marked(identity, Unique(identity, xs), k) <==> Marked(identity, xs, k)
    ensures var kept := Unique(identity, xs);
      forall i, j :: 0 <= i < j < |kept| ==> identity(kept[i]) != identity(kept[j])
  {
    if xs != [] {
      var front, last := xs[..|xs| - 1], xs[|xs| - 1];
      assert xs == front + [last];
      KeepsEachIdentityOnce(identity, front);
      UniqueSnoc(identity, front, last);
      var kept := Unique(identity, front);
      forall k
        ensures Marked(identity, kept + [last], k) <==> Marked(identity, kept, k) || identity(last) == k
      {
        MarkedSnoc(identity, kept, last, k);
      }
      if !Marked(identity, front, identity(last)) {
        assert !Marked(identity, kept, identity(last));
      }
    }
  }

  /** What is kept of a list comes first, in the same order, in what is kept of
      any longer one; and repeating identities adds nothing. */
  lemma {:induction false} LongerListsKeepMore<T(!new), K(!new)>(identity: T -> K, xs: seq<T>, ys: seq<T>)
    ensures Unique(identity, xs) <= Unique(identity, xs + ys)
    ensures (forall y :: y in ys ==> Marked(identity, xs, identity(y)))
      ==> Unique(identity, xs + ys) == Unique(identity, xs)
  {
    if ys == [] {
      assert xs + ys == xs;
    } else {
      var front, last := ys[..|ys| - 1], ys[|ys| - 1];
      assert ys == front + [last];
      assert xs + ys == (xs + front) + [last];
      LongerListsKeepMore(identity, xs, front);
      UniqueSnoc(identity, xs + front, last);
      if Marked(identity, xs, identity(last)) {
        MarkedGrows(identity, xs, front, identity(last));
      }
      assert last in ys;
    }
  }

  lemma {:induction false} MarkedGrows<T(!new), K>(identity: T -> K, xs: seq<T>, ys: seq<T>, k: K)
    requires Marked(identity, xs, k)
    ensures Marked(identity, xs + ys, k)
  {
    var i :| 0 <= i < |xs| && identity(xs[i]) == k;
    assert (xs + ys)[i] == xs[i];
  }

  lemma {:induction false} InIsMarked<T(!new), K>(identity: T -> K, xs: seq<T>, x: T)
    requires x in xs
    ensures Marked(identity, xs, identity(x))
  {
    var i :| 0 <= i < |xs| && xs[i] == x;
  }

  /** Rows already seen change nothing, wherever they come again. */
  lemma {:induction false} RepeatedRowsChangeNothing(query: QueryKey, rows: seq<Row>, more: seq<Row>)
    requires forall r :: r in more ==> r in rows
    ensures ShapedRows(query, rows + more) == ShapedRows(query, rows)
  {
    hide Shape, Unique, FlatMap, Filter;
    FlatMapConcat(NodesOf(query), rows, more);
    FlatMapConcat(LinksOf(query), rows, more);
    RepeatsMarked(NodesOf(query), NodeIdentity(), rows, more);
    RepeatsMarked(LinksOf(query), LinkIdentity(), rows, more);
    LongerListsKeepMore(NodeIdentity(), FlatMap(NodesOf(query), rows), FlatMap(NodesOf(query), more));
    LongerListsKeepMore(LinkIdentity(), FlatMap(LinksOf(query), rows), FlatMap(LinksOf(query), more));
  }

  lemma {:induction false} RepeatsMarked<T(!new), K(!new)>(f: Row -> seq<T>, identity: T -> K, rows: seq<Row>,
                                           more: seq<Row>)
    requires forall r :: r in more ==> r in rows
    ensures forall y :: y in FlatMap(f, more) ==> Marked(identity, FlatMap(f, rows), identity(y))
  {
    forall y | y in FlatMap(f, more)
      ensures Marked(identity, FlatMap(f, rows), identity(y))
    {
      FlatMapIn(f, more, y);
      FlatMapIn(f, rows, y);
      InIsMarked(identity, FlatMap(f, rows), y);
    }
  }

  // --------------------------------------------------------------------- closure

  /** The labels a kind of relationship runs between. */
  function EndLabels(kind: Kind): (Label, Label) {
    match kind
    case Indicates => (Label.Alert, Threat)
    case Mitigates => (Control, Threat)
    case SupportsResponseTo => (Document, Threat)
    case Exploits => (Threat, Vulnerability)
    case Triggered => (User, Event)
    case Affects => (Incident, Asset)
    case _ => (Incident, Label.Alert)
  }

  /** A node of this label and key is among these. */
  predicate Present(nodes: seq<Node>, tag: Label, key: string) {
    Marked(NodeIdentity(), nodes, (tag, key))
  }

  predicate EndsPresent(nodes: seq<Node>, l: Link) {
    Present(nodes, EndLabels(l.kind).0, l.start) && Present(nodes, EndLabels(l.kind).1, l.end)
  }

  lemma {:induction false} PresentConcat(a: seq<Node>, b: seq<Node>, tag: Label, key: string)
    requires Present(a, tag, key) || Present(b, tag, key)
    ensures Present(a + b, tag, key)
  {
    if Present(a, tag, key) {
      var i :| 0 <= i < |a| && NodeIdentity()(a[i]) == (tag, key);
      assert (a + b)[i] == a[i];
    } else {
      var i :| 0 <= i < |b| && NodeIdentity()(b[i]) == (tag, key);
      assert (a + b)[|a| + i] == b[i];
    }
  }

  lemma {:induction false} PresentInParts(a: seq<Node>, b: seq<Node>, c: seq<Node>, tag: Label, key: string)
    requires Present(a, tag, key) || Present(b, tag, key) || Present(c, tag, key)
    ensures Present(a + b + c, tag, key)
  {
    hide Present;
    if !Present(c, tag, key) {
      PresentConcat(a, b, tag, key);
    }
    PresentConcat(a + b, c, tag, key);
  }

  lemma {:induction false} PresentIn(nodes: seq<Node>, n: Node)
    requires n in nodes
    ensures Present(nodes, n.tag, n.key)
  {
    var i :| 0 <= i < |nodes| && nodes[i] == n;
    assert NodeIdentity()(nodes[i]) == (n.tag, n.key);
  }

  /** Nodes made of names, one each, are present under those names. */
  lemma {:induction false} PresentMapped(f: string -> Node, names: seq<string>, tag: Label, name: string)
    requires name in names && f(name).tag == tag && f(name).key == name
    ensures Present(Map(f, names), tag, name)
  {
    var i :| 0 <= i < |names| && names[i] == name;
    assert Map(f, names)[i] in Map(f, names);
    PresentIn(Map(f, names), f(name));
  }

  /** Links made of names run to or from those names. */
  lemma {:induction false} LinkMapped(f: string -> Link, names: seq<string>, l: Link) returns (name: string)
    requires l in Map(f, names)
    ensures name in names && l == f(name)
  {
    var i :| 0 <= i < |names| && Map(f, names)[i] == l;
    name := names[i];
  }

  lemma {:induction false} ControlsRowLinks(row: Row, l: Link)
    requires l in ShapeControls(row).links
    ensures || l == Link(Key(row, CAlertId), Indicates, Key(row, CTechniqueId))
            || (l == Link(l.start, Mitigates, Key(row, CTechniqueId)) && l.start in Values(At(row, CControls)))
            || (l == Link(l.start, SupportsResponseTo, Key(row, CTechniqueId)) && l.start in Values(At(row, CRunbooks)))
  {
    hide Values, AlertAndTechnique, Key, At, Named;
    var techniqueId, controls, runbooks := Key(row, CTechniqueId), Values(At(row, CControls)),
        Values(At(row, CRunbooks));
    if l in Map(To(Mitigates, techniqueId), controls) {
      var name := LinkMapped(To(Mitigates, techniqueId), controls, l);
    } else if l in Map(To(SupportsResponseTo, techniqueId), runbooks) {
      var name := LinkMapped(To(SupportsResponseTo, techniqueId), runbooks, l);
    }
  }

  lemma {:induction false} ControlsRowCloses(row: Row, l: Link)
    requires l in ShapeControls(row).links
    ensures EndsPresent(ShapeControls(row).nodes, l)
  {
    hide Present, Values, AlertAndTechnique, Key, At, To;
    var techniqueId, controls, runbooks := Key(row, CTechniqueId), Values(At(row, CControls)),
        Values(At(row, CRunbooks));
    var heads, c, r := AlertAndTechnique(row), Map(Named(Control, CName), controls),
        Map(Named(Document, CTitle), runbooks);
    ControlsRowLinks(row, l);
    PresentIn(heads, heads[0]);
    PresentIn(heads, heads[1]);
    PresentInParts(heads, c, r, Threat, techniqueId);
    match l.kind
    case Mitigates =>
      PresentMapped(Named(Control, CName), controls, Control, l.start);
      PresentInParts(heads, c, r, Control, l.start);
    case SupportsResponseTo =>
      PresentMapped(Named(Document, CTitle), runbooks, Document, l.start);
      PresentInParts(heads, c, r, Document, l.start);
    case _ =>
      PresentInParts(heads, c, r, Label.Alert, l.start);
  }

  lemma {:induction false} ThreatsRowCloses(row: Row, l: Link)
    requires l in ShapeThreats(row).links
    ensures EndsPresent(ShapeThreats(row).nodes, l)
  {
    hide Present, Values, Technique, Key, At;
    var s, techniqueId := ShapeThreats(row), Key(row, CTechniqueId);
    var vulnerabilities, controls := Values(At(row, CExploitsVulnerabilities)), Values(At(row, CMitigatedBy));
    var head, v, c := [Technique(row)], Map(Named(Vulnerability, CName), vulnerabilities),
        Map(Named(Control, CName), controls);
    assert s.nodes == head + v + c;
    PresentIn(head, head[0]);
    PresentInParts(head, v, c, Threat, techniqueId);
    if l in Map(From(techniqueId, Exploits), vulnerabilities) {
      var name := LinkMapped(From(techniqueId, Exploits), vulnerabilities, l);
      PresentMapped(Named(Vulnerability, CName), vulnerabilities, Vulnerability, name);
      PresentInParts(head, v, c, Vulnerability, name);
    } else {
      var name := LinkMapped(To(Mitigates, techniqueId), controls, l);
      PresentMapped(Named(Control, CName), controls, Control, name);
      PresentInParts(head, v, c, Control, name);
    }
  }

  lemma {:induction false} UserRowCloses(row: Row, l: Link)
    requires l in ShapeUser(row).links
    ensures EndsPresent(ShapeUser(row).nodes, l)
  {
    hide Present, Values, Account, Key;
    var s, username, events := ShapeUser(row), Key(row, CUsername), Values(At(row, CEvidenceEvents));
    var head, e := [Account(row)], Map(Bare(Event), events);
    assert s.nodes == head + e;
    PresentIn(head, head[0]);
    PresentConcat(head, e, User, username);
    var name := LinkMapped(From(username, Triggered), events, l);
    PresentMapped(Bare(Event), events, Event, name);
    PresentConcat(head, e, Event, name);
  }

  lemma {:induction false} IncidentRowCloses(row: Row, l: Link)
    requires l in ShapeIncident(row).links
    ensures EndsPresent(ShapeIncident(row).nodes, l)
  {
    hide Present, ListedAlerts, Filter, IncidentOf, Key;
    var s, incidentId, asset := ShapeIncident(row), Key(row, CIncidentId), Key(row, CAsset);
    var alerts := ListedAlerts(At(row, CAlerts));
    var head, named, a := [IncidentOf(row)], if asset != "" then [Bare(Asset)(asset)] else [], Map(EntryNode(), alerts);
    assert s.nodes == head + named + a;
    PresentIn(head, head[0]);
    PresentInParts(head, named, a, Incident, incidentId);
    if asset != "" && l == Link(incidentId, Affects, asset) {
      PresentIn(named, named[0]);
      PresentInParts(head, named, a, Asset, asset);
    } else {
      ListedAlertPresent(incidentId, alerts, l);
      PresentInParts(head, named, a, Label.Alert, l.end);
    }
  }

  lemma {:induction false} ListedAlertPresent(incidentId: string, alerts: seq<Entry>, l: Link)
    requires l in Map(EntryLink(incidentId), alerts)
    ensures l.start == incidentId && l.kind == Contains
    ensures Present(Map(EntryNode(), alerts), Label.Alert, l.end)
  {
    hide Present;
    var i :| 0 <= i < |alerts| && Map(EntryLink(incidentId), alerts)[i] == l;
    assert Map(EntryNode(), alerts)[i] in Map(EntryNode(), alerts);
    PresentIn(Map(EntryNode(), alerts), EntryNode()(alerts[i]));
  }

  lemma {:induction false} RowCloses(query: QueryKey, row: Row, l: Link)
    requires l in Shape(query)(row).links
    ensures EndsPresent(Shape(query)(row).nodes, l)
  {
    hide EndsPresent, ShapeControls, ShapeThreats, ShapeUser, ShapeIncident;
    match query
    case ControlsForAlert => ControlsRowCloses(row, l);
    case ThreatsForService => ThreatsRowCloses(row, l);
    case UsersHighSeverity => UserRowCloses(row, l);
    case IncidentsAndAlerts => IncidentRowCloses(row, l);
    case AlertsForService =>
    case DependencyImpact =>
  }

  /** A keyed node of a row is kept, as itself or as the first of its identity. */
  lemma {:induction false} PresentIsKept(query: QueryKey, rows: seq<Row>, row: Row, tag: Label, key: string)
    requires row in rows && key != "" && Present(Shape(query)(row).nodes, tag, key)
    ensures Present(ShapedRows(query, rows).nodes, tag, key)
  {
    hide Shape, Unique, FlatMap, Filter;
    var nodes := Shape(query)(row).nodes;
    var i :| 0 <= i < |nodes| && NodeIdentity()(nodes[i]) == (tag, key);
    FilterIn(HasKey(), nodes);
    FlatMapIn(NodesOf(query), rows, nodes[i]);
    InIsMarked(NodeIdentity(), FlatMap(NodesOf(query), rows), nodes[i]);
    KeepsEachIdentityOnce(NodeIdentity(), FlatMap(NodesOf(query), rows));
  }

  /** Both ends of every relationship kept are nodes kept, of the labels its kind
      runs between. */
  lemma {:induction false} EvidenceIsClosed(query: QueryKey, rows: seq<Row>, l: Link)
    requires l in ShapedRows(query, rows).links
    ensures EndsPresent(ShapedRows(query, rows).nodes, l)
  {
    hide Shape, Unique, FlatMap, Filter, Present;
    var links := FlatMap(LinksOf(query), rows);
    KeepsTheFirst(LinkIdentity(), links, l);
    FlatMapIn(LinksOf(query), rows, l);
    var row :| row in rows && l in LinksOf(query)(row);
    FilterIn(HasEnds(), Shape(query)(row).links);
    RowCloses(query, row, l);
    PresentIsKept(query, rows, row, EndLabels(l.kind).0, l.start);
    PresentIsKept(query, rows, row, EndLabels(l.kind).1, l.end);
  }

  /** Evidence comes from the rows: a kept node is the first of its identity that
      any row gave, a kept relationship is one some row gave with both its ends. */
  lemma {:induction false} EvidenceComesFromRows(query: QueryKey, rows: seq<Row>, n: Node, l: Link)
    ensures n in ShapedRows(query, rows).nodes
      <==> exists i: nat :: First(NodeIdentity(), FlatMap(NodesOf(query), rows), i)
                            && FlatMap(NodesOf(query), rows)[i] == n
    ensures n in ShapedRows(query, rows).nodes
      ==> n.key != "" && exists row :: row in rows && n in Shape(query)(row).nodes
    ensures l in ShapedRows(query, rows).links
      <==> l.start != "" && l.end != "" && exists row :: row in rows && l in Shape(query)(row).links
  {
    hide Shape, Unique, FlatMap, Filter;
    var nodes, links := FlatMap(NodesOf(query), rows), FlatMap(LinksOf(query), rows);
    KeepsTheFirst(NodeIdentity(), nodes, n);
    FlatMapIn(NodesOf(query), rows, n);
    FlatMapIn(LinksOf(query), rows, l);
    forall row: Row
      ensures n in NodesOf(query)(row) <==> n in Shape(query)(row).nodes && n.key != ""
      ensures l in LinksOf(query)(row) <==> l in Shape(query)(row).links && l.start != "" && l.end != ""
    {
      FilterIn(HasKey(), Shape(query)(row).nodes);
      FilterIn(HasEnds(), Shape(query)(row).links);
    }
    UniqueElements(links, l);
  }

  /** Where the identity is the item itself, deduplication keeps every element. */
  lemma {:induction false} UniqueElements(links: seq<Link>, l: Link)
    ensures l in Unique(LinkIdentity(), links) <==> l in links
  {
    hide Unique;
    KeepsTheFirst(LinkIdentity(), links, l);
    if l in links {
      InIsMarked(LinkIdentity(), links, l);
      KeepsEachIdentityOnce(LinkIdentity(), links);
    }
  }
}
