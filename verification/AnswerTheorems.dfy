/** From rows to answer: what is counted, what is paired, and what can fail. */
module AnswerTheorems {
  import opened Wrappers
  import opened Sequences
  import opened Graphs
  import opened Retrieval
  import opened RetrievalTheorems
  import opened Intents
  import opened Templates
  import opened TemplateTheorems

  // ------------------------------------------------------------- events of a user

  /** The events that some row names a user for. */
  ghost function EventsNamedFor(rows: seq<Row>, username: string): set<string> {
    set row, id | row in rows && Key(row, CUsername) == username && id in Values(At(row, CEvidenceEvents))
      && id != "" :: id
  }

  function Ends(links: seq<Link>): set<string> {
    set l | l in links :: l.end
  }

  predicate Distinct(links: seq<Link>) {
    forall i, j :: 0 <= i < j < |links| ==> links[i] != links[j]
  }

  lemma {:induction false} DistinctKept(p: Link -> bool, links: seq<Link>)
    requires Distinct(links)
    ensures Distinct(Filter(p, links))
  {
    if links != [] {
      var front, last := links[..|links| - 1], links[|links| - 1];
      assert links == front + [last];
      DistinctKept(p, front);
      FilterIn(p, front);
      var kept := Filter(p, front);
      forall i | 0 <= i < |kept|
        ensures kept[i] != last
      {
        assert kept[i] in front;
        var j :| 0 <= j < |front| && front[j] == kept[i];
        assert links[j] != links[|links| - 1];
      }
    }
  }

  /** Distinct relationships of one kind from one node have distinct ends. */
  lemma {:induction false} EndsCounted(links: seq<Link>, kind: Kind, start: string)
    requires Distinct(links) && forall l :: l in links ==> l.kind == kind && l.start == start
    ensures |Ends(links)| == |links|
  {
    if links != [] {
      var front, last := links[..|links| - 1], links[|links| - 1];
      assert links == front + [last];
      EndsCounted(front, kind, start);
      assert Ends(links) == Ends(front) + {last.end};
      assert last !in front && last in links;
    }
  }

  lemma {:induction false} UserRowLinks(row: Row, l: Link)
    ensures l in ShapeUser(row).links
      <==> l.start == Key(row, CUsername) && l.kind == Triggered && l.end in Values(At(row, CEvidenceEvents))
  {
    hide Values, Key;
    var events, links := Values(At(row, CEvidenceEvents)), ShapeUser(row).links;
    if l.start == Key(row, CUsername) && l.kind == Triggered && l.end in events {
      var i :| 0 <= i < |events| && events[i] == l.end;
      assert links[i] == l;
    }
    if l in links {
      var i :| 0 <= i < |links| && links[i] == l;
      assert events[i] in events;
    }
  }

  /** The count of evidence beside a user is the number of distinct events over all
      the rows that name that user. */
  lemma {:induction false} UserEventsCountedOnce(rows: seq<Row>, username: string, e: Evidence)
    requires username != "" && e.links == ShapedRows(UsersHighSeverity, rows).links
    ensures |LinksLeaving(e, Triggered, username)| == |EventsNamedFor(rows, username)|
  {
    hide Filter, Unique, ShapeUser, Values;
    var links := LinksLeaving(e, Triggered, username);
    FilterIn(Leaving(Triggered, username), e.links);
    LinksAreDistinct(FlatMap(LinksOf(UsersHighSeverity), rows));
    DistinctKept(Leaving(Triggered, username), e.links);
    EndsCounted(links, Triggered, username);
    forall id
      ensures id in Ends(links) <==> id in EventsNamedFor(rows, username)
    {
      EventLinked(rows, username, e, id);
    }
    assert Ends(links) == EventsNamedFor(rows, username);
  }

  lemma {:induction false} LinksAreDistinct(links: seq<Link>)
    ensures Distinct(Unique(LinkIdentity(), links))
  {
    hide Unique;
    KeepsEachIdentityOnce(LinkIdentity(), links);
    var kept := Unique(LinkIdentity(), links);
    forall i, j | 0 <= i < j < |kept|
      ensures kept[i] != kept[j]
    {
      assert LinkIdentity()(kept[i]) != LinkIdentity()(kept[j]);
    }
  }

  lemma {:induction false} EventLinked(rows: seq<Row>, username: string, e: Evidence, id: string)
    requires username != "" && e.links == ShapedRows(UsersHighSeverity, rows).links
    ensures id in Ends(LinksLeaving(e, Triggered, username)) <==> id in EventsNamedFor(rows, username)
  {
    hide Filter, ShapedRows, ShapeUser, Values, Key;
    var links, l := LinksLeaving(e, Triggered, username), Link(username, Triggered, id);
    FilterIn(Leaving(Triggered, username), e.links);
    assert id in Ends(links) <==> l in e.links by {
      if x :| x in links && x.end == id {
        assert x == l;
      }
    }
    EvidenceComesFromRows(UsersHighSeverity, rows, Bare(User)(username), l);
    forall row: Row
      ensures l in Shape(UsersHighSeverity)(row).links
        <==> Key(row, CUsername) == username && id in Values(At(row, CEvidenceEvents))
    {
      UserRowLinks(row, l);
    }
  }

  // ------------------------------------------------------------- rules of alerts

  /** The rule shown beside an incident's alert was paired with that alert in one
      row's own list. */
  lemma {:induction false} RuleComesFromItsAlert(rows: seq<Row>, e: Evidence, l: Link)
    requires e.nodes == ShapedRows(IncidentsAndAlerts, rows).nodes
    requires AlertNamed(NodesTaggedAs(e, Label.Alert), l.end).Some?
    ensures var alert := AlertNamed(NodesTaggedAs(e, Label.Alert), l.end).value;
      && alert.key == l.end
      && exists row, entry :: row in rows && entry in ListedAlerts(At(row, CAlerts)) && entry.AlertMap?
                              && entry.alertId == Some(l.end) && alert.properties == map[CRuleName := entry.ruleName]
  {
    hide Filter, ShapedRows, ShapeIncident, ListedAlerts;
    var alerts := NodesTaggedAs(e, Label.Alert);
    TaggedAreNodes(e, Label.Alert);
    AlertNamedIsOwn(alerts, l.end);
    var alert := AlertNamed(alerts, l.end).value;
    EvidenceComesFromRows(IncidentsAndAlerts, rows, alert, l);
    var row :| row in rows && alert in Shape(IncidentsAndAlerts)(row).nodes;
    var entry := ListedNode(row, alert);
  }

  lemma {:induction false} ListedNode(row: Row, alert: Node) returns (entry: Entry)
    requires alert in ShapeIncident(row).nodes && alert.tag == Label.Alert
    ensures entry in ListedAlerts(At(row, CAlerts)) && entry.AlertMap? && entry.alertId == Some(alert.key)
    ensures alert.properties == map[CRuleName := entry.ruleName]
  {
    var listed := ListedAlerts(At(row, CAlerts));
    var nodes := Map(EntryNode(), listed);
    assert alert in nodes;
    var i :| 0 <= i < |nodes| && nodes[i] == alert;
    entry := listed[i];
    if At(row, CAlerts).Entries? {
      FilterIn(HasAlertId(), At(row, CAlerts).entries);
    }
    assert entry in listed;
  }

  // --------------------------------------------------------------- what can fail

  lemma {:induction false} AlertNodesFromRows(rows: seq<Row>)
    ensures (exists n :: n in ShapedRows(ControlsForAlert, rows).nodes && n.tag == Label.Alert)
      <==> exists row :: row in rows && Key(row, CAlertId) != ""
  {
    hide Shape, ShapedRows, Key;
    if row :| row in rows && Key(row, CAlertId) != "" {
      RowHasAlert(row);
      PresentIsKept(ControlsForAlert, rows, row, Label.Alert, Key(row, CAlertId));
      var nodes := ShapedRows(ControlsForAlert, rows).nodes;
      var i :| 0 <= i < |nodes| && NodeIdentity()(nodes[i]) == (Label.Alert, Key(row, CAlertId));
      assert nodes[i] in nodes;
    }
    if n :| n in ShapedRows(ControlsForAlert, rows).nodes && n.tag == Label.Alert {
      EvidenceComesFromRows(ControlsForAlert, rows, n, Link("", Indicates, ""));
      var row :| row in rows && n in Shape(ControlsForAlert)(row).nodes;
      AlertOfRow(row, n);
    }
  }

  lemma {:induction false} RowHasAlert(row: Row)
    ensures Present(Shape(ControlsForAlert)(row).nodes, Label.Alert, Key(row, CAlertId))
  {
    hide Present, Values, Map, Key;
    var nodes := Shape(ControlsForAlert)(row).nodes;
    assert nodes[0] == AlertAndTechnique(row)[0];
    PresentIn(nodes, nodes[0]);
  }

  lemma {:induction false} AlertOfRow(row: Row, n: Node)
    requires n in Shape(ControlsForAlert)(row).nodes && n.tag == Label.Alert
    ensures n.key == Key(row, CAlertId)
  {
    hide Values, Key, AlertAndTechnique;
    var controls, runbooks := Values(At(row, CControls)), Values(At(row, CRunbooks));
    assert n in AlertAndTechnique(row) || n in Map(Named(Control, CName), controls)
           || n in Map(Named(Document, CTitle), runbooks);
  }

  /** Asked about an alert, the generator fails exactly when rows came back, with
      something in them, and none carries its alert's identifier. */
  lemma {:induction false} AnswerFailsIff(question: string, answers: Call -> seq<Row>)
    ensures var e := Retrieved(question, answers);
      Generate(e).Err? <==> e.nodes != [] && e.query == Some(ControlsForAlert)
                            && forall row :: row in e.rows ==> Key(row, CAlertId) == ""
  {
    hide Generate, ShapedRows, Classify, Filter;
    var e := Retrieved(question, answers);
    GenerateFailsIff(e);
    if e.query.Some? {
      AlertNodesFromRows(e.rows);
    }
  }
}
