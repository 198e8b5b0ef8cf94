/** The loaders' small language of MERGE, MATCH and SET statements, its
    executor, and when a list of statements may be run again. */
module Graphs {
  import opened Alerts

  // -------------------------------------------------------------------- graphs

  datatype Label = User | Service | Endpoint | Asset | Event | Alert | Incident
                 | Threat | Control | Vulnerability | Role | Document

  datatype Kind = Triggered | GeneratedBy | Targeted | CreatedAlert | Indicates | Targets | Exploits
                | SubtechniqueOf | Mitigates | Contains | Affects | Accessed | Concerns | DependsOn
                | Exposes | HasRole | Describes | SupportsResponseTo

  /** A node is known by its label and its natural key, which the schema's
      constraints keep unique. */
  datatype NodeKey = NodeKey(tag: Label, key: string)

  datatype Edge = Edge(start: NodeKey, kind: Kind, end: NodeKey)

  datatype Property = PTimestamp | PServiceName | PEventType | PSeverity | PEndpoint | PHttpMethod | PStatusCode
                    | PMessage | PCorrelationId | PUserId | PSourceIp
                    | PRuleName | PStatus | PDescription | PAffectedService | PAffectedUser | PAffectedEntity
                    | PRecommendedAction
                    | PTitle | PCreatedAt | PReportedBy
                    | PPort | PMethod | PProtected | PRole | PAssetType | PCriticality
                    | PName | PTactic | PKind

  /** `Absent` is null, which SET takes as removal. A rule's name and its recommended
      action, and the paragraph the fact tables write about a node, stand for their
      fixed texts. */
  datatype Value = Absent | Text(s: string) | Number(n: int) | Flag(b: bool)
                 | RuleName(rule: Rule) | Action(rule: Rule) | Summary(description: Description) | Prose(about: NodeKey)

  datatype Graph = Graph(nodes: map<NodeKey, map<Property, Value>>, edges: set<Edge>)

  const EMPTY_GRAPH := Graph(map[], {})

  // ---------------------------------------------------------------- statements

  datatype Statement =
    | /** MERGE a node, then SET properties on it. */
      MergeSet(node: NodeKey, props: map<Property, Value>)
    | /** MERGE a node WITH it MATCH another, then MERGE the edge between them. */
      MergeThenLink(merged: NodeKey, matched: NodeKey, kind: Kind, fromMerged: bool)
    | /** MATCH both ends, then MERGE the edge. */
      MatchLink(start: NodeKey, end: NodeKey, kind: Kind)
    | /** MATCH the start, MERGE the end node and the edge. */
      MatchThenMerge(start: NodeKey, end: NodeKey, kind: Kind)
    | /** MATCH every node of a label by a property and one target by its key,
          then MERGE an edge from each. */
      LinkWhere(tag: Label, property: Property, value: Value, target: NodeKey, kind: Kind)

  datatype Source = Topology | LiveEvents | SecurityKnowledge

  /** One idempotent write, tagged with the loader that produced it. */
  datatype Write = Write(statement: Statement, loader: Source)

  function Ensure(nodes: map<NodeKey, map<Property, Value>>, n: NodeKey): map<NodeKey, map<Property, Value>> {
    if n in nodes then nodes else nodes[n := map[]]
  }

  function Assign(old_: map<Property, Value>, new_: map<Property, Value>): map<Property, Value> {
    map p | p in old_.Keys + new_.Keys && !(p in new_ && new_[p].Absent?) :: if p in new_ then new_[p] else old_[p]
  }

  /** The edge a linking statement merges once its MATCHes have found their rows. */
  function LinkOf(w: Statement): Edge
    requires w.MergeThenLink? || w.MatchLink? || w.MatchThenMerge?
  {
    match w
    case MergeThenLink(m, x, kind, fromMerged) => if fromMerged then Edge(m, kind, x) else Edge(x, kind, m)
    case MatchLink(a, b, kind) => Edge(a, kind, b)
    case MatchThenMerge(a, b, kind) => Edge(a, kind, b)
  }

  predicate Selected(nodes: map<NodeKey, map<Property, Value>>, n: NodeKey, tag: Label, p: Property, v: Value) {
    n in nodes && n.tag == tag && p in nodes[n] && nodes[n][p] == v
  }

  function Rows(g: Graph, tag: Label, p: Property, v: Value): set<NodeKey> {
    set n | n in g.nodes && Selected(g.nodes, n, tag, p, v)
  }

  /** A MATCH that finds no row makes the rest of its statement do nothing. */
  function Step(w: Statement, g: Graph): Graph {
    match w
    case MergeSet(n, props) => g.(nodes := Ensure(g.nodes, n)[n := Assign(Ensure(g.nodes, n)[n], props)])
    case MergeThenLink(m, x, _, _) =>
      var nodes := Ensure(g.nodes, m);
      Graph(nodes, if x in nodes then g.edges + {LinkOf(w)} else g.edges)
    case MatchLink(a, b, _) => g.(edges := if a in g.nodes && b in g.nodes then g.edges + {LinkOf(w)} else g.edges)
    case MatchThenMerge(a, b, _) =>
      if a in g.nodes then Graph(Ensure(g.nodes, b), g.edges + {LinkOf(w)}) else g
    case LinkWhere(tag, p, v, target, kind) =>
      if target in g.nodes then
        g.(edges := g.edges + set n | n in Rows(g, tag, p, v) :: Edge(n, kind, target))
      else g
  }

  function RunAll(ws: seq<Write>, g: Graph): Graph {
    if ws == [] then g else Step(ws[|ws| - 1].statement, RunAll(ws[..|ws| - 1], g))
  }

  /** An open session with a transaction that updates the graph in place. */
  class Session {
    var nodes: map<NodeKey, map<Property, Value>>
    var edges: set<Edge>

    constructor (g: Graph)
      ensures Contents() == g
    {
      nodes := g.nodes;
      edges := g.edges;
    }

    function Contents(): Graph
      reads this
    {
      Graph(nodes, edges)
    }

    /** `MERGE` of a node: find it or create it bare. */
    method MergeNode(n: NodeKey)
      modifies this
      ensures nodes == Ensure(old(nodes), n) && edges == old(edges)
    {
      if n !in nodes {
        nodes := nodes[n := map[]];
      }
    }

    /** One edge per matched row. */
    method MergeEdges(rows: set<NodeKey>, kind: Kind, target: NodeKey)
      modifies this`edges
      ensures edges == old(edges) + set n | n in rows :: Edge(n, kind, target)
    {
      var left := rows;
      while left != {}
        invariant left <= rows
        invariant edges == old(edges) + set n | n in rows - left :: Edge(n, kind, target)
        decreases left
      {
        var n :| n in left;
        edges := edges + {Edge(n, kind, target)};
        left := left - {n};
      }
      assert rows - left == rows;
    }

    method Run(w: Statement)
      modifies this
      ensures Contents() == Step(w, old(Contents()))
    {
      match w
      case MergeSet(n, props) =>
        MergeNode(n);
        nodes := nodes[n := Assign(nodes[n], props)];
      case MergeThenLink(m, x, _, _) =>
        MergeNode(m);
        if x in nodes {
          edges := edges + {LinkOf(w)};
        }
      case MatchLink(a, b, _) =>
        if a in nodes && b in nodes {
          edges := edges + {LinkOf(w)};
        }
      case MatchThenMerge(a, b, _) =>
        if a in nodes {
          MergeNode(b);
          edges := edges + {LinkOf(w)};
        }
      case LinkWhere(tag, p, v, target, kind) =>
        if target in nodes {
          MergeEdges(Rows(Contents(), tag, p, v), kind, target);
        }
    }

    /** `apply`: every write in turn, in one transaction. */
    method Apply(writes: seq<Write>) returns (executed: int)
      modifies this
      ensures Contents() == RunAll(writes, old(Contents()))
      ensures executed == |writes|
    {
      for i := 0 to |writes|
        invariant Contents() == RunAll(writes[..i], old(Contents()))
      {
        assert writes[..i + 1][..i] == writes[..i];
        Run(writes[i].statement);
      }
      assert writes[..|writes|] == writes;
      executed := |writes|;
    }
  }

  // ----------------------------------------------- what a statement needs and makes

  /** Nodes a statement may create. */
  function Creates(w: Statement): set<NodeKey> {
    match w
    case MergeSet(n, _) => {n}
    case MergeThenLink(m, _, _, _) => {m}
    case MatchLink(_, _, _) => {}
    case MatchThenMerge(_, b, _) => {b}
    case LinkWhere(_, _, _, _, _) => {}
  }

  /** Nodes that exist after the statement, whatever it finds. */
  function Secures(w: Statement): set<NodeKey> {
    if w.MergeSet? || w.MergeThenLink? then Creates(w) else {}
  }

  /** Nodes it looks up by key. */
  function Needs(w: Statement): set<NodeKey> {
    match w
    case MergeSet(_, _) => {}
    case MergeThenLink(_, x, _, _) => {x}
    case MatchLink(a, b, _) => {a, b}
    case MatchThenMerge(a, _, _) => {a}
    case LinkWhere(_, _, _, target, _) => {target}
  }

  function Secured(ws: seq<Write>): set<NodeKey> {
    set w, n | w in ws && n in Secures(w.statement) :: n
  }

  function LabelsMade(ws: seq<Write>): set<Label> {
    set w, n | w in ws && n in Creates(w.statement) :: n.tag
  }

  /** Every node the statement looks up is already secured, or of a label that
      nothing from here on makes; a property match comes after the last
      statement that makes or sets a node of its label. */
  predicate OrderedAt(w: Statement, before: set<NodeKey>, from: set<Label>) {
    && (forall x :: x in Needs(w) ==> x in before || x.tag !in from)
    && (w.LinkWhere? ==> w.tag !in from)
  }

  /** The list is in a safe order, given what precedes and what follows it. */
  predicate Ordered(ws: seq<Write>, before: set<NodeKey>, later: set<Label>) {
    forall i :: 0 <= i < |ws| ==>
      OrderedAt(ws[i].statement, before + Secured(ws[..i]), LabelsMade(ws[i..]) + later)
  }

  /** Every key-based MATCH finds its node. */
  predicate Closed(ws: seq<Write>, before: set<NodeKey>) {
    forall i :: 0 <= i < |ws| ==> Needs(ws[i].statement) <= before + Secured(ws[..i])
  }

  // ------------------------------------------------------------- runs in general

  lemma {:induction false} RunConcat(a: seq<Write>, b: seq<Write>, g: Graph)
    ensures RunAll(a + b, g) == RunAll(b, RunAll(a, g))
  {
    if b == [] {
      assert a + b == a;
    } else {
      assert (a + b)[..|a + b| - 1] == a + b[..|b| - 1];
      RunConcat(a, b[..|b| - 1], g);
    }
  }

  lemma {:induction false} RunNext(ws: seq<Write>, i: nat, g: Graph)
    requires i < |ws|
    ensures RunAll(ws[..i + 1], g) == Step(ws[i].statement, RunAll(ws[..i], g))
  {
    assert ws[..i + 1][..i] == ws[..i];
  }

  /** Nodes and edges, not properties. */
  predicate Within(g: Graph, h: Graph) {
    g.nodes.Keys <= h.nodes.Keys && g.edges <= h.edges
  }

  lemma {:induction false} RunGrows(ws: seq<Write>, g: Graph)
    ensures Within(g, RunAll(ws, g))
  {
    if ws != [] {
      RunGrows(ws[..|ws| - 1], g);
    }
  }

  lemma {:induction false} PrefixWithin(ws: seq<Write>, i: nat, g: Graph)
    requires i <= |ws|
    ensures Within(RunAll(ws[..i], g), RunAll(ws, g))
  {
    assert ws == ws[..i] + ws[i..];
    RunConcat(ws[..i], ws[i..], g);
    RunGrows(ws[i..], RunAll(ws[..i], g));
  }

  lemma {:induction false} SecuredPresent(ws: seq<Write>, g: Graph)
    ensures Secured(ws) <= RunAll(ws, g).nodes.Keys
  {
    if ws != [] {
      var front, last := ws[..|ws| - 1], ws[|ws| - 1];
      assert ws == front + [last];
      SecuredPresent(front, g);
      forall n | n in Secured(ws)
        ensures n in RunAll(ws, g).nodes
      {
        var w :| w in ws && n in Secures(w.statement);
        if w in front {
          assert n in Secured(front);
        }
      }
    }
  }

  /** A node of a label the list never makes was there from the start. */
  lemma {:induction false} OnlyMadeLabelsAppear(ws: seq<Write>, g: Graph, n: NodeKey)
    requires n.tag !in LabelsMade(ws)
    ensures n in RunAll(ws, g).nodes <==> n in g.nodes
  {
    if ws != [] {
      var front, last := ws[..|ws| - 1], ws[|ws| - 1];
      assert ws == front + [last];
      assert LabelsMade(front) <= LabelsMade(ws);
      assert last in ws;
      assert n !in Creates(last.statement);
      OnlyMadeLabelsAppear(front, g, n);
    }
  }

  // ------------------------------------------------------------------ properties

  function Get(g: Graph, n: NodeKey, p: Property): Value {
    if n in g.nodes && p in g.nodes[n] then g.nodes[n][p] else Absent
  }

  /** What a property holds after a list of writes: the last SET of it, or what
      it held before. */
  function Overlay(ws: seq<Write>, n: NodeKey, p: Property, v: Value): Value {
    if ws == [] then v
    else
      var w := ws[|ws| - 1].statement;
      if w.MergeSet? && w.node == n && p in w.props then w.props[p] else Overlay(ws[..|ws| - 1], n, p, v)
  }

  /** No node maps a property to null; removal leaves no entry. */
  predicate NoNulls(g: Graph) {
    forall n, p :: n in g.nodes && p in g.nodes[n] ==> !g.nodes[n][p].Absent?
  }

  lemma {:induction false} StepProperty(w: Statement, g: Graph, n: NodeKey, p: Property)
    ensures Get(Step(w, g), n, p)
      == if w.MergeSet? && w.node == n && p in w.props then w.props[p] else Get(g, n, p)
    ensures NoNulls(g) ==> NoNulls(Step(w, g))
  {
  }

  lemma {:induction false} RunProperty(ws: seq<Write>, g: Graph, n: NodeKey, p: Property)
    ensures Get(RunAll(ws, g), n, p) == Overlay(ws, n, p, Get(g, n, p))
    ensures NoNulls(g) ==> NoNulls(RunAll(ws, g))
  {
    if ws != [] {
      RunProperty(ws[..|ws| - 1], g, n, p);
      StepProperty(ws[|ws| - 1].statement, RunAll(ws[..|ws| - 1], g), n, p);
    }
  }

  lemma {:induction false} OverlayConcat(a: seq<Write>, b: seq<Write>, n: NodeKey, p: Property, v: Value)
    ensures Overlay(a + b, n, p, v) == Overlay(b, n, p, Overlay(a, n, p, v))
  {
    if b == [] {
      assert a + b == a;
    } else {
      assert (a + b)[..|a + b| - 1] == a + b[..|b| - 1];
      OverlayConcat(a, b[..|b| - 1], n, p, v);
    }
  }

  /** A list either sets the property or leaves it, whatever it held. */
  lemma {:induction false} OverlaySetsOrKeeps(ws: seq<Write>, n: NodeKey, p: Property, u: Value, v: Value)
    ensures Overlay(ws, n, p, u) == Overlay(ws, n, p, v) || (Overlay(ws, n, p, u) == u && Overlay(ws, n, p, v) == v)
  {
    if ws != [] {
      OverlaySetsOrKeeps(ws[..|ws| - 1], n, p, u, v);
    }
  }

  /** Running a prefix first changes nothing the whole list will set. */
  lemma {:induction false} OverlayAbsorbs(ws: seq<Write>, k: nat, n: NodeKey, p: Property, v: Value)
    requires k <= |ws|
    ensures Overlay(ws, n, p, Overlay(ws[..k], n, p, v)) == Overlay(ws, n, p, v)
  {
    var a, b := ws[..k], ws[k..];
    assert ws == a + b;
    OverlayConcat(a, b, n, p, v);
    OverlayConcat(a, b, n, p, Overlay(a, n, p, v));
    OverlaySetsOrKeeps(a, n, p, v, Overlay(a, n, p, v));
  }

  lemma {:induction false} OverlayOfOthers(ws: seq<Write>, n: NodeKey, p: Property, v: Value)
    requires n.tag !in LabelsMade(ws)
    ensures Overlay(ws, n, p, v) == v
  {
    if ws != [] {
      var front, last := ws[..|ws| - 1], ws[|ws| - 1];
      assert ws == front + [last];
      assert LabelsMade(front) <= LabelsMade(ws);
      assert last in ws;
      assert n !in Creates(last.statement);
      OverlayOfOthers(front, n, p, v);
    }
  }

  /** Nodes of a label that nothing makes from `i` on look the same at `i`
      whether or not the first `k` writes ran before. */
  lemma {:induction false} SettledProperty(ws: seq<Write>, k: nat, i: nat, n: NodeKey, p: Property, v: Value)
    requires k <= |ws| && i <= |ws| && n.tag !in LabelsMade(ws[i..])
    ensures Overlay(ws[..i], n, p, Overlay(ws[..k], n, p, v)) == Overlay(ws[..i], n, p, v)
  {
    if k <= i {
      assert ws[..i][..k] == ws[..k];
      OverlayAbsorbs(ws[..i], k, n, p, v);
    } else {
      assert ws[..k] == ws[..i] + ws[i..k];
      OverlayConcat(ws[..i], ws[i..k], n, p, v);
      assert LabelsMade(ws[i..k]) <= LabelsMade(ws[i..]) by {
        assert forall w :: w in ws[i..k] ==> w in ws[i..];
      }
      OverlayOfOthers(ws[i..k], n, p, Overlay(ws[..i], n, p, v));
      assert ws[..i][..i] == ws[..i];
      OverlayAbsorbs(ws[..i], i, n, p, v);
    }
  }

  // -------------------------------------------------------------- running it again

  /** A node the statement at `i` looks up is there now if it ever will be. */
  lemma {:induction false} FoundNowOrNever(ws: seq<Write>, i: nat, g: Graph, x: NodeKey)
    requires Ordered(ws, {}, {}) && i < |ws| && x in Needs(ws[i].statement)
    requires x in RunAll(ws, g).nodes
    ensures x in RunAll(ws[..i], g).nodes
  {
    assert OrderedAt(ws[i].statement, {} + Secured(ws[..i]), LabelsMade(ws[i..]) + {});
    SecuredPresent(ws[..i], g);
    if x !in Secured(ws[..i]) {
      SettledNode(ws, i, g, x);
    }
  }

  lemma {:induction false} SettledNode(ws: seq<Write>, i: nat, g: Graph, x: NodeKey)
    requires i <= |ws| && x.tag !in LabelsMade(ws[i..])
    ensures x in RunAll(ws, g).nodes <==> x in RunAll(ws[..i], g).nodes
  {
    assert ws == ws[..i] + ws[i..];
    RunConcat(ws[..i], ws[i..], g);
    OnlyMadeLabelsAppear(ws[i..], RunAll(ws[..i], g), x);
  }

  /** The same rows answer a property match on both runs. */
  lemma {:induction false} SameRows(ws: seq<Write>, k: nat, i: nat, g: Graph)
    requires Ordered(ws, {}, {}) && k <= |ws| && i < |ws| && ws[i].statement.LinkWhere?
    requires NoNulls(g)
    requires Within(RunAll(ws[..i], g), RunAll(ws[..i], RunAll(ws[..k], g)))
    requires Within(RunAll(ws[..i], RunAll(ws[..k], g)), RunAll(ws, g))
    ensures var w := ws[i].statement;
      Rows(RunAll(ws[..i], RunAll(ws[..k], g)), w.tag, w.property, w.value)
      == Rows(RunAll(ws[..i], g), w.tag, w.property, w.value)
  {
    hide RunAll, Overlay, LabelsMade, Ordered;
    var w, first := ws[i].statement, RunAll(ws[..i], g);
    var resumed := RunAll(ws[..k], g);
    var second := RunAll(ws[..i], resumed);
    MatchAfterLastWrite(ws, i);
    forall n: NodeKey | n.tag == w.tag
      ensures Selected(second.nodes, n, w.tag, w.property, w.value)
        <==> Selected(first.nodes, n, w.tag, w.property, w.value)
    {
      SettledNode(ws, i, g, n);
      RunProperty(ws[..i], g, n, w.property);
      RunProperty(ws[..k], g, n, w.property);
      RunProperty(ws[..i], resumed, n, w.property);
      SettledProperty(ws, k, i, n, w.property, Get(g, n, w.property));
    }
  }

  lemma {:induction false} MatchAfterLastWrite(ws: seq<Write>, i: nat)
    requires Ordered(ws, {}, {}) && i < |ws| && ws[i].statement.LinkWhere?
    ensures ws[i].statement.tag !in LabelsMade(ws[i..])
  {
    assert OrderedAt(ws[i].statement, {} + Secured(ws[..i]), LabelsMade(ws[i..]) + {});
  }

  lemma {:induction false} StepKeepsSandwich(ws: seq<Write>, k: nat, i: nat, g: Graph)
    requires Ordered(ws, {}, {}) && k <= |ws| && i < |ws| && NoNulls(g)
    requires Within(RunAll(ws[..i], g), RunAll(ws[..i], RunAll(ws[..k], g)))
    requires Within(RunAll(ws[..i], RunAll(ws[..k], g)), RunAll(ws, g))
    ensures Within(RunAll(ws[..i + 1], g), RunAll(ws[..i + 1], RunAll(ws[..k], g)))
    ensures Within(RunAll(ws[..i + 1], RunAll(ws[..k], g)), RunAll(ws, g))
  {
    hide RunAll, Ordered, Assign, Rows;
    var first, second := RunAll(ws[..i], g), RunAll(ws[..i], RunAll(ws[..k], g));
    var w := ws[i].statement;
    RunNext(ws, i, g);
    RunNext(ws, i, RunAll(ws[..k], g));
    PrefixWithin(ws, i + 1, g);
    forall x | x in Needs(w) && x in second.nodes
      ensures x in first.nodes
    {
      FoundNowOrNever(ws, i, g, x);
    }
    if w.LinkWhere? {
      SameRows(ws, k, i, g);
    }
  }

  lemma {:induction false} Sandwich(ws: seq<Write>, k: nat, i: nat, g: Graph)
    requires Ordered(ws, {}, {}) && k <= |ws| && i <= |ws| && NoNulls(g)
    ensures Within(RunAll(ws[..i], g), RunAll(ws[..i], RunAll(ws[..k], g)))
    ensures Within(RunAll(ws[..i], RunAll(ws[..k], g)), RunAll(ws, g))
    decreases i
  {
    if i == 0 {
      RunGrows(ws[..k], g);
      PrefixWithin(ws, k, g);
    } else {
      Sandwich(ws, k, i - 1, g);
      StepKeepsSandwich(ws, k, i - 1, g);
    }
  }

  lemma {:induction false} SameGraph(g: Graph, h: Graph)
    requires Within(g, h) && Within(h, g) && NoNulls(g) && NoNulls(h)
    requires forall n, p :: Get(g, n, p) == Get(h, n, p)
    ensures g == h
  {
    assert g.nodes.Keys == h.nodes.Keys && g.edges == h.edges;
    forall n | n in g.nodes
      ensures g.nodes[n] == h.nodes[n]
    {
      forall p: Property
        ensures p in g.nodes[n] <==> p in h.nodes[n]
        ensures p in g.nodes[n] ==> g.nodes[n][p] == h.nodes[n][p]
      {
        assert Get(g, n, p) == Get(h, n, p);
      }
      assert g.nodes[n].Keys == h.nodes[n].Keys;
    }
    assert g.nodes == h.nodes;
  }

  /** Loading again after any interruption, from any starting graph, reaches
      the graph one uninterrupted load reaches. */
  lemma {:induction false} ResumeReachesSameGraph(ws: seq<Write>, k: nat, g: Graph)
    requires Ordered(ws, {}, {}) && k <= |ws| && NoNulls(g)
    ensures RunAll(ws, RunAll(ws[..k], g)) == RunAll(ws, g)
  {
    hide RunAll, Ordered, Overlay;
    var once, again := RunAll(ws, g), RunAll(ws, RunAll(ws[..k], g));
    Sandwich(ws, k, |ws|, g);
    assert ws[..|ws|] == ws;
    forall n, p
      ensures Get(once, n, p) == Get(again, n, p)
    {
      RunProperty(ws, g, n, p);
      RunProperty(ws[..k], g, n, p);
      RunProperty(ws, RunAll(ws[..k], g), n, p);
      OverlayAbsorbs(ws, k, n, p, Get(g, n, p));
    }
    StaysNullFree(ws, g);
    StaysNullFree(ws[..k], g);
    StaysNullFree(ws, RunAll(ws[..k], g));
    SameGraph(once, again);
  }

  lemma {:induction false} StaysNullFree(ws: seq<Write>, g: Graph)
    requires NoNulls(g)
    ensures NoNulls(RunAll(ws, g))
  {
    RunProperty(ws, g, NodeKey(User, ""), PName);
  }

  /** A load is idempotent on every starting graph when its list is ordered. */
  lemma {:induction false} OrderedLoadsAreIdempotent(ws: seq<Write>, g: Graph)
    requires Ordered(ws, {}, {}) && NoNulls(g)
    ensures RunAll(ws, RunAll(ws, g)) == RunAll(ws, g)
  {
    assert ws[..|ws|] == ws;
    ResumeReachesSameGraph(ws, |ws|, g);
  }

  /** Every statement being a MERGE is not enough: an edge whose MATCH comes
      before the nodes is skipped the first time and lands the second time. */
  lemma {:induction false} MergesAloneAreNotIdempotent(a: NodeKey, b: NodeKey, kind: Kind, loader: Source)
    ensures var ws := [Write(MatchLink(a, b, kind), loader), Write(MergeSet(a, map[]), loader),
                       Write(MergeSet(b, map[]), loader)];
      && (forall w :: w in ws ==> Step(w.statement, Step(w.statement, EMPTY_GRAPH)) == Step(w.statement, EMPTY_GRAPH))
      && Edge(a, kind, b) !in RunAll(ws, EMPTY_GRAPH).edges
      && Edge(a, kind, b) in RunAll(ws, RunAll(ws, EMPTY_GRAPH)).edges
  {
    var w0, w1, w2 := Write(MatchLink(a, b, kind), loader), Write(MergeSet(a, map[]), loader),
      Write(MergeSet(b, map[]), loader);
    assert [w0, w1, w2][..2] == [w0, w1] && [w0, w1][..1] == [w0] && [w0][..0] == [];
    var once := RunAll([w0, w1, w2], EMPTY_GRAPH);
    assert RunAll([w0], EMPTY_GRAPH) == EMPTY_GRAPH;
    assert a in once.nodes && b in once.nodes;
    assert RunAll([w0], once).edges == once.edges + {Edge(a, kind, b)};
  }
}
