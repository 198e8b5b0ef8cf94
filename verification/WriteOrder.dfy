/** How lists of writes compose: which order of loading is safe, and which
    edges a load leaves behind. */
module WriteOrder {
  import opened Sequences
  import opened Graphs

  predicate NoPropertyMatch(ws: seq<Write>) {
    forall w :: w in ws ==> !w.statement.LinkWhere?
  }

  predicate FindsUpTo(w: Statement, present: set<NodeKey>, free: set<Label>) {
    forall x :: x in Needs(w) ==> x in present || x.tag in free
  }

  /** Every key-based MATCH finds its node, except perhaps for nodes of the
      labels in `free`. */
  predicate ClosedUpTo(ws: seq<Write>, before: set<NodeKey>, free: set<Label>) {
    forall i :: 0 <= i < |ws| ==> FindsUpTo(ws[i].statement, before + Secured(ws[..i]), free)
  }

  lemma {:induction false} SecuredBy(ws: seq<Write>, w: Write, n: NodeKey)
    requires w in ws && n in Secures(w.statement)
    ensures n in Secured(ws)
  {
  }

  lemma {:induction false} SecuredConcat(a: seq<Write>, b: seq<Write>)
    ensures Secured(a + b) == Secured(a) + Secured(b)
    ensures LabelsMade(a + b) == LabelsMade(a) + LabelsMade(b)
  {
    assert forall w :: w in a + b <==> w in a || w in b;
    forall l
      ensures l in LabelsMade(a + b) <==> l in LabelsMade(a) || l in LabelsMade(b)
    {
      if l in LabelsMade(a) {
        var w, n :| w in a && n in Creates(w.statement) && n.tag == l;
        assert w in a + b;
      }
      if l in LabelsMade(b) {
        var w, n :| w in b && n in Creates(w.statement) && n.tag == l;
        assert w in a + b;
      }
    }
  }

  lemma {:induction false} ClosedIsClosedUpTo(ws: seq<Write>, before: set<NodeKey>)
    ensures Closed(ws, before) <==> ClosedUpTo(ws, before, {})
  {
    forall i | 0 <= i < |ws|
      ensures FindsUpTo(ws[i].statement, before + Secured(ws[..i]), {})
        <==> Needs(ws[i].statement) <= before + Secured(ws[..i])
    {
    }
  }

  lemma {:induction false} ClosedConcat(a: seq<Write>, b: seq<Write>, before: set<NodeKey>, free: set<Label>)
    requires ClosedUpTo(a, before, free) && ClosedUpTo(b, before + Secured(a), free)
    ensures ClosedUpTo(a + b, before, free)
  {
    forall i | 0 <= i < |a + b|
      ensures FindsUpTo((a + b)[i].statement, before + Secured((a + b)[..i]), free)
    {
      if i < |a| {
        assert (a + b)[..i] == a[..i];
      } else {
        assert (a + b)[..i] == a + b[..i - |a|];
        SecuredConcat(a, b[..i - |a|]);
        assert (a + b)[i] == b[i - |a|];
      }
    }
  }

  lemma {:induction false} ClosedWiden(ws: seq<Write>, before: set<NodeKey>, more: set<NodeKey>, free: set<Label>,
                                       loose: set<Label>)
    requires ClosedUpTo(ws, before, free) && before <= more && free <= loose
    ensures ClosedUpTo(ws, more, loose)
  {
    forall i | 0 <= i < |ws|
      ensures FindsUpTo(ws[i].statement, more + Secured(ws[..i]), loose)
    {
      assert FindsUpTo(ws[i].statement, before + Secured(ws[..i]), free);
    }
  }

  lemma {:induction false} ClosedFlatMap<T(!new)>(f: T -> seq<Write>, xs: seq<T>, before: set<NodeKey>,
                                           free: set<Label>)
    requires forall x :: x in xs ==> ClosedUpTo(f(x), before, free)
    ensures ClosedUpTo(FlatMap(f, xs), before, free)
  {
    hide ClosedUpTo;
    if xs == [] {
      ClosedEmpty(before, free);
    } else {
      var front, last := xs[..|xs| - 1], xs[|xs| - 1];
      ClosedFlatMap(f, front, before, free);
      ClosedWiden(f(last), before, before + Secured(FlatMap(f, front)), free, free);
      ClosedConcat(FlatMap(f, front), f(last), before, free);
    }
  }

  lemma {:induction false} ClosedEmpty(before: set<NodeKey>, free: set<Label>)
    ensures ClosedUpTo([], before, free)
  {
  }

  /** Lists of statements that look nothing up but what is already there. */
  lemma {:induction false} ClosedPointwise(ws: seq<Write>, before: set<NodeKey>, free: set<Label>)
    requires forall w :: w in ws ==> forall x :: x in Needs(w.statement) ==> x in before || x.tag in free
    ensures ClosedUpTo(ws, before, free)
  {
    forall i | 0 <= i < |ws|
      ensures FindsUpTo(ws[i].statement, before + Secured(ws[..i]), free)
    {
      assert ws[i] in ws;
    }
  }

  /** A node, then statements that look up only it and what is already there. */
  lemma {:induction false} HeadedBlockClosed(head: Write, links: seq<Write>, before: set<NodeKey>, free: set<Label>)
    requires head.statement.MergeSet?
    requires forall w :: w in links ==>
               forall x :: x in Needs(w.statement) ==> x in before || x == head.statement.node || x.tag in free
    ensures ClosedUpTo([head] + links, before, free)
  {
    ClosedPointwise([head], before, free);
    SecuredBy([head], head, head.statement.node);
    ClosedPointwise(links, before + Secured([head]), free);
    ClosedConcat([head], links, before, free);
  }

  lemma {:induction false} ClosedIsOrdered(ws: seq<Write>, before: set<NodeKey>, free: set<Label>, later: set<Label>)
    requires ClosedUpTo(ws, before, free) && NoPropertyMatch(ws)
    requires free !! LabelsMade(ws) + later
    ensures Ordered(ws, before, later)
  {
    forall i | 0 <= i < |ws|
      ensures OrderedAt(ws[i].statement, before + Secured(ws[..i]), LabelsMade(ws[i..]) + later)
    {
      assert ws[i] in ws;
      assert forall w :: w in ws[i..] ==> w in ws;
      assert LabelsMade(ws[i..]) <= LabelsMade(ws);
      assert FindsUpTo(ws[i].statement, before + Secured(ws[..i]), free);
    }
  }

  lemma {:induction false} OrderedConcat(a: seq<Write>, b: seq<Write>, before: set<NodeKey>, later: set<Label>)
    requires Ordered(a, before, LabelsMade(b) + later)
    requires Ordered(b, before + Secured(a), later)
    ensures Ordered(a + b, before, later)
  {
    forall i | 0 <= i < |a + b|
      ensures OrderedAt((a + b)[i].statement, before + Secured((a + b)[..i]), LabelsMade((a + b)[i..]) + later)
    {
      if i < |a| {
        OrderedInFirst(a, b, before, later, i);
      } else {
        OrderedInSecond(a, b, before, later, i - |a|);
      }
    }
  }

  lemma {:induction false} OrderedInFirst(a: seq<Write>, b: seq<Write>, before: set<NodeKey>, later: set<Label>, i: nat)
    requires Ordered(a, before, LabelsMade(b) + later) && i < |a|
    ensures OrderedAt((a + b)[i].statement, before + Secured((a + b)[..i]), LabelsMade((a + b)[i..]) + later)
  {
    hide Secured, LabelsMade;
    assert (a + b)[..i] == a[..i] && (a + b)[i..] == a[i..] + b;
    SecuredConcat(a[i..], b);
    assert OrderedAt(a[i].statement, before + Secured(a[..i]), LabelsMade(a[i..]) + (LabelsMade(b) + later));
  }

  lemma {:induction false} OrderedInSecond(a: seq<Write>, b: seq<Write>, before: set<NodeKey>, later: set<Label>,
                                           j: nat)
    requires Ordered(b, before + Secured(a), later) && j < |b|
    ensures var i := |a| + j;
      OrderedAt((a + b)[i].statement, before + Secured((a + b)[..i]), LabelsMade((a + b)[i..]) + later)
  {
    hide Secured, LabelsMade;
    var i := |a| + j;
    assert (a + b)[..i] == a + b[..j] && (a + b)[i..] == b[j..];
    SecuredConcat(a, b[..j]);
    assert OrderedAt(b[j].statement, before + Secured(a) + Secured(b[..j]), LabelsMade(b[j..]) + later);
  }

  // ------------------------------------------------------- what a load leaves

  /** Every key-based MATCH of a closed list finds its node when it runs. */
  lemma {:induction false} ClosedMatchesFind(ws: seq<Write>, i: nat, g: Graph)
    requires Closed(ws, {}) && i < |ws|
    ensures Needs(ws[i].statement) <= RunAll(ws[..i], g).nodes.Keys
  {
    SecuredPresent(ws[..i], g);
  }

  /** The edges a statement stands for in the loaded graph. */
  function EdgesOf(w: Statement, final: Graph): set<Edge> {
    match w
    case MergeSet(_, _) => {}
    case LinkWhere(tag, p, v, target, kind) => set n | n in Rows(final, tag, p, v) :: Edge(n, kind, target)
    case _ => {LinkOf(w)}
  }

  function DeclaredEdges(ws: seq<Write>, final: Graph): set<Edge> {
    set w, e | w in ws && e in EdgesOf(w.statement, final) :: e
  }

  /** A property match late enough sees the rows of the loaded graph. */
  lemma {:induction false} RowsAreFinal(ws: seq<Write>, i: nat, g: Graph)
    requires Ordered(ws, {}, {}) && i < |ws| && ws[i].statement.LinkWhere? && NoNulls(g)
    ensures var w := ws[i].statement;
      Rows(RunAll(ws[..i], g), w.tag, w.property, w.value) == Rows(RunAll(ws, g), w.tag, w.property, w.value)
  {
    hide RunAll, Overlay, LabelsMade, Ordered;
    var w, now, final := ws[i].statement, RunAll(ws[..i], g), RunAll(ws, g);
    MatchAfterLastWrite(ws, i);
    forall n: NodeKey | n.tag == w.tag
      ensures Selected(now.nodes, n, w.tag, w.property, w.value)
        <==> Selected(final.nodes, n, w.tag, w.property, w.value)
    {
      SettledNode(ws, i, g, n);
      RunProperty(ws[..i], g, n, w.property);
      assert ws == ws[..i] + ws[i..];
      RunConcat(ws[..i], ws[i..], g);
      RunProperty(ws[i..], now, n, w.property);
      OverlayOfOthers(ws[i..], n, w.property, Get(now, n, w.property));
    }
  }

  lemma {:induction false} EdgesSoFar(ws: seq<Write>, i: nat, g: Graph)
    requires Ordered(ws, {}, {}) && Closed(ws, {}) && NoNulls(g) && i <= |ws|
    ensures RunAll(ws[..i], g).edges == g.edges + DeclaredEdges(ws[..i], RunAll(ws, g))
    decreases i
  {
    hide Rows, Ordered, Closed, RunAll, Secured;
    var final := RunAll(ws, g);
    if i == 0 {
      RunNone(ws, g);
      assert DeclaredEdges(ws[..0], final) == {};
    } else {
      EdgesSoFar(ws, i - 1, g);
      RunNext(ws, i - 1, g);
      ClosedMatchesFind(ws, i - 1, g);
      if ws[i - 1].statement.LinkWhere? {
        RowsAreFinal(ws, i - 1, g);
      }
      StepEdges(ws[i - 1].statement, RunAll(ws[..i - 1], g), final);
      DeclaredNext(ws, i - 1, final);
    }
  }

  lemma {:induction false} RunNone(ws: seq<Write>, g: Graph)
    ensures RunAll(ws[..0], g) == g
  {
  }

  lemma {:induction false} StepEdges(w: Statement, g: Graph, final: Graph)
    requires Needs(w) <= g.nodes.Keys
    requires w.LinkWhere? ==> Rows(g, w.tag, w.property, w.value) == Rows(final, w.tag, w.property, w.value)
    ensures Step(w, g).edges == g.edges + EdgesOf(w, final)
  {
    hide Rows, Assign;
  }

  lemma {:induction false} DeclaredNext(ws: seq<Write>, i: nat, final: Graph)
    requires i < |ws|
    ensures DeclaredEdges(ws[..i + 1], final) == DeclaredEdges(ws[..i], final) + EdgesOf(ws[i].statement, final)
  {
    hide EdgesOf;
    assert ws[..i + 1] == ws[..i] + [ws[i]];
  }

  /** No edge write of an ordered, closed list is silently skipped: the load
      adds exactly the edges its statements declare. */
  lemma {:induction false} LoadAddsDeclaredEdges(ws: seq<Write>, g: Graph)
    requires Ordered(ws, {}, {}) && Closed(ws, {}) && NoNulls(g)
    ensures RunAll(ws, g).edges == g.edges + DeclaredEdges(ws, RunAll(ws, g))
  {
    EdgesSoFar(ws, |ws|, g);
    assert ws[..|ws|] == ws;
  }

  // ------------------------------------------------------ edges, list by list

  lemma {:induction false} DeclaredConcat(a: seq<Write>, b: seq<Write>, final: Graph)
    ensures DeclaredEdges(a + b, final) == DeclaredEdges(a, final) + DeclaredEdges(b, final)
  {
    hide EdgesOf;
    assert forall w :: w in a + b <==> w in a || w in b;
  }

  lemma {:induction false} DeclaredFlatMap<T(!new)>(f: T -> seq<Write>, xs: seq<T>, final: Graph, x: Edge)
    ensures x in DeclaredEdges(FlatMap(f, xs), final) <==> exists y :: y in xs && x in DeclaredEdges(f(y), final)
  {
    hide EdgesOf, FlatMap;
    if x in DeclaredEdges(FlatMap(f, xs), final) {
      var w :| w in FlatMap(f, xs) && x in EdgesOf(w.statement, final);
      FlatMapIn(f, xs, w);
    }
    if y :| y in xs && x in DeclaredEdges(f(y), final) {
      var w :| w in f(y) && x in EdgesOf(w.statement, final);
      FlatMapIn(f, xs, w);
    }
  }

  lemma {:induction false} DeclaredMap<T(!new)>(f: T -> Write, xs: seq<T>, final: Graph, x: Edge)
    ensures x in DeclaredEdges(Map(f, xs), final) <==> exists y :: y in xs && x in EdgesOf(f(y).statement, final)
  {
    hide EdgesOf;
    var ws := Map(f, xs);
    if x in DeclaredEdges(ws, final) {
      var w :| w in ws && x in EdgesOf(w.statement, final);
      var i :| 0 <= i < |ws| && ws[i] == w;
      assert xs[i] in xs;
    }
    if y :| y in xs && x in EdgesOf(f(y).statement, final) {
      var i :| 0 <= i < |xs| && xs[i] == y;
      assert ws[i] in ws;
    }
  }

  lemma {:induction false} DeclaredNone(final: Graph)
    ensures DeclaredEdges([], final) == {}
  {
  }

  lemma {:induction false} DeclaredOne(w: Write, final: Graph)
    ensures DeclaredEdges([w], final) == EdgesOf(w.statement, final)
  {
    hide EdgesOf;
  }
}
