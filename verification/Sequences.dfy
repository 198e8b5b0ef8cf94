/** Comprehensions over lists and Python's `sorted`: a stable sort by an order
    on the elements. Everything recurses on the last element, so that a loop
    that appends can be proved against it one step at a time. */
module Sequences {

  /** `[f(x) for x in xs]` */
  function Map<T, U>(f: T -> U, xs: seq<T>): (ys: seq<U>)
    ensures |ys| == |xs|
    ensures forall i :: 0 <= i < |xs| ==> ys[i] == f(xs[i])
  {
    seq(|xs|, i requires 0 <= i < |xs| => f(xs[i]))
  }

  /** `[x for x in xs if p(x)]` */
  function Filter<T>(p: T -> bool, xs: seq<T>): (ys: seq<T>)
    ensures |ys| <= |xs|
  {
    if xs == [] then []
    else if p(xs[|xs| - 1]) then Filter(p, xs[..|xs| - 1]) + [xs[|xs| - 1]]
    else Filter(p, xs[..|xs| - 1])
  }

  /** `[y for x in xs for y in f(x)]` */
  function FlatMap<T, U>(f: T -> seq<U>, xs: seq<T>): seq<U> {
    if xs == [] then [] else FlatMap(f, xs[..|xs| - 1]) + f(xs[|xs| - 1])
  }

  lemma {:induction false} FlatMapIn<T(!new), U(!new)>(f: T -> seq<U>, xs: seq<T>, y: U)
    ensures y in FlatMap(f, xs) <==> exists x :: x in xs && y in f(x)
  {
    if xs != [] {
      var front, last := xs[..|xs| - 1], xs[|xs| - 1];
      assert xs == front + [last];
      FlatMapIn(f, front, y);
    }
  }

  lemma {:induction false} FilterSnoc<T(!new)>(p: T -> bool, front: seq<T>, last: T)
    ensures Filter(p, front + [last]) == if p(last) then Filter(p, front) + [last] else Filter(p, front)
  {
    assert (front + [last])[..|front|] == front;
  }

  lemma {:induction false} FilterIn<T(!new)>(p: T -> bool, xs: seq<T>)
    ensures forall y :: y in Filter(p, xs) <==> y in xs && p(y)
  {
    if xs != [] {
      var front, last := xs[..|xs| - 1], xs[|xs| - 1];
      assert xs == front + [last];
      FilterIn(p, front);
    }
  }

  lemma {:induction false} FilterConcat<T(!new)>(p: T -> bool, xs: seq<T>, ys: seq<T>)
    ensures Filter(p, xs + ys) == Filter(p, xs) + Filter(p, ys)
  {
    if ys == [] {
      assert xs + ys == xs;
    } else {
      var front, last := ys[..|ys| - 1], ys[|ys| - 1];
      assert (xs + ys)[..|xs + ys| - 1] == xs + front;
      FilterConcat(p, xs, front);
    }
  }

  lemma {:induction false} FlatMapConcat<T(!new), U(!new)>(f: T -> seq<U>, xs: seq<T>, ys: seq<T>)
    ensures FlatMap(f, xs + ys) == FlatMap(f, xs) + FlatMap(f, ys)
  {
    if ys == [] {
      assert xs + ys == xs;
    } else {
      var front, last := ys[..|ys| - 1], ys[|ys| - 1];
      assert (xs + ys)[..|xs + ys| - 1] == xs + front;
      FlatMapConcat(f, xs, front);
    }
  }

  /** Only how often an element occurs decides how often the filter keeps it. */
  lemma {:induction false} FilterCount<T(!new)>(p: T -> bool, xs: seq<T>, e: T)
    ensures multiset(Filter(p, xs))[e] == if p(e) then multiset(xs)[e] else 0
  {
    if xs != [] {
      assert xs == xs[..|xs| - 1] + [xs[|xs| - 1]];
      FilterCount(p, xs[..|xs| - 1], e);
    }
  }

  lemma {:induction false} FilterPermutation<T(!new)>(p: T -> bool, xs: seq<T>, ys: seq<T>)
    requires multiset(xs) == multiset(ys)
    ensures multiset(Filter(p, xs)) == multiset(Filter(p, ys))
    ensures |Filter(p, xs)| == |Filter(p, ys)|
  {
    forall e
      ensures multiset(Filter(p, xs))[e] == multiset(Filter(p, ys))[e]
    {
      FilterCount(p, xs, e);
      FilterCount(p, ys, e);
    }
    assert multiset(Filter(p, xs)) == multiset(Filter(p, ys));
    assert |Filter(p, xs)| == |multiset(Filter(p, xs))|;
  }

  lemma {:induction false} FilterFilter<T(!new)>(p: T -> bool, q: T -> bool, r: T -> bool, xs: seq<T>)
    requires forall x :: x in xs ==> (r(x) <==> p(x) && q(x))
    ensures Filter(q, Filter(p, xs)) == Filter(r, xs)
  {
    if xs != [] {
      var front, last := xs[..|xs| - 1], xs[|xs| - 1];
      assert xs == front + [last];
      FilterFilter(p, q, r, front);
      if p(last) {
        FilterConcat(q, Filter(p, front), [last]);
        assert [last][..0] == [];
      }
    }
  }

  lemma {:induction false} FilterSame<T(!new)>(p: T -> bool, q: T -> bool, xs: seq<T>)
    requires forall x :: x in xs ==> (p(x) <==> q(x))
    ensures Filter(p, xs) == Filter(q, xs)
  {
    if xs != [] {
      var front, last := xs[..|xs| - 1], xs[|xs| - 1];
      assert xs == front + [last];
      FilterSame(p, q, front);
    }
  }

  // ---------------------------------------------------------------- sorting

  ghost predicate TotalPreorder<T(!new)>(le: (T, T) -> bool) {
    && (forall x, y :: le(x, y) || le(y, x))
    && (forall x, y, z :: le(x, y) && le(y, z) ==> le(x, z))
  }

  ghost predicate Antisymmetric<T(!new)>(le: (T, T) -> bool) {
    forall x, y :: le(x, y) && le(y, x) ==> x == y
  }

  ghost predicate Sorted<T>(le: (T, T) -> bool, xs: seq<T>) {
    forall i, j :: 0 <= i < j < |xs| ==> le(xs[i], xs[j])
  }

  /** Elements the order does not tell apart from `c`. */
  function Ties<T>(le: (T, T) -> bool, c: T): T -> bool {
    (x: T) => le(x, c) && le(c, x)
  }

  /** Put `x` behind every element that may stand before it. */
  function InsertLast<T>(le: (T, T) -> bool, xs: seq<T>, x: T): (ys: seq<T>)
    ensures |ys| == |xs| + 1
  {
    if xs == [] || le(xs[|xs| - 1], x) then xs + [x]
    else InsertLast(le, xs[..|xs| - 1], x) + [xs[|xs| - 1]]
  }

  /** `sorted(xs)`; `StableSortUnique` below shows there is no other stable sort. */
  function Sort<T>(le: (T, T) -> bool, xs: seq<T>): (ys: seq<T>)
    ensures |ys| == |xs|
  {
    if xs == [] then [] else InsertLast(le, Sort(le, xs[..|xs| - 1]), xs[|xs| - 1])
  }

  lemma {:induction false} InsertLastElements<T(!new)>(le: (T, T) -> bool, xs: seq<T>, x: T)
    ensures multiset(InsertLast(le, xs, x)) == multiset(xs) + multiset{x}
  {
    if xs == [] || le(xs[|xs| - 1], x) {
    } else {
      assert xs == xs[..|xs| - 1] + [xs[|xs| - 1]];
      InsertLastElements(le, xs[..|xs| - 1], x);
    }
  }

  lemma {:induction false} InsertLastSorts<T(!new)>(le: (T, T) -> bool, xs: seq<T>, x: T)
    requires TotalPreorder(le) && Sorted(le, xs)
    ensures Sorted(le, InsertLast(le, xs, x))
    ensures multiset(InsertLast(le, xs, x)) == multiset(xs) + multiset{x}
  {
    InsertLastElements(le, xs, x);
    if xs != [] && !le(xs[|xs| - 1], x) {
      var front, last := xs[..|xs| - 1], xs[|xs| - 1];
      InsertLastSorts(le, front, x);
      var inner := InsertLast(le, front, x);
      forall i | 0 <= i < |inner|
        ensures le(inner[i], last)
      {
        assert inner[i] in multiset(inner);
        assert inner[i] == x || inner[i] in front;
      }
    }
  }

  lemma {:induction false} SortSorts<T(!new)>(le: (T, T) -> bool, xs: seq<T>)
    requires TotalPreorder(le)
    ensures Sorted(le, Sort(le, xs))
    ensures multiset(Sort(le, xs)) == multiset(xs)
    ensures forall x :: x in Sort(le, xs) <==> x in xs
  {
    if xs != [] {
      var front, last := xs[..|xs| - 1], xs[|xs| - 1];
      assert xs == front + [last];
      SortSorts(le, front);
      InsertLastSorts(le, Sort(le, front), last);
    }
    assert forall x :: x in Sort(le, xs) <==> x in multiset(Sort(le, xs));
    assert forall x :: x in xs <==> x in multiset(xs);
  }

  lemma {:induction false} FilterKeepsSorted<T(!new)>(le: (T, T) -> bool, p: T -> bool, xs: seq<T>)
    requires Sorted(le, xs)
    ensures Sorted(le, Filter(p, xs))
  {
    if xs != [] {
      var front, last := xs[..|xs| - 1], xs[|xs| - 1];
      assert xs == front + [last];
      FilterKeepsSorted(le, p, front);
      FilterIn(p, front);
      forall i | 0 <= i < |Filter(p, front)|
        ensures le(Filter(p, front)[i], last)
      {
        assert Filter(p, front)[i] in Filter(p, front);
        var j :| 0 <= j < |front| && front[j] == Filter(p, front)[i];
        assert xs[j] == front[j];
      }
    }
  }

  lemma {:induction false} FilterInsertLast<T(!new)>(le: (T, T) -> bool, p: T -> bool, xs: seq<T>, x: T)
    requires TotalPreorder(le) && Sorted(le, xs)
    ensures Filter(p, InsertLast(le, xs, x))
            == if p(x) then InsertLast(le, Filter(p, xs), x) else Filter(p, xs)
  {
    if xs == [] || le(xs[|xs| - 1], x) {
      FilterConcat(p, xs, [x]);
      assert [x][..0] == [];
      var kept := Filter(p, xs);
      if kept != [] {
        FilterIn(p, xs);
        var k := kept[|kept| - 1];
        assert k in kept;
        var i :| 0 <= i < |xs| && xs[i] == k;
        assert le(k, xs[|xs| - 1]);
        assert le(k, x);
      }
    } else {
      var front, last := xs[..|xs| - 1], xs[|xs| - 1];
      assert xs == front + [last];
      FilterInsertLast(le, p, front, x);
      var inner := InsertLast(le, front, x);
      assert (inner + [last])[..|inner|] == inner;
      var kept := Filter(p, front);
      if p(last) {
        assert Filter(p, xs) == kept + [last];
        assert (kept + [last])[..|kept|] == kept;
      }
    }
  }

  /** Filtering and the stable sort commute, ties included. */
  lemma {:induction false} FilterSort<T(!new)>(le: (T, T) -> bool, p: T -> bool, xs: seq<T>)
    requires TotalPreorder(le)
    ensures Filter(p, Sort(le, xs)) == Sort(le, Filter(p, xs))
  {
    if xs != [] {
      var front, last := xs[..|xs| - 1], xs[|xs| - 1];
      assert xs == front + [last];
      FilterSort(le, p, front);
      SortSorts(le, front);
      FilterInsertLast(le, p, Sort(le, front), last);
      if p(last) {
        assert Filter(p, xs)[..|Filter(p, front)|] == Filter(p, front);
      }
    }
  }

  /** Elements that tie are left in the order they came in. */
  lemma {:induction false} SortOfTies<T(!new)>(le: (T, T) -> bool, xs: seq<T>)
    requires forall x, y :: x in xs && y in xs ==> le(x, y)
    ensures Sort(le, xs) == xs
  {
    if xs != [] {
      assert xs == xs[..|xs| - 1] + [xs[|xs| - 1]];
      SortOfTies(le, xs[..|xs| - 1]);
    }
  }

  /** A list already in order is left alone. */
  lemma {:induction false} SortOfSorted<T(!new)>(le: (T, T) -> bool, xs: seq<T>)
    requires Sorted(le, xs)
    ensures Sort(le, xs) == xs
  {
    if xs != [] {
      assert xs == xs[..|xs| - 1] + [xs[|xs| - 1]];
      SortOfSorted(le, xs[..|xs| - 1]);
    }
  }

  /** The sort keeps the ingestion order inside every class of ties. */
  lemma {:induction false} SortStable<T(!new)>(le: (T, T) -> bool, xs: seq<T>, c: T)
    requires TotalPreorder(le)
    ensures Filter(Ties(le, c), Sort(le, xs)) == Filter(Ties(le, c), xs)
  {
    FilterSort(le, Ties(le, c), xs);
    FilterIn(Ties(le, c), xs);
    SortOfTies(le, Filter(Ties(le, c), xs));
  }

  lemma {:induction false} LastIsGreatest<T(!new)>(le: (T, T) -> bool, xs: seq<T>, x: T)
    requires TotalPreorder(le) && Sorted(le, xs) && x in xs
    ensures le(x, xs[|xs| - 1])
  {
    var i :| 0 <= i < |xs| && xs[i] == x;
    assert le(x, x);
  }

  lemma {:induction false} SameLast<T(!new)>(le: (T, T) -> bool, xs: seq<T>, ys: seq<T>)
    requires TotalPreorder(le) && Sorted(le, xs) && Sorted(le, ys)
    requires xs != [] && ys != []
    requires forall c :: Filter(Ties(le, c), xs) == Filter(Ties(le, c), ys)
    ensures xs[|xs| - 1] == ys[|ys| - 1]
  {
    var a, b := xs[|xs| - 1], ys[|ys| - 1];
    assert a in ys by {
      FilterIn(Ties(le, a), xs);
      FilterIn(Ties(le, a), ys);
    }
    assert b in xs by {
      FilterIn(Ties(le, b), xs);
      FilterIn(Ties(le, b), ys);
    }
    LastIsGreatest(le, xs, b);
    LastIsGreatest(le, ys, a);
    var kept := Filter(Ties(le, a), xs);
    assert kept[|kept| - 1] == a;
    assert Filter(Ties(le, a), ys)[|kept| - 1] == b;
  }

  lemma {:induction false} OwnClass<T(!new)>(le: (T, T) -> bool, xs: seq<T>, c: T)
    requires TotalPreorder(le) && c in xs
    ensures Filter(Ties(le, c), xs) != []
  {
    FilterIn(Ties(le, c), xs);
    assert Ties(le, c)(c);
  }

  lemma {:induction false} ClassesEmpty<T(!new)>(le: (T, T) -> bool, xs: seq<T>)
    requires TotalPreorder(le)
    requires forall c :: Filter(Ties(le, c), []) == Filter(Ties(le, c), xs)
    ensures xs == []
  {
    if xs != [] {
      OwnClass(le, xs, xs[0]);
    }
  }

  /** Two sorted lists that agree on every class of ties are the same list. */
  lemma {:induction false} SortedAgree<T(!new)>(le: (T, T) -> bool, xs: seq<T>, ys: seq<T>)
    requires TotalPreorder(le) && Sorted(le, xs) && Sorted(le, ys)
    requires forall c :: Filter(Ties(le, c), xs) == Filter(Ties(le, c), ys)
    ensures xs == ys
  {
    if xs == [] {
      ClassesEmpty(le, ys);
    } else if ys == [] {
      ClassesEmpty(le, xs);
    } else {
      SameLast(le, xs, ys);
      var last, front, rear := xs[|xs| - 1], xs[..|xs| - 1], ys[..|ys| - 1];
      assert xs == front + [last] && ys == rear + [last];
      forall c
        ensures Filter(Ties(le, c), front) == Filter(Ties(le, c), rear)
      {
        FrontsAgree(Ties(le, c), front, rear, last);
      }
      SortedAgree(le, front, rear);
    }
  }

  lemma {:induction false} FrontsAgree<T(!new)>(p: T -> bool, front: seq<T>, rear: seq<T>, last: T)
    requires Filter(p, front + [last]) == Filter(p, rear + [last])
    ensures Filter(p, front) == Filter(p, rear)
  {
    FilterSnoc(p, front, last);
    FilterSnoc(p, rear, last);
    var f, r := Filter(p, front), Filter(p, rear);
    assert f == (f + [last])[..|f|] && r == (r + [last])[..|r|];
  }

  /** Being sorted and stable pins the result: `Sort` is the only such function. */
  lemma {:induction false} StableSortUnique<T(!new)>(le: (T, T) -> bool, xs: seq<T>, ys: seq<T>)
    requires TotalPreorder(le)
    requires Sorted(le, ys)
    requires forall c :: Filter(Ties(le, c), ys) == Filter(Ties(le, c), xs)
    ensures ys == Sort(le, xs)
  {
    SortSorts(le, xs);
    forall c {
      SortStable(le, xs, c);
    }
    SortedAgree(le, ys, Sort(le, xs));
  }

  /** Under an order without ties, the input order is forgotten. */
  lemma {:induction false} SortForgetsOrder<T(!new)>(le: (T, T) -> bool, xs: seq<T>, ys: seq<T>)
    requires TotalPreorder(le) && Antisymmetric(le)
    requires multiset(xs) == multiset(ys)
    ensures Sort(le, xs) == Sort(le, ys)
  {
    hide Sort, Filter;
    SortSorts(le, ys);
    forall c
      ensures Filter(Ties(le, c), Sort(le, ys)) == Filter(Ties(le, c), xs)
    {
      TiesRepeat(le, Sort(le, ys), xs, c);
    }
    StableSortUnique(le, xs, Sort(le, ys));
  }

  lemma {:induction false} TiesRepeat<T(!new)>(le: (T, T) -> bool, xs: seq<T>, ys: seq<T>, c: T)
    requires Antisymmetric(le) && multiset(xs) == multiset(ys)
    ensures Filter(Ties(le, c), xs) == Filter(Ties(le, c), ys)
  {
    FilterPermutation(Ties(le, c), xs, ys);
    AllTied(le, xs, c);
    AllTied(le, ys, c);
  }

  lemma {:induction false} AllTied<T(!new)>(le: (T, T) -> bool, xs: seq<T>, c: T)
    requires Antisymmetric(le)
    ensures forall i :: 0 <= i < |Filter(Ties(le, c), xs)| ==> Filter(Ties(le, c), xs)[i] == c
  {
    var kept := Filter(Ties(le, c), xs);
    FilterIn(Ties(le, c), xs);
    forall i | 0 <= i < |kept|
      ensures kept[i] == c
    {
      assert kept[i] in kept;
    }
  }
}
