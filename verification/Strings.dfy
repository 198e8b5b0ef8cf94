/** Python's order on strings, by code point, and `sorted` over a set of them. */
module Strings {
  import opened Sequences

  /** `a <= b` */
  predicate Leq(a: string, b: string) {
    a == [] || (b != [] && (a[0] < b[0] || (a[0] == b[0] && Leq(a[1..], b[1..]))))
  }

  lemma {:induction false} LeqTotal(a: string, b: string)
    ensures Leq(a, b) || Leq(b, a)
  {
    if a != [] && b != [] && a[0] == b[0] {
      LeqTotal(a[1..], b[1..]);
    }
  }

  lemma {:induction false} LeqTransitive(a: string, b: string, c: string)
    requires Leq(a, b) && Leq(b, c)
    ensures Leq(a, c)
  {
    if a != [] && a[0] == b[0] == c[0] {
      LeqTransitive(a[1..], b[1..], c[1..]);
    }
  }

  lemma {:induction false} LeqAntisymmetric(a: string, b: string)
    requires Leq(a, b) && Leq(b, a)
    ensures a == b
  {
    if a != [] {
      LeqAntisymmetric(a[1..], b[1..]);
      assert a == [a[0]] + a[1..] && b == [b[0]] + b[1..];
    }
  }

  /** The first character that differs decides. */
  lemma {:induction false} LeqSamePrefix(p: string, a: string, b: string)
    ensures Leq(p + a, p + b) <==> Leq(a, b)
  {
    if p == [] {
      assert p + a == a && p + b == b;
    } else {
      assert (p + a)[1..] == p[1..] + a && (p + b)[1..] == p[1..] + b;
      LeqSamePrefix(p[1..], a, b);
    }
  }

  /** `a` and `b` first differ at `i`. */
  ghost predicate FirstDifferAt(a: string, b: string, i: nat) {
    i < |a| && i < |b| && a[..i] == b[..i] && a[i] != b[i]
  }

  /** `a` sorts before `b` exactly when it starts it, or has the smaller character where
      the two first differ. */
  lemma {:induction false} LeqIff(a: string, b: string)
    ensures Leq(a, b) <==> a <= b || exists i: nat :: FirstDifferAt(a, b, i) && a[i] < b[i]
  {
    if a != [] && b != [] && a[0] == b[0] {
      LeqIff(a[1..], b[1..]);
      assert a == [a[0]] + a[1..] && b == [b[0]] + b[1..];
      assert a <= b <==> a[1..] <= b[1..];
      forall i: nat
        ensures FirstDifferAt(a, b, i + 1) <==> FirstDifferAt(a[1..], b[1..], i)
      {
        if i + 1 <= |a| && i + 1 <= |b| {
          assert a[..i + 1] == [a[0]] + a[1..][..i] && b[..i + 1] == [b[0]] + b[1..][..i];
        }
      }
      if i: nat :| FirstDifferAt(a[1..], b[1..], i) && a[1..][i] < b[1..][i] {
        assert FirstDifferAt(a, b, i + 1);
      }
      if i: nat :| FirstDifferAt(a, b, i) && a[i] < b[i] {
        assert FirstDifferAt(a[1..], b[1..], i - 1);
      }
    } else if a != [] && b != [] {
      assert FirstDifferAt(a, b, 0);
      assert forall i: nat :: FirstDifferAt(a, b, i) ==> i == 0 || a[..i][0] == b[..i][0];
    }
  }

  function Order(): (string, string) -> bool {
    (a: string, b: string) => Leq(a, b)
  }

  lemma {:induction false} OrderIsTotal()
    ensures TotalPreorder(Order()) && Antisymmetric(Order())
  {
    forall a, b
      ensures Order()(a, b) || Order()(b, a)
    {
      LeqTotal(a, b);
    }
    forall a, b, c | Order()(a, b) && Order()(b, c)
      ensures Order()(a, c)
    {
      LeqTransitive(a, b, c);
    }
    forall a, b | Order()(a, b) && Order()(b, a)
      ensures a == b
    {
      LeqAntisymmetric(a, b);
    }
  }

  predicate IsLeast(keys: set<string>, k: string) {
    k in keys && forall x :: x in keys ==> Leq(k, x)
  }

  lemma {:induction false} LeastExists(keys: set<string>)
    requires keys != {}
    ensures exists k :: IsLeast(keys, k)
    decreases |keys|
  {
    var k :| k in keys;
    LeqTotal(k, k);
    if keys - {k} == {} {
      assert keys == {k};
      assert IsLeast(keys, k);
    } else {
      LeastExists(keys - {k});
      var m :| IsLeast(keys - {k}, m);
      LeqTotal(k, m);
      if Leq(m, k) {
        assert IsLeast(keys, m);
      } else {
        forall x | x in keys
          ensures Leq(k, x)
        {
          if x != k {
            LeqTransitive(k, m, x);
          }
        }
        assert IsLeast(keys, k);
      }
    }
  }

  lemma {:induction false} LeastUnique(keys: set<string>)
    ensures forall a, b :: IsLeast(keys, a) && IsLeast(keys, b) ==> a == b
  {
    forall a, b | IsLeast(keys, a) && IsLeast(keys, b)
      ensures a == b
    {
      LeqAntisymmetric(a, b);
    }
  }

  function Least(keys: set<string>): (k: string)
    requires keys != {}
    ensures IsLeast(keys, k)
  {
    LeastExists(keys);
    LeastUnique(keys);
    var k :| k in keys && IsLeast(keys, k);
    k
  }

  ghost predicate StrictlyAscending(xs: seq<string>) {
    forall i, j :: 0 <= i < j < |xs| ==> Leq(xs[i], xs[j]) && xs[i] != xs[j]
  }

  /** `sorted(keys)` for a set or the keys of a dict. */
  function SortedKeys(keys: set<string>): (ks: seq<string>)
    ensures StrictlyAscending(ks)
    ensures forall k :: k in ks <==> k in keys
    decreases |keys|
  {
    if keys == {} then []
    else
      var k := Least(keys);
      var rest := SortedKeys(keys - {k});
      assert forall i :: 0 <= i < |rest| ==> rest[i] in keys - {k};
      [k] + rest
  }

  lemma {:induction false} HasElement(xs: seq<string>)
    requires xs != []
    ensures exists x :: x in xs
  {
    assert xs[0] in xs;
  }

  /** Strictly ascending lists of the same strings are the same list. */
  lemma {:induction false} AscendingUnique(xs: seq<string>, ys: seq<string>)
    requires StrictlyAscending(xs) && StrictlyAscending(ys)
    requires forall k :: k in xs <==> k in ys
    ensures xs == ys
  {
    if xs == [] || ys == [] {
      if xs != [] {
        HasElement(xs);
      } else if ys != [] {
        HasElement(ys);
      }
    } else {
      SameHead(xs, ys);
      var x := xs[0];
      assert xs == [x] + xs[1..] && ys == [x] + ys[1..];
      forall k
        ensures k in xs[1..] <==> k in ys[1..]
      {
        assert k in xs[1..] ==> k in xs && k != x;
        assert k in ys[1..] ==> k in ys && k != x;
        assert k in xs && k != x ==> k in xs[1..];
        assert k in ys && k != x ==> k in ys[1..];
      }
      AscendingUnique(xs[1..], ys[1..]);
    }
  }

  lemma {:induction false} SameHead(xs: seq<string>, ys: seq<string>)
    requires StrictlyAscending(xs) && StrictlyAscending(ys)
    requires xs != [] && ys != []
    requires forall k :: k in xs <==> k in ys
    ensures xs[0] == ys[0]
  {
    assert xs[0] in ys && ys[0] in xs;
    var i :| 0 <= i < |ys| && ys[i] == xs[0];
    var j :| 0 <= j < |xs| && xs[j] == ys[0];
    if i != 0 && j != 0 {
      LeqAntisymmetric(xs[0], ys[0]);
    }
  }
}
