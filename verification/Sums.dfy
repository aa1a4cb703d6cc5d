/** Finite sums of integers over a set of addresses: what SQL's sum() computes over the rows of a group. */
module Sums {
  import opened Addresses

  function Sum(s: set<Addr>, f: Addr -> int): int {
    if s == {} then 0
    else
      var x := Least(s);
      f(x) + Sum(s - {x}, f)
  }

  /** The sum does not depend on the element taken out first. */
  lemma {:induction false} SumTakeOut(s: set<Addr>, f: Addr -> int, y: Addr)
    requires y in s
    ensures Sum(s, f) == f(y) + Sum(s - {y}, f)
    decreases |s|
  {
    var x := Least(s);
    if x != y {
      SumTakeOut(s - {x}, f, y);
      SumTakeOut(s - {y}, f, x);
      assert s - {x} - {y} == s - {y} - {x};
    }
  }

  lemma {:induction false} SumCongruent(s: set<Addr>, f: Addr -> int, g: Addr -> int)
    requires forall x :: x in s ==> f(x) == g(x)
    ensures Sum(s, f) == Sum(s, g)
    decreases |s|
  {
    if s != {} {
      var x :| x in s;
      SumTakeOut(s, f, x);
      SumTakeOut(s, g, x);
      SumCongruent(s - {x}, f, g);
    }
  }

  /** Keys that contribute nothing may be left out of the sum. */
  lemma {:induction false} SumSubset(s: set<Addr>, u: set<Addr>, f: Addr -> int)
    requires s <= u
    requires forall x :: x in u - s ==> f(x) == 0
    ensures Sum(s, f) == Sum(u, f)
    decreases |u - s|
  {
    if x :| x in u && x !in s {
      SumTakeOut(u, f, x);
      assert (u - {x}) - s == (u - s) - {x};
      SumSubset(s, u - {x}, f);
    } else {
      assert s == u;
    }
  }

  lemma Distribute(c: int, a: int, b: int)
    ensures c * (a + b) == c * a + c * b
  {
  }

  lemma {:induction false} SumBounds(s: set<Addr>, f: Addr -> int, w: Addr -> int, lo: int, hi: int)
    requires forall x :: x in s ==> w(x) >= 0
    requires forall x :: x in s ==> lo * w(x) <= f(x) <= hi * w(x)
    ensures Sum(s, w) >= 0
    ensures lo * Sum(s, w) <= Sum(s, f) <= hi * Sum(s, w)
    decreases |s|
  {
    if s != {} {
      var x :| x in s;
      SumTakeOut(s, f, x);
      SumTakeOut(s, w, x);
      SumBounds(s - {x}, f, w, lo, hi);
      Distribute(lo, w(x), Sum(s - {x}, w));
      Distribute(hi, w(x), Sum(s - {x}, w));
    }
  }

  /** Dominated term by term, a sum is as large only if every term is. */
  lemma {:induction false} SumDominated(s: set<Addr>, f: Addr -> int, g: Addr -> int)
    requires forall x :: x in s ==> f(x) <= g(x)
    ensures Sum(s, f) <= Sum(s, g)
    ensures Sum(s, f) == Sum(s, g) <==> forall x :: x in s ==> f(x) == g(x)
    decreases |s|
  {
    if s != {} {
      var x :| x in s;
      SumTakeOut(s, f, x);
      SumTakeOut(s, g, x);
      SumDominated(s - {x}, f, g);
    }
  }

  /** Two sums that differ in one term. */
  lemma SumChanged(s: set<Addr>, u: set<Addr>, f: Addr -> int, g: Addr -> int, x: Addr)
    requires u == s + {x} && (x !in s ==> f(x) == 0)
    requires forall y :: y in s && y != x ==> f(y) == g(y)
    ensures Sum(u, g) == Sum(s, f) - f(x) + g(x)
  {
    SumTakeOut(u, g, x);
    assert u - {x} == s - {x};
    SumCongruent(s - {x}, f, g);
    if x in s { SumTakeOut(s, f, x); } else { assert s - {x} == s; }
  }

  /** A weighted shift of every term. */
  lemma {:induction false} SumShifted(s: set<Addr>, f: Addr -> int, g: Addr -> int, w: Addr -> int, c: int)
    requires forall x :: x in s ==> g(x) == f(x) + c * w(x)
    ensures Sum(s, g) == Sum(s, f) + c * Sum(s, w)
    decreases |s|
  {
    if s != {} {
      var x :| x in s;
      SumTakeOut(s, f, x);
      SumTakeOut(s, g, x);
      SumTakeOut(s, w, x);
      SumShifted(s - {x}, f, g, w, c);
      Distribute(c, w(x), Sum(s - {x}, w));
    }
  }

  /** Terms bounded by a ratio c / d have a sum bounded by it. */
  lemma {:induction false} SumRatio(s: set<Addr>, f: Addr -> int, w: Addr -> int, d: int, c: int)
    requires forall x :: x in s ==> d * f(x) <= c * w(x)
    ensures d * Sum(s, f) <= c * Sum(s, w)
    decreases |s|
  {
    if s != {} {
      var x :| x in s;
      SumTakeOut(s, f, x);
      SumTakeOut(s, w, x);
      SumRatio(s - {x}, f, w, d, c);
      Distribute(d, f(x), Sum(s - {x}, f));
      Distribute(c, w(x), Sum(s - {x}, w));
    }
  }

  lemma {:induction false} SumZero(s: set<Addr>)
    ensures Sum(s, x => 0) == 0
    decreases |s|
  {
    if s != {} {
      SumZero(s - {Least(s)});
    }
  }

  /** A sum of non-negative terms is at least each of them. */
  lemma {:induction false} SumAtLeast(s: set<Addr>, w: Addr -> int, x: Addr)
    requires x in s && forall y :: y in s ==> w(y) >= 0
    ensures Sum(s, w) >= w(x)
  {
    SumTakeOut(s, w, x);
    SumBounds(s - {x}, w, w, 0, 1);
  }

  /** The sum over a list. */
  function SumOver<T>(xs: seq<T>, f: T -> int): int {
    if xs == [] then 0 else SumOver(xs[..|xs| - 1], f) + f(xs[|xs| - 1])
  }

  lemma {:induction false} SumAppend<T>(xs: seq<T>, ys: seq<T>, f: T -> int)
    ensures SumOver(xs + ys, f) == SumOver(xs, f) + SumOver(ys, f)
  {
    if ys == [] {
      assert xs + ys == xs;
    } else {
      SumAppend(xs, ys[..|ys| - 1], f);
      assert (xs + ys)[..|xs| + |ys| - 1] == xs + ys[..|ys| - 1];
    }
  }

  lemma Parted<T>(xs: seq<T>, i: nat)
    requires i < |xs|
    ensures multiset(xs[..i] + xs[i + 1..]) == multiset(xs) - multiset{xs[i]}
  {
    assert xs == xs[..i] + [xs[i]] + xs[i + 1..];
  }

  lemma SumSnoc<T>(xs: seq<T>, x: T, f: T -> int)
    ensures SumOver(xs + [x], f) == SumOver(xs, f) + f(x)
  {
    assert (xs + [x])[..|xs|] == xs;
  }

  /** The sum does not depend on the entry taken out first. */
  lemma SumWithout<T>(xs: seq<T>, i: nat, f: T -> int)
    requires i < |xs|
    ensures SumOver(xs, f) == SumOver(xs[..i] + xs[i + 1..], f) + f(xs[i])
  {
    hide SumOver;
    var left, right := xs[..i], xs[i + 1..];
    assert xs == (left + [xs[i]]) + right;
    SumAppend(left + [xs[i]], right, f);
    SumSnoc(left, xs[i], f);
    SumAppend(left, right, f);
  }

  lemma {:induction false} SumPermuted<T>(xs: seq<T>, ys: seq<T>, f: T -> int)
    requires multiset(xs) == multiset(ys)
    ensures SumOver(xs, f) == SumOver(ys, f)
  {
    assert |xs| == |multiset(xs)| == |multiset(ys)| == |ys|;
    if xs != [] {
      var n := |xs| - 1;
      assert xs[n] in multiset(ys);
      var i :| 0 <= i < |ys| && ys[i] == xs[n];
      Parted(xs, n);
      Parted(ys, i);
      SumWithout(ys, i, f);
      assert xs[..n] + xs[n + 1..] == xs[..n];
      SumPermuted(xs[..n], ys[..i] + ys[i + 1..], f);
    }
  }

  function Get(m: map<Addr, int>, k: Addr): int {
    if k in m then m[k] else 0
  }

  /** The sum of all values of a map. */
  function Total(m: map<Addr, int>): int {
    Sum(m.Keys, k => Get(m, k))
  }

  lemma TotalUpdate(m: map<Addr, int>, k: Addr, v: int)
    ensures Total(m[k := v]) == Total(m) - Get(m, k) + v
  {
    var n := m[k := v];
    var f := x => Get(m, x);
    var g := x => Get(n, x);
    SumTakeOut(n.Keys, g, k);
    assert n.Keys - {k} == m.Keys - {k};
    SumCongruent(m.Keys - {k}, f, g);
    if k in m {
      SumTakeOut(m.Keys, f, k);
    } else {
      assert m.Keys - {k} == m.Keys;
    }
  }
}
