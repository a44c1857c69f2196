/** Sums, counts and filters over sequences, shared by the other modules. */
module Counting {

  function Sum<T>(xs: seq<T>, f: T -> nat): nat {
    if xs == [] then 0 else f(xs[0]) + Sum(xs[1..], f)
  }

  /** Replacing one element moves the sum by the difference of the two measures. */
  lemma {:induction false} SumUpdate<T>(xs: seq<T>, i: nat, x: T, f: T -> nat)
    requires i < |xs|
    ensures Sum(xs[i := x], f) + f(xs[i]) == Sum(xs, f) + f(x)
  {
    if i == 0 {
      assert xs[0 := x][1..] == xs[1..];
    } else {
      assert xs[i := x][1..] == xs[1..][i - 1 := x];
      SumUpdate(xs[1..], i - 1, x, f);
    }
  }

  lemma {:induction false} SumBounded<T>(xs: seq<T>, f: T -> nat)
    requires forall i :: 0 <= i < |xs| ==> f(xs[i]) <= 1
    ensures Sum(xs, f) <= |xs|
  {
    if xs != [] {
      SumBounded(xs[1..], f);
    }
  }

  lemma {:induction false} SumOfZeros<T>(xs: seq<T>, f: T -> nat)
    requires forall i :: 0 <= i < |xs| ==> f(xs[i]) == 0
    ensures Sum(xs, f) == 0
  {
    if xs != [] {
      SumOfZeros(xs[1..], f);
    }
  }

  lemma {:induction false} SumAppend<T>(xs: seq<T>, ys: seq<T>, f: T -> nat)
    ensures Sum(xs + ys, f) == Sum(xs, f) + Sum(ys, f)
  {
    if xs == [] {
      assert xs + ys == ys;
    } else {
      assert (xs + ys)[1..] == xs[1..] + ys;
      SumAppend(xs[1..], ys, f);
    }
  }

  lemma SumSnoc<T>(xs: seq<T>, x: T, f: T -> nat)
    ensures Sum(xs + [x], f) == Sum(xs, f) + f(x)
  {
    SumAppend(xs, [x], f);
    assert [x][1..] == [];
  }

  function Without<T>(xs: seq<T>, k: nat): seq<T>
    requires k < |xs|
  {
    xs[..k] + xs[k + 1..]
  }

  lemma SumWithout<T>(xs: seq<T>, k: nat, f: T -> nat)
    requires k < |xs|
    ensures Sum(xs, f) == f(xs[k]) + Sum(Without(xs, k), f)
  {
    assert xs == xs[..k] + xs[k..];
    assert xs[k..][1..] == xs[k + 1..];
    SumAppend(xs[..k], xs[k..], f);
    SumAppend(xs[..k], xs[k + 1..], f);
  }

  lemma MultisetWithout<T>(xs: seq<T>, k: nat)
    requires k < |xs|
    ensures multiset(xs) == multiset(Without(xs, k)) + multiset{xs[k]}
  {
    assert xs == (xs[..k] + [xs[k]]) + xs[k + 1..];
  }

  /** The sum does not depend on the order of the elements. */
  lemma {:induction false} SumPermutation<T>(xs: seq<T>, ys: seq<T>, f: T -> nat)
    requires multiset(xs) == multiset(ys)
    ensures Sum(xs, f) == Sum(ys, f)
    decreases xs
  {
    if xs == [] {
      assert |multiset(ys)| == 0;
    } else {
      assert xs[0] in multiset(ys);
      var k :| 0 <= k < |ys| && ys[k] == xs[0];
      MultisetWithout(xs, 0);
      MultisetWithout(ys, k);
      var x := xs[0];
      assert Without(xs, 0) == xs[1..];
      assert multiset(xs[1..]) == multiset(xs) - multiset{x};
      assert multiset(Without(ys, k)) == multiset(ys) - multiset{x};
      SumPermutation(xs[1..], Without(ys, k), f);
      SumWithout(ys, k, f);
    }
  }

  function Filter<T>(xs: seq<T>, p: T -> bool): seq<T> {
    if xs == [] then []
    else Filter(xs[..|xs| - 1], p) + if p(xs[|xs| - 1]) then [xs[|xs| - 1]] else []
  }

  lemma FilterSnoc<T>(xs: seq<T>, x: T, p: T -> bool)
    ensures Filter(xs + [x], p) == Filter(xs, p) + if p(x) then [x] else []
  {
    assert (xs + [x])[..|xs|] == xs;
  }

  lemma {:induction false} FilterAppend<T>(xs: seq<T>, ys: seq<T>, p: T -> bool)
    ensures Filter(xs + ys, p) == Filter(xs, p) + Filter(ys, p)
  {
    if ys == [] {
      assert xs + ys == xs;
    } else {
      var n := |ys| - 1;
      assert xs + ys == (xs + ys[..n]) + [ys[n]];
      FilterAppend(xs, ys[..n], p);
      FilterSnoc(xs + ys[..n], ys[n], p);
    }
  }

  lemma FilterHead<T>(xs: seq<T>, p: T -> bool)
    requires xs != []
    ensures Filter(xs, p) == (if p(xs[0]) then [xs[0]] else []) + Filter(xs[1..], p)
  {
    assert xs == [xs[0]] + xs[1..];
    FilterAppend([xs[0]], xs[1..], p);
    FilterSnoc([], xs[0], p);
    assert [] + [xs[0]] == [xs[0]];
  }

  function Flatten<T>(xss: seq<seq<T>>): seq<T> {
    if xss == [] then [] else Flatten(xss[..|xss| - 1]) + xss[|xss| - 1]
  }

  lemma FlattenSnoc<T>(xss: seq<seq<T>>, xs: seq<T>)
    ensures Flatten(xss + [xs]) == Flatten(xss) + xs
  {
    assert (xss + [xs])[..|xss|] == xss;
  }
}
