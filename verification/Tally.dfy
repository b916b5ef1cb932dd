/** Sums of a weight over a sequence: the arithmetic behind every conservation law of the project. */
module Tally {

  ghost function Sum<T>(xs: seq<T>, w: T -> int): int {
    if |xs| == 0 then 0 else Sum(xs[..|xs| - 1], w) + w(xs[|xs| - 1])
  }

  lemma SumAppend<T>(xs: seq<T>, x: T, w: T -> int)
    ensures Sum(xs + [x], w) == Sum(xs, w) + w(x)
  {
    assert (xs + [x])[..|xs|] == xs;
  }

  lemma {:induction false} SumConcat<T>(xs: seq<T>, ys: seq<T>, w: T -> int)
    ensures Sum(xs + ys, w) == Sum(xs, w) + Sum(ys, w)
    decreases |ys|
  {
    if |ys| == 0 {
      assert xs + ys == xs;
    } else {
      var ys' := ys[..|ys| - 1];
      SumConcat(xs, ys', w);
      assert xs + ys == (xs + ys') + [ys[|ys| - 1]];
      SumAppend(xs + ys', ys[|ys| - 1], w);
    }
  }

  /** Replacing one element moves the sum by the difference of the two weights. */
  lemma SumUpdate<T>(xs: seq<T>, i: nat, x: T, w: T -> int)
    requires i < |xs|
    ensures Sum(xs[i := x], w) == Sum(xs, w) - w(xs[i]) + w(x)
  {
    var a, b := xs[..i], xs[i + 1..];
    assert xs == (a + [xs[i]]) + b;
    assert xs[i := x] == (a + [x]) + b;
    SumOfPieces(a, xs[i], b, w);
    SumOfPieces(a, x, b, w);
  }

  /** Taking one element out takes its weight out. */
  lemma SumRemove<T>(xs: seq<T>, k: nat, w: T -> int)
    requires k < |xs|
    ensures Sum(xs[..k] + xs[k + 1..], w) == Sum(xs, w) - w(xs[k])
  {
    Pieces(xs, k);
    SumOfPieces(xs[..k], xs[k], xs[k + 1..], w);
  }

  lemma Pieces<T>(xs: seq<T>, k: nat)
    requires k < |xs|
    ensures xs == (xs[..k] + [xs[k]]) + xs[k + 1..]
  {
  }

  lemma SumOfPieces<T>(a: seq<T>, x: T, b: seq<T>, w: T -> int)
    ensures Sum((a + [x]) + b, w) == Sum(a + b, w) + w(x)
  {
    SumConcat(a + [x], b, w);
    SumAppend(a, x, w);
    SumConcat(a, b, w);
  }

  /** A weight that is nowhere above another has the smaller sum. */
  lemma {:induction false} SumMonotone<T>(xs: seq<T>, w: T -> int, v: T -> int)
    requires forall k :: 0 <= k < |xs| ==> w(xs[k]) <= v(xs[k])
    ensures Sum(xs, w) <= Sum(xs, v)
    decreases |xs|
  {
    if |xs| > 0 {
      SumMonotone(xs[..|xs| - 1], w, v);
    }
  }

  lemma {:induction false} SumOfZeros<T>(xs: seq<T>, w: T -> int)
    requires forall k :: 0 <= k < |xs| ==> w(xs[k]) == 0
    ensures Sum(xs, w) == 0
    decreases |xs|
  {
    if |xs| > 0 {
      SumOfZeros(xs[..|xs| - 1], w);
    }
  }

  /** With no negative weight the sum is at least any single one. */
  lemma {:induction false} SumAtLeastOne<T>(xs: seq<T>, i: nat, w: T -> int)
    requires i < |xs| && forall k :: 0 <= k < |xs| ==> 0 <= w(xs[k])
    ensures Sum(xs, w) >= w(xs[i])
    decreases |xs|
  {
    var n := |xs| - 1;
    if i < n {
      SumAtLeastOne(xs[..n], i, w);
    } else {
      SumNonNegative(xs[..n], w);
    }
  }

  lemma {:induction false} SumNonNegative<T>(xs: seq<T>, w: T -> int)
    requires forall k :: 0 <= k < |xs| ==> 0 <= w(xs[k])
    ensures Sum(xs, w) >= 0
    decreases |xs|
  {
    if |xs| > 0 {
      SumNonNegative(xs[..|xs| - 1], w);
    }
  }

  /** ... and at least any two together. */
  lemma {:induction false} SumAtLeastTwo<T>(xs: seq<T>, i: nat, j: nat, w: T -> int)
    requires i < j < |xs| && forall k :: 0 <= k < |xs| ==> 0 <= w(xs[k])
    ensures Sum(xs, w) >= w(xs[i]) + w(xs[j])
    decreases |xs|
  {
    var n := |xs| - 1;
    if j < n {
      SumAtLeastTwo(xs[..n], i, j, w);
    } else {
      SumAtLeastOne(xs[..n], i, w);
    }
  }

  /** A sum with one term that counts is that term. */
  lemma {:induction false} SumOnly<T>(xs: seq<T>, i: nat, w: T -> int)
    requires i < |xs| && forall k :: 0 <= k < |xs| && k != i ==> w(xs[k]) == 0
    ensures Sum(xs, w) == w(xs[i])
    decreases |xs|
  {
    var n := |xs| - 1;
    if i < n {
      SumOnly(xs[..n], i, w);
    } else {
      SumOfZeros(xs[..n], w);
    }
  }

  lemma {:induction false} SumPlus<T>(xs: seq<T>, u: T -> int, v: T -> int, w: T -> int)
    requires forall k :: 0 <= k < |xs| ==> w(xs[k]) == u(xs[k]) + v(xs[k])
    ensures Sum(xs, w) == Sum(xs, u) + Sum(xs, v)
    decreases |xs|
  {
    if |xs| > 0 {
      SumPlus(xs[..|xs| - 1], u, v, w);
    }
  }

  /** Two weights that are nowhere above a third together have sums that are not either. */
  lemma {:induction false} SumPairBelow<T>(xs: seq<T>, u: T -> int, v: T -> int, w: T -> int)
    requires forall k :: 0 <= k < |xs| ==> u(xs[k]) + v(xs[k]) <= w(xs[k])
    ensures Sum(xs, u) + Sum(xs, v) <= Sum(xs, w)
    decreases |xs|
  {
    if |xs| > 0 {
      SumPairBelow(xs[..|xs| - 1], u, v, w);
    }
  }

  /** Two weights that are nowhere negative together have sums that are not either. */
  lemma {:induction false} SumBoth<T>(xs: seq<T>, u: T -> int, v: T -> int)
    requires forall k :: 0 <= k < |xs| ==> 0 <= u(xs[k]) + v(xs[k])
    ensures 0 <= Sum(xs, u) + Sum(xs, v)
    decreases |xs|
  {
    if |xs| > 0 {
      SumBoth(xs[..|xs| - 1], u, v);
    }
  }

  /** How many of the first n numbers satisfy p. */
  function Share(n: nat, p: nat -> bool): (k: nat)
    ensures k <= n
  {
    if n == 0 then 0 else Share(n - 1, p) + if p(n - 1) then 1 else 0
  }

  lemma {:induction false} ShareBelow(n: nat, m: nat, p: nat -> bool)
    requires forall r: nat :: r < n ==> (p(r) <==> r < m)
    ensures Share(n, p) == if n <= m then n else m
  {
    if n > 0 {
      ShareBelow(n - 1, m, p);
    }
  }
}
