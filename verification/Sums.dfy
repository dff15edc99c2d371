/** Sums of a weight over a table, and how they change when one row changes. */
module Sums {
  function Total<T>(xs: seq<T>, w: T -> real): real {
    if xs == [] then 0.0 else Total(xs[..|xs| - 1], w) + w(xs[|xs| - 1])
  }

  lemma TotalAppend<T>(xs: seq<T>, x: T, w: T -> real)
    ensures Total(xs + [x], w) == Total(xs, w) + w(x)
  {
    assert (xs + [x])[..|xs|] == xs;
  }

  /** Two weightings that agree except on row i differ exactly by that row. */
  lemma {:induction false} TotalChange<T>(xs: seq<T>, ys: seq<T>, v: T -> real, w: T -> real, i: nat)
    requires i < |xs| == |ys|
    requires forall j :: 0 <= j < |xs| && j != i ==> v(xs[j]) == w(ys[j])
    ensures Total(ys, w) == Total(xs, v) - v(xs[i]) + w(ys[i])
  {
    var n := |xs| - 1;
    if i == n {
      TotalSame(xs[..n], ys[..n], v, w);
    } else {
      TotalChange(xs[..n], ys[..n], v, w, i);
    }
  }

  lemma {:induction false} TotalSame<T>(xs: seq<T>, ys: seq<T>, v: T -> real, w: T -> real)
    requires |xs| == |ys|
    requires forall j :: 0 <= j < |xs| ==> v(xs[j]) == w(ys[j])
    ensures Total(xs, v) == Total(ys, w)
  {
    if xs != [] {
      TotalSame(xs[..|xs| - 1], ys[..|ys| - 1], v, w);
    }
  }

  lemma {:induction false} TotalMonotone<T>(xs: seq<T>, ys: seq<T>, v: T -> real, w: T -> real)
    requires |xs| == |ys|
    requires forall j :: 0 <= j < |xs| ==> v(xs[j]) <= w(ys[j])
    ensures Total(xs, v) <= Total(ys, w)
  {
    if xs != [] {
      TotalMonotone(xs[..|xs| - 1], ys[..|ys| - 1], v, w);
    }
  }

  lemma {:induction false} TotalZero<T>(xs: seq<T>, w: T -> real)
    requires forall j :: 0 <= j < |xs| ==> w(xs[j]) == 0.0
    ensures Total(xs, w) == 0.0
  {
    if xs != [] {
      TotalZero(xs[..|xs| - 1], w);
    }
  }

  /** A sum of non-negative weights is at least each of them, hence zero only if all are. */
  lemma {:induction false} TotalAtLeast<T>(xs: seq<T>, w: T -> real, i: nat)
    requires i < |xs|
    requires forall j :: 0 <= j < |xs| ==> w(xs[j]) >= 0.0
    ensures Total(xs, w) >= w(xs[i])
  {
    var n := |xs| - 1;
    if i < n {
      TotalAtLeast(xs[..n], w, i);
    } else {
      TotalNonNegative(xs[..n], w);
    }
  }

  lemma {:induction false} TotalNonNegative<T>(xs: seq<T>, w: T -> real)
    requires forall j :: 0 <= j < |xs| ==> w(xs[j]) >= 0.0
    ensures Total(xs, w) >= 0.0
  {
    if xs != [] {
      TotalNonNegative(xs[..|xs| - 1], w);
    }
  }

  /** Sums are linear. */
  lemma {:induction false} TotalDifference<T>(xs: seq<T>, u: T -> real, v: T -> real, w: T -> real)
    requires forall j :: 0 <= j < |xs| ==> u(xs[j]) == v(xs[j]) - w(xs[j])
    ensures Total(xs, u) == Total(xs, v) - Total(xs, w)
  {
    if xs != [] {
      TotalDifference(xs[..|xs| - 1], u, v, w);
    }
  }
}
