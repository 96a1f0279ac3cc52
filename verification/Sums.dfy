/** Sums of a measure over a sequence. */
module Sums {
  function Sum<T>(xs: seq<T>, f: T -> nat): nat {
    if xs == [] then 0 else Sum(xs[..|xs| - 1], f) + f(xs[|xs| - 1])
  }

  lemma {:induction false} SumSet<T>(xs: seq<T>, i: nat, x: T, f: T -> nat)
    requires i < |xs|
    ensures Sum(xs[i := x], f) == Sum(xs, f) - f(xs[i]) + f(x)
    decreases |xs|
  {
    var n := |xs| - 1;
    if i == n {
      assert xs[i := x][..n] == xs[..n];
    } else {
      SumSet(xs[..n], i, x, f);
      assert xs[i := x][..n] == xs[..n][i := x];
    }
  }

  lemma SumAppend<T>(xs: seq<T>, x: T, f: T -> nat)
    ensures Sum(xs + [x], f) == Sum(xs, f) + f(x)
  {
    assert (xs + [x])[..|xs|] == xs;
  }

  lemma {:induction false} SumPositive<T>(xs: seq<T>, f: T -> nat)
    ensures Sum(xs, f) > 0 ==> exists i: nat :: i < |xs| && f(xs[i]) > 0
    ensures forall i: nat :: i < |xs| ==> f(xs[i]) <= Sum(xs, f)
    decreases |xs|
  {
    if xs != [] {
      var n := |xs| - 1;
      SumPositive(xs[..n], f);
      if Sum(xs[..n], f) > 0 {
        var i: nat :| i < n && f(xs[..n][i]) > 0;
        assert f(xs[i]) > 0;
      }
      forall i: nat | i < |xs| ensures f(xs[i]) <= Sum(xs, f) {
        if i < n { assert xs[..n][i] == xs[i]; }
      }
    }
  }

  lemma {:induction false} SumEqual<T>(a: seq<T>, b: seq<T>, f: T -> nat)
    requires |a| == |b| && forall i: nat :: i < |a| ==> f(a[i]) == f(b[i])
    ensures Sum(a, f) == Sum(b, f)
    decreases |a|
  {
    if a != [] {
      var n := |a| - 1;
      assert forall i: nat :: i < n ==> a[..n][i] == a[i] && b[..n][i] == b[i];
      SumEqual(a[..n], b[..n], f);
    }
  }
}
