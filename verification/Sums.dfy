/** Sums of integer sequences. */
module Sums {

  function Sum(xs: seq<int>): int {
    if xs == [] then 0 else Sum(xs[..|xs| - 1]) + xs[|xs| - 1]
  }

  lemma {:induction false} SumUpdate(xs: seq<int>, i: int, v: int)
    requires 0 <= i < |xs|
    ensures Sum(xs[i := v]) == Sum(xs) - xs[i] + v
  {
    var k := |xs| - 1;
    if i < k {
      SumUpdate(xs[..k], i, v);
      assert xs[i := v][..k] == xs[..k][i := v];
    } else {
      assert xs[i := v][..k] == xs[..k];
    }
  }

  lemma {:induction false} SumMonotone(xs: seq<int>, ys: seq<int>)
    requires |xs| == |ys| && forall i :: 0 <= i < |xs| ==> xs[i] <= ys[i]
    ensures Sum(xs) <= Sum(ys)
    ensures Sum(xs) == Sum(ys) ==> xs == ys
  {
    if xs != [] {
      var k := |xs| - 1;
      SumMonotone(xs[..k], ys[..k]);
      assert xs == xs[..k] + [xs[k]] && ys == ys[..k] + [ys[k]];
    }
  }

  /** A smaller sum has a smaller element. */
  lemma SomeLess(xs: seq<int>, ys: seq<int>) returns (i: nat)
    requires |xs| == |ys| && Sum(xs) < Sum(ys)
    ensures i < |xs| && xs[i] < ys[i]
  {
    if forall j :: 0 <= j < |xs| ==> ys[j] <= xs[j] {
      SumMonotone(ys, xs);
      assert false;
    }
    i :| 0 <= i < |xs| && xs[i] < ys[i];
  }

  lemma {:induction false} SumOfSums(xs: seq<int>, ys: seq<int>, zs: seq<int>)
    requires |xs| == |ys| == |zs| && forall i :: 0 <= i < |xs| ==> xs[i] <= ys[i] + zs[i]
    ensures Sum(xs) <= Sum(ys) + Sum(zs)
  {
    if xs != [] {
      var k := |xs| - 1;
      SumOfSums(xs[..k], ys[..k], zs[..k]);
    }
  }

  lemma {:induction false} SumNonNegative(xs: seq<int>)
    requires forall i :: 0 <= i < |xs| ==> xs[i] >= 0
    ensures Sum(xs) >= 0
    ensures forall i :: 0 <= i < |xs| ==> xs[i] <= Sum(xs)
  {
    if xs != [] {
      var k := |xs| - 1;
      SumNonNegative(xs[..k]);
    }
  }

  lemma {:induction false} SumZeros(xs: seq<int>)
    requires forall i :: 0 <= i < |xs| ==> xs[i] == 0
    ensures Sum(xs) == 0
  {
    if xs != [] {
      SumZeros(xs[..|xs| - 1]);
    }
  }

  /** The sum of count copies of one value. */
  lemma {:induction false} SumConstant(xs: seq<int>, v: int)
    requires forall i :: 0 <= i < |xs| ==> xs[i] == v
    ensures Sum(xs) == |xs| * v
  {
    if xs != [] {
      var k := |xs| - 1;
      SumConstant(xs[..k], v);
      assert (k + 1) * v == k * v + v;
    }
  }
}
