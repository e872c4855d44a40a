/** Sums of integer sequences: how they react to an update, a split and a pointwise change. */
module Sums {

  function Min(a: int, b: int): int {
    if a < b then a else b
  }

  function Max(a: int, b: int): int {
    if a > b then a else b
  }

  function Sum(xs: seq<int>): int {
    if |xs| == 0 then 0 else Sum(xs[..|xs| - 1]) + xs[|xs| - 1]
  }

  lemma {:induction false} SumUpdate(xs: seq<int>, i: nat, v: int)
    requires i < |xs|
    ensures Sum(xs[i := v]) == Sum(xs) - xs[i] + v
  {
    var n := |xs| - 1;
    if i == n {
      assert xs[i := v][..n] == xs[..n];
    } else {
      assert xs[i := v][..n] == xs[..n][i := v];
      SumUpdate(xs[..n], i, v);
    }
  }

  lemma {:induction false} SumConcat(xs: seq<int>, ys: seq<int>)
    ensures Sum(xs + ys) == Sum(xs) + Sum(ys)
  {
    if |ys| == 0 {
      assert xs + ys == xs;
    } else {
      assert (xs + ys)[..|xs + ys| - 1] == xs + ys[..|ys| - 1];
      SumConcat(xs, ys[..|ys| - 1]);
    }
  }

  lemma {:induction false} SumNonNegative(xs: seq<int>)
    requires forall i :: 0 <= i < |xs| ==> 0 <= xs[i]
    ensures 0 <= Sum(xs)
    ensures forall i :: 0 <= i < |xs| ==> xs[i] <= Sum(xs)
    ensures Sum(xs) == 0 <==> forall i :: 0 <= i < |xs| ==> xs[i] == 0
  {
    if |xs| > 0 {
      SumNonNegative(xs[..|xs| - 1]);
      assert forall i :: 0 <= i < |xs| - 1 ==> xs[..|xs| - 1][i] == xs[i];
    }
  }

  /** Two sequences related element by element are related by their sums. */
  lemma {:induction false} SumLinear(xs: seq<int>, ys: seq<int>, zs: seq<int>)
    requires |xs| == |ys| == |zs|
    requires forall i :: 0 <= i < |xs| ==> zs[i] == xs[i] + ys[i]
    ensures Sum(zs) == Sum(xs) + Sum(ys)
  {
    if |xs| > 0 {
      var n := |xs| - 1;
      SumLinear(xs[..n], ys[..n], zs[..n]);
    }
  }

  lemma {:induction false} SumMonotone(xs: seq<int>, ys: seq<int>)
    requires |xs| == |ys|
    requires forall i :: 0 <= i < |xs| ==> xs[i] <= ys[i]
    ensures Sum(xs) <= Sum(ys)
    ensures (exists i :: 0 <= i < |xs| && xs[i] < ys[i]) ==> Sum(xs) < Sum(ys)
  {
    if |xs| > 0 {
      var n := |xs| - 1;
      SumMonotone(xs[..n], ys[..n]);
      if exists i :: 0 <= i < |xs| && xs[i] < ys[i] {
        var i :| 0 <= i < |xs| && xs[i] < ys[i];
        if i < n {
          assert xs[..n][i] < ys[..n][i];
        }
      }
    }
  }

  lemma {:induction false} SumConstant(xs: seq<int>, c: int)
    requires forall i :: 0 <= i < |xs| ==> xs[i] == c
    ensures Sum(xs) == c * |xs|
  {
    if |xs| > 0 {
      var n := |xs| - 1;
      SumConstant(xs[..n], c);
      assert c * |xs| == c * n + c;
    }
  }
}
