/** Sums over sequences of naturals, and the sizes of sets. */
module Sums {

  function Sum(xs: seq<nat>): nat {
    if xs == [] then 0 else xs[0] + Sum(xs[1..])
  }

  lemma {:induction false} SumAppend(xs: seq<nat>, x: nat)
    ensures Sum(xs + [x]) == Sum(xs) + x
  {
    if xs == [] {
      assert [] + [x] == [x];
    } else {
      assert (xs + [x])[1..] == xs[1..] + [x];
      SumAppend(xs[1..], x);
    }
  }

  lemma {:induction false} SumUpdate(xs: seq<nat>, i: nat, x: nat)
    requires i < |xs|
    ensures Sum(xs[i := x]) + xs[i] == Sum(xs) + x
  {
    if i == 0 {
      assert xs[0 := x][1..] == xs[1..];
    } else {
      assert xs[i := x][1..] == xs[1..][i - 1 := x];
      SumUpdate(xs[1..], i - 1, x);
    }
  }

  lemma {:induction false} SumMonotone(xs: seq<nat>, ys: seq<nat>)
    requires |xs| == |ys| && forall i :: 0 <= i < |xs| ==> xs[i] <= ys[i]
    ensures Sum(xs) <= Sum(ys)
  {
    if xs != [] { SumMonotone(xs[1..], ys[1..]); }
  }

  function Pow(b: nat, k: nat): nat {
    if k == 0 then 1 else b * Pow(b, k - 1)
  }

  /** b + b^2 + ... + b^k */
  function PowerSum(b: nat, k: nat): nat {
    if k == 0 then 0 else PowerSum(b, k - 1) + Pow(b, k)
  }

  lemma {:induction false} Horner(b: nat, k: nat)
    requires k >= 1
    ensures PowerSum(b, k) == b * (1 + PowerSum(b, k - 1))
  {
    if k == 1 {
      assert PowerSum(b, 1) == PowerSum(b, 0) + Pow(b, 1);
      assert Pow(b, 1) == b * Pow(b, 0);
    } else {
      Horner(b, k - 1);
      assert Pow(b, k) == b * Pow(b, k - 1);
      assert b * (1 + PowerSum(b, k - 2)) + b * Pow(b, k - 1) == b * (1 + PowerSum(b, k - 2) + Pow(b, k - 1));
    }
  }

  lemma {:induction false} PowIsPositive(b: nat, k: nat)
    requires b >= 1
    ensures Pow(b, k) >= 1
  {
    if k > 0 {
      PowIsPositive(b, k - 1);
      assert b * Pow(b, k - 1) >= 1 * Pow(b, k - 1);
    }
  }

  lemma {:induction false} PowerSumGrows(b: nat, k: nat, m: nat)
    requires b >= 1 && k < m
    ensures 1 + PowerSum(b, k) <= PowerSum(b, m)
  {
    PowIsPositive(b, m);
    if k < m - 1 { PowerSumGrows(b, k, m - 1); }
  }

  lemma OneLess(n: nat, k: nat)
    requires n >= 1
    ensures n * k == (n - 1) * k + k
  {
  }

  lemma SubsetSize(a: set<nat>, b: set<nat>)
    requires a <= b
    ensures |a| <= |b|
    ensures a != b ==> |a| < |b|
  {
    assert b == a + (b - a);
    assert |b| == |a| + |b - a|;
  }

  lemma {:induction false} PowAdd(b: nat, j: nat, k: nat)
    ensures Pow(b, j + k) == Pow(b, j) * Pow(b, k) && Pow(b, 1) == b
  {
    assert Pow(b, 1) == b * Pow(b, 0);
    if j > 0 {
      PowAdd(b, j - 1, k);
      assert b * (Pow(b, j - 1) * Pow(b, k)) == (b * Pow(b, j - 1)) * Pow(b, k);
    }
  }

  lemma Distribute(b: int, x: int, y: int)
    ensures b * (x + y) == b * x + b * y && (b - 1) * x == b * x - x
  {
  }

  /** The closed form of the geometric sum. */
  lemma {:induction false} GeometricSum(b: nat, k: nat)
    ensures (b - 1) * PowerSum(b, k) == b * (Pow(b, k) - 1)
  {
    if k == 0 {
      assert (b - 1) * 0 == b * 0;
    } else {
      var p, q, s := Pow(b, k - 1), Pow(b, k), PowerSum(b, k - 1);
      GeometricSum(b, k - 1);
      Distribute(b - 1, s, q);
      Distribute(b, q, -1);
      Distribute(b, p, -1);
    }
  }
}
