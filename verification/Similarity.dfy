/**
 The similarity score of the in-memory vector store over exact reals
 (src/app/adapters/providers/fake.py, `_cosine`).

 The cosine itself needs square roots. `Score` is its signed square, which is
 rational in the components and orders the matches exactly as the cosine does.
 */
module Similarity {

  type Vec = seq<real>

  function Dot(a: Vec, b: Vec, n: nat): real
    requires n <= |a| && n <= |b|
  {
    if n == 0 then 0.0 else Dot(a, b, n - 1) + a[n - 1] * b[n - 1]
  }

  /** The sum of the products, taken from the front as from the back. */
  lemma {:induction false} DotFromFront(a: Vec, b: Vec, n: nat)
    requires 1 <= n <= |a| && n <= |b|
    ensures Dot(a, b, n) == a[0] * b[0] + Dot(a[1..], b[1..], n - 1)
  {
    if n > 1 {
      DotFromFront(a, b, n - 1);
      assert a[1..][n - 2] == a[n - 1] && b[1..][n - 2] == b[n - 1];
    } else {
      assert Dot(a, b, 0) == 0.0;
    }
  }

  function Abs(x: real): real { if x < 0.0 then -x else x }

  function Shorter(a: Vec, b: Vec): nat { if |a| <= |b| then |a| else |b| }

  /** The signed square of the cosine over the common components; 0 for a zero vector. */
  function Score(a: Vec, b: Vec): real {
    var n := Shorter(a, b);
    var aa, bb, ab := Dot(a, a, n), Dot(b, b, n), Dot(a, b, n);
    if aa == 0.0 || bb == 0.0 then 0.0 else SignedRatio(ab, Times(aa, bb))
  }

  /** x|x| / d */
  function SignedRatio(x: real, d: real): real {
    if d == 0.0 then 0.0 else x * Abs(x) / d
  }

  /** Squaring with the sign kept does not change which of two scores is larger. */
  lemma SignedSquareKeepsOrder(x: real, y: real)
    ensures x < y <==> x * Abs(x) < y * Abs(y)
  {
    if 0.0 <= x && 0.0 <= y {
      assert y * y - x * x == (y - x) * (y + x);
      Opposite(y - x, y + x);
      if x < y { Positive(y - x, y + x); } else if x > y { Positive(x - y, y + x); }
    } else if x < 0.0 && y < 0.0 {
      assert x * x - y * y == (y - x) * (-x - y);
      Opposite(y - x, -x - y);
      if x < y { Positive(y - x, -x - y); } else if x > y { Positive(x - y, -x - y); }
    } else if x < 0.0 {
      Positive(-x, -x);
      Square(y);
    } else {
      Positive(-y, -y);
      Square(x);
    }
  }

  /** A product by name: the solver simplifies comparisons of literal squares with 0 away. */
  function Times(x: real, y: real): real { x * y }

  lemma Positive(x: real, y: real)
    requires x > 0.0 && y > 0.0
    ensures x * y > 0.0 && Times(x, y) > 0.0
  {
  }

  lemma Opposite(x: real, y: real)
    ensures -x * y == -(x * y)
  {
  }

  lemma Square(x: real)
    ensures Times(x, x) >= 0.0
  {
  }

  lemma SquareIsPositive(x: real)
    requires x != 0.0
    ensures Times(x, x) > 0.0
  {
    if x > 0.0 { Positive(x, x); } else { Positive(-x, -x); assert Times(-x, -x) == Times(x, x); }
  }

  lemma Factor(k: real, z: real)
    requires k > 0.0 && k * z >= 0.0
    ensures z >= 0.0
  {
    if z < 0.0 {
      Positive(k, -z);
      assert false;
    }
  }

  // ---------------------------------------------------------- Cauchy-Schwarz

  /** Sum of (p*b - q*a)^2 over the first n components. */
  function Residue(a: Vec, b: Vec, p: real, q: real, n: nat): real
    requires n <= |a| && n <= |b|
  {
    if n == 0 then 0.0
    else Residue(a, b, p, q, n - 1) + (p * b[n - 1] - q * a[n - 1]) * (p * b[n - 1] - q * a[n - 1])
  }

  lemma {:induction false} ResidueIsPositive(a: Vec, b: Vec, p: real, q: real, n: nat)
    requires n <= |a| && n <= |b|
    ensures Residue(a, b, p, q, n) >= 0.0
  {
    if n > 0 {
      ResidueIsPositive(a, b, p, q, n - 1);
      Square(p * b[n - 1] - q * a[n - 1]);
    }
  }

  lemma ExpandSquare(p: real, q: real, x: real, y: real)
    ensures (p * y - q * x) * (p * y - q * x) == p * p * (y * y) - 2.0 * p * q * (x * y) + q * q * (x * x)
  {
    assert (p * y - q * x) * (p * y - q * x) == (p * y) * (p * y) - 2.0 * ((p * y) * (q * x)) + (q * x) * (q * x);
    assert (p * y) * (p * y) == p * p * (y * y);
    assert (p * y) * (q * x) == p * q * (x * y);
    assert (q * x) * (q * x) == q * q * (x * x);
  }

  lemma {:induction false} ExpandResidue(a: Vec, b: Vec, p: real, q: real, n: nat)
    requires n <= |a| && n <= |b|
    ensures Residue(a, b, p, q, n) == p * p * Dot(b, b, n) - 2.0 * p * q * Dot(a, b, n) + q * q * Dot(a, a, n)
  {
    if n > 0 {
      var x, y := a[n - 1], b[n - 1];
      ExpandResidue(a, b, p, q, n - 1);
      ExpandSquare(p, q, x, y);
      Distribute(p * p, Dot(b, b, n - 1), y * y);
      Distribute(2.0 * p * q, Dot(a, b, n - 1), x * y);
      Distribute(q * q, Dot(a, a, n - 1), x * x);
    }
  }

  lemma Distribute(k: real, u: real, v: real)
    ensures k * (u + v) == k * u + k * v
  {
  }

  lemma {:induction false} DotIsPositive(a: Vec, n: nat)
    requires n <= |a|
    ensures Dot(a, a, n) >= 0.0
    ensures Dot(a, a, n) == 0.0 ==> forall i :: 0 <= i < n ==> a[i] == 0.0
  {
    if n > 0 {
      var x := a[n - 1];
      DotIsPositive(a, n - 1);
      assert Dot(a, a, n) == Dot(a, a, n - 1) + x * x;
      if x != 0.0 { SquareIsPositive(x); } else { assert x * x == 0.0; }
    }
  }

  lemma {:induction false} DotWithZero(a: Vec, b: Vec, n: nat)
    requires n <= |a| && n <= |b| && forall i :: 0 <= i < n ==> a[i] == 0.0
    ensures Dot(a, b, n) == 0.0
  {
    if n > 0 { DotWithZero(a, b, n - 1); }
  }

  /** (a.b)^2 <= (a.a)(b.b), for vectors of any length. */
  lemma CauchySchwarz(a: Vec, b: Vec, n: nat)
    requires n <= |a| && n <= |b|
    ensures Dot(a, b, n) * Dot(a, b, n) <= Dot(a, a, n) * Dot(b, b, n)
  {
    DotIsPositive(a, n);
    if Dot(a, a, n) == 0.0 { ZeroVector(a, b, n); } else { NonzeroVector(a, b, n); }
  }

  lemma ZeroVector(a: Vec, b: Vec, n: nat)
    requires n <= |a| && n <= |b| && Dot(a, a, n) == 0.0
    ensures Dot(a, b, n) * Dot(a, b, n) <= Dot(a, a, n) * Dot(b, b, n)
  {
    DotIsPositive(a, n);
    DotWithZero(a, b, n);
    ZeroTimes(Dot(a, b, n), Dot(b, b, n));
  }

  lemma ZeroTimes(x: real, y: real)
    ensures x == 0.0 ==> x * x <= 0.0 * y
  {
  }

  lemma NonzeroVector(a: Vec, b: Vec, n: nat)
    requires n <= |a| && n <= |b| && Dot(a, a, n) > 0.0
    ensures Dot(a, b, n) * Dot(a, b, n) <= Dot(a, a, n) * Dot(b, b, n)
  {
    ResidueBound(a, b, n);
    Discriminant(Dot(a, a, n), Dot(b, b, n), Dot(a, b, n));
  }

  /** The residue at p = a.a and q = a.b, expanded. */
  lemma ResidueBound(a: Vec, b: Vec, n: nat)
    requires n <= |a| && n <= |b|
    ensures var aa, bb, ab := Dot(a, a, n), Dot(b, b, n), Dot(a, b, n);
            aa * aa * bb - 2.0 * aa * ab * ab + ab * ab * aa >= 0.0
  {
    var aa, ab := Dot(a, a, n), Dot(a, b, n);
    ExpandResidue(a, b, aa, ab, n);
    ResidueIsPositive(a, b, aa, ab, n);
  }

  lemma Discriminant(aa: real, bb: real, ab: real)
    requires aa > 0.0 && aa * aa * bb - 2.0 * aa * ab * ab + ab * ab * aa >= 0.0
    ensures ab * ab <= aa * bb
  {
    assert aa * aa * bb - 2.0 * aa * ab * ab + ab * ab * aa == aa * (aa * bb - ab * ab);
    Factor(aa, aa * bb - ab * ab);
  }

  /** The squared cosine never exceeds 1. */
  lemma ScoreIsBounded(a: Vec, b: Vec)
    ensures -1.0 <= Score(a, b) <= 1.0
  {
    var n := Shorter(a, b);
    var aa, bb, ab := Dot(a, a, n), Dot(b, b, n), Dot(a, b, n);
    DotIsPositive(a, n);
    DotIsPositive(b, n);
    CauchySchwarz(a, b, n);
    if aa != 0.0 && bb != 0.0 {
      Positive(aa, bb);
      SignedRatioBound(ab, Times(aa, bb));
    }
  }

  lemma SignedBound(x: real, d: real)
    requires x * x <= d
    ensures -d <= x * Abs(x) <= d
  {
    Square(x);
    assert x * Abs(x) == if x < 0.0 then -(x * x) else x * x;
  }

  lemma SignedRatioBound(x: real, d: real)
    requires d > 0.0 && x * x <= d
    ensures -1.0 <= SignedRatio(x, d) <= 1.0
  {
    SignedBound(x, d);
    RatioBound(x * Abs(x), d);
  }

  lemma RatioBound(x: real, d: real)
    requires d > 0.0 && -d <= x <= d
    ensures -1.0 <= x / d <= 1.0
  {
    var q := x / d;
    assert d * q == x;
    Factor(d, 1.0 - q);
    Factor(d, q + 1.0);
  }

  /** A vector that is zero over the common components scores 0, on either side. */
  lemma ZeroScores(a: Vec, b: Vec)
    requires var n := if |a| <= |b| then |a| else |b|;
             (forall i :: 0 <= i < n ==> a[i] == 0.0) || (forall i :: 0 <= i < n ==> b[i] == 0.0)
    ensures Score(a, b) == 0.0
  {
    var n := Shorter(a, b);
    if forall i :: 0 <= i < n ==> a[i] == 0.0 { DotWithZero(a, a, n); } else { DotWithZero(b, b, n); }
  }

  /** If `cos` is the cosine, with `len` the product of the two lengths, then the score is its signed square. */
  lemma ScoreIsSignedSquare(a: Vec, b: Vec, len: real, cos: real)
    requires var n := if |a| <= |b| then |a| else |b|;
             && len > 0.0 && len * len == Dot(a, a, n) * Dot(b, b, n)
             && cos * len == Dot(a, b, n)
    ensures Score(a, b) == cos * Abs(cos)
  {
    var n := Shorter(a, b);
    var aa, bb, ab := Dot(a, a, n), Dot(b, b, n), Dot(a, b, n);
    Positive(len, len);
    assert Times(aa, bb) == Times(len, len);
    CancelLength(cos, len);
  }

  lemma CancelLength(cos: real, len: real)
    requires len > 0.0
    ensures Times(len, len) > 0.0 && SignedRatio(cos * len, Times(len, len)) == cos * Abs(cos)
  {
    Positive(len, len);
    SignedProduct(cos, len);
    Cancel(cos * Abs(cos), Times(len, len));
  }

  lemma SignedProduct(x: real, k: real)
    requires k > 0.0
    ensures (x * k) * Abs(x * k) == x * Abs(x) * (k * k)
  {
    AbsScale(x, k);
    assert (x * k) * (Abs(x) * k) == x * Abs(x) * (k * k);
  }

  lemma AbsScale(x: real, k: real)
    requires k > 0.0
    ensures Abs(x * k) == Abs(x) * k
  {
    if x > 0.0 { Positive(x, k); } else if x < 0.0 { Positive(-x, k); }
  }

  lemma Cancel(x: real, d: real)
    requires d > 0.0
    ensures x * d / d == x
  {
  }
}
