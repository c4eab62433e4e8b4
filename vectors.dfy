// Specification functions on vectors (sequences of reals) shared by the
// kernels in mymath.c and myvector.c and by the optimisers.  Every sum is
// taken over a prefix of length k, in the order the C loops accumulate it.
module Vectors {

  function Abs(r: real): (a: real)
    ensures a >= 0.0 && (a == r || a == -r)
  {
    if r < 0.0 then -r else r
  }

  /** The product a * b, kept as a function so that equal products are
      equal terms to the verifier (a step times a width, a coefficient
      times a dot product). */
  function Times(a: real, b: real): (r: real)
    ensures r == a * b
  {
    a * b
  }

  /** x[0]*y[0] + ... + x[k-1]*y[k-1] */
  function SumProd(x: seq<real>, y: seq<real>, k: nat): real
    requires k <= |x| && k <= |y|
  {
    if k == 0 then 0.0 else SumProd(x, y, k - 1) + x[k - 1] * y[k - 1]
  }

  function Dot(x: seq<real>, y: seq<real>): real
    requires |x| == |y|
  {
    SumProd(x, y, |x|)
  }

  /** |x[0]| + ... + |x[k-1]| */
  function SumAbs(x: seq<real>, k: nat): real
    requires k <= |x|
  {
    if k == 0 then 0.0 else SumAbs(x, k - 1) + Abs(x[k - 1])
  }

  /** max(|x[0]|, ..., |x[k-1]|), seeded with |x[0]| and replaced only by a strictly larger entry */
  function MaxAbs(x: seq<real>, k: nat): real
    requires 1 <= k <= |x|
  {
    if k == 1 then Abs(x[0])
    else if Abs(x[k - 1]) > MaxAbs(x, k - 1) then Abs(x[k - 1])
    else MaxAbs(x, k - 1)
  }

  function Norm1(x: seq<real>): real { SumAbs(x, |x|) }

  function NormInf(x: seq<real>): real
    requires |x| >= 1
  {
    MaxAbs(x, |x|)
  }

  /** x + alpha * y, componentwise */
  function Step(x: seq<real>, alpha: real, y: seq<real>): (r: seq<real>)
    requires |x| == |y|
    ensures |r| == |x|
  {
    seq(|x|, i requires 0 <= i < |x| => x[i] + alpha * y[i])
  }

  function Neg(x: seq<real>): (r: seq<real>)
    ensures |r| == |x|
  {
    seq(|x|, i requires 0 <= i < |x| => -x[i])
  }

  function Sub(x: seq<real>, y: seq<real>): (r: seq<real>)
    requires |x| == |y|
    ensures |r| == |x|
  {
    seq(|x|, i requires 0 <= i < |x| => x[i] - y[i])
  }

  function Zeros(n: nat): (r: seq<real>)
    ensures |r| == n
  {
    seq(n, i => 0.0)
  }

  // ---------------------------------------------------------------------
  // Properties

  lemma {:induction false} SumProdSymmetric(x: seq<real>, y: seq<real>, k: nat)
    requires k <= |x| && k <= |y|
    ensures SumProd(x, y, k) == SumProd(y, x, k)
  {
    if k > 0 { SumProdSymmetric(x, y, k - 1); }
  }

  lemma DotSymmetric(x: seq<real>, y: seq<real>)
    requires |x| == |y|
    ensures Dot(x, y) == Dot(y, x)
  {
    SumProdSymmetric(x, y, |x|);
  }

  lemma {:induction false} SumSquaresNonNegative(x: seq<real>, k: nat)
    requires k <= |x|
    ensures SumProd(x, x, k) >= 0.0
  {
    if k > 0 { SumSquaresNonNegative(x, k - 1); }
  }

  /** Entries i < k of x and y agree in sign. */
  predicate SameSigns(x: seq<real>, y: seq<real>, k: nat)
    requires k <= |x| && k <= |y|
  {
    forall j :: 0 <= j < k ==> (x[j] >= 0.0 && y[j] >= 0.0) || (x[j] <= 0.0 && y[j] <= 0.0)
  }

  lemma ProductSigns(v: real, w: real)
    requires (v >= 0.0 && w >= 0.0) || (v <= 0.0 && w <= 0.0)
    ensures v * w >= 0.0
    ensures v != 0.0 && w != 0.0 ==> v * w > 0.0
  {
    if v < 0.0 {
      assert v * w == (-v) * (-w);
    }
  }

  /** A sum of products of entries that agree in sign is non-negative, and
      positive once one of its products is non-zero.  (Stated for two
      sequences: the verifier handles x[i] * y[i] better than a square.) */
  lemma {:induction false} SumProdSameSigns(x: seq<real>, y: seq<real>, k: nat)
    requires k <= |x| && k <= |y| && SameSigns(x, y, k)
    ensures SumProd(x, y, k) >= 0.0
    ensures forall i :: 0 <= i < k && x[i] != 0.0 && y[i] != 0.0 ==> SumProd(x, y, k) > 0.0
  {
    if k > 0 {
      SumProdSameSigns(x, y, k - 1);
      ProductSigns(x[k - 1], y[k - 1]);
    }
  }

  /** x . x > 0 for every non-zero x. */
  lemma DotSelfPositive(x: seq<real>)
    requires x != Zeros(|x|)
    ensures Dot(x, x) > 0.0
  {
    var i :| 0 <= i < |x| && x[i] != 0.0;
    SumProdSameSigns(x, x, |x|);
  }

  lemma {:induction false} SumAbsNonNegative(x: seq<real>, k: nat)
    requires k <= |x|
    ensures SumAbs(x, k) >= 0.0
  {
    if k > 0 { SumAbsNonNegative(x, k - 1); }
  }

  /** The Manhattan norm bounds every component's absolute value. */
  lemma {:induction false} SumAbsBound(x: seq<real>, k: nat, i: nat)
    requires i < k <= |x|
    ensures Abs(x[i]) <= SumAbs(x, k)
  {
    SumAbsNonNegative(x, k - 1);
    if i < k - 1 { SumAbsBound(x, k - 1, i); }
  }

  /** The infinity norm is at least the absolute value of every component ... */
  lemma {:induction false} MaxAbsBound(x: seq<real>, k: nat, i: nat)
    requires i < k <= |x|
    ensures Abs(x[i]) <= MaxAbs(x, k)
  {
    if k > 1 && i < k - 1 { MaxAbsBound(x, k - 1, i); }
  }

  /** ... and equals the absolute value of one of them. */
  lemma {:induction false} MaxAbsAttained(x: seq<real>, k: nat) returns (j: nat)
    requires 1 <= k <= |x|
    ensures j < k && MaxAbs(x, k) == Abs(x[j])
  {
    if k == 1 {
      j := 0;
    } else if Abs(x[k - 1]) > MaxAbs(x, k - 1) {
      j := k - 1;
    } else {
      j := MaxAbsAttained(x, k - 1);
    }
  }

  lemma NormInfIsMaximum(x: seq<real>)
    requires |x| >= 1
    ensures NormInf(x) >= 0.0
    ensures forall i :: 0 <= i < |x| ==> Abs(x[i]) <= NormInf(x)
    ensures exists j :: 0 <= j < |x| && NormInf(x) == Abs(x[j])
  {
    forall i | 0 <= i < |x| ensures Abs(x[i]) <= NormInf(x) { MaxAbsBound(x, |x|, i); }
    var j := MaxAbsAttained(x, |x|);
  }

  /** The infinity norm of a vector vanishes exactly when the vector is zero. */
  lemma NormInfZero(x: seq<real>)
    requires |x| >= 1
    ensures NormInf(x) == 0.0 <==> x == Zeros(|x|)
  {
    NormInfIsMaximum(x);
    if NormInf(x) == 0.0 {
      forall i | 0 <= i < |x| ensures x[i] == 0.0 { assert Abs(x[i]) <= 0.0; }
    }
  }

  /** A vector whose only non-zero entry is +1 or -1 has infinity norm 1. */
  lemma NormInfOfUnit(n: nat, k: nat, s: real)
    requires k < n && (s == 1.0 || s == -1.0)
    ensures NormInf(seq(n, i => if i == k then s else 0.0)) == 1.0
  {
    var e := seq(n, i => if i == k then s else 0.0);
    NormInfIsMaximum(e);
    assert Abs(e[k]) == 1.0;
  }

  /** A step of length zero copies the starting point. */
  lemma StepAlongZero(x: seq<real>, alpha: real)
    ensures Step(x, alpha, Zeros(|x|)) == x
  {
  }

  lemma StepZero(x: seq<real>, y: seq<real>)
    requires |x| == |y|
    ensures Step(x, 0.0, y) == x
  {
  }

  /** The step of length alpha from x lands at a point whose difference from x is alpha * y. */
  lemma StepSub(x: seq<real>, alpha: real, y: seq<real>)
    requires |x| == |y|
    ensures Sub(Step(x, alpha, y), x) == Step(Zeros(|x|), alpha, y)
  {
  }

  /** Sums of products depend only on the first k entries. */
  lemma {:induction false} SumProdPrefix(x: seq<real>, y: seq<real>, x': seq<real>, y': seq<real>, k: nat)
    requires k <= |x| && k <= |y| && k <= |x'| && k <= |y'|
    requires x[..k] == x'[..k] && y[..k] == y'[..k]
    ensures SumProd(x, y, k) == SumProd(x', y', k)
  {
    if k > 0 {
      assert x[k - 1] == x[..k][k - 1] && x'[k - 1] == x'[..k][k - 1];
      assert y[k - 1] == y[..k][k - 1] && y'[k - 1] == y'[..k][k - 1];
      assert x[..k - 1] == x[..k][..k - 1] && x'[..k - 1] == x'[..k][..k - 1];
      assert y[..k - 1] == y[..k][..k - 1] && y'[..k - 1] == y'[..k][..k - 1];
      SumProdPrefix(x, y, x', y', k - 1);
    }
  }

  /** Linearity of the sum of products in its first argument. */
  lemma {:induction false} SumProdLinear(x: seq<real>, c: real, z: seq<real>, y: seq<real>, k: nat)
    requires |x| == |z| && k <= |x| && k <= |y|
    ensures SumProd(Step(x, c, z), y, k) == SumProd(x, y, k) + c * SumProd(z, y, k)
  {
    if k > 0 {
      SumProdLinear(x, c, z, y, k - 1);
      var w := Step(x, c, z);
      assert w[k - 1] == x[k - 1] + c * z[k - 1];
      LinearStep(SumProd(x, y, k - 1), SumProd(z, y, k - 1), x[k - 1], z[k - 1], y[k - 1], c);
    }
  }

  /** The scalar step of SumProdLinear. */
  lemma LinearStep(a: real, b: real, xk: real, zk: real, yk: real, c: real)
    ensures a + c * b + (xk + c * zk) * yk == (a + xk * yk) + c * (b + zk * yk)
  {
  }

  lemma {:induction false} SumProdScale(c: real, z: seq<real>, y: seq<real>, k: nat)
    requires k <= |z| && k <= |y|
    ensures SumProd(seq(|z|, i requires 0 <= i < |z| => c * z[i]), y, k) == c * SumProd(z, y, k)
  {
    if k > 0 {
      SumProdScale(c, z, y, k - 1);
      var w := seq(|z|, i requires 0 <= i < |z| => c * z[i]);
      assert w[k - 1] * y[k - 1] == c * (z[k - 1] * y[k - 1]);
    }
  }

  /** Negating the second argument negates the sum of products. */
  lemma {:induction false} SumProdNeg(x: seq<real>, y: seq<real>, k: nat)
    requires |x| == |y| && k <= |x|
    ensures SumProd(x, Neg(y), k) == -SumProd(x, y, k)
  {
    if k > 0 { SumProdNeg(x, y, k - 1); }
  }

  lemma {:induction false} SumProdZero(y: seq<real>, k: nat)
    requires k <= |y|
    ensures SumProd(Zeros(|y|), y, k) == 0.0
  {
    if k > 0 { SumProdZero(y, k - 1); }
  }

  /** The vector (c, c+1, ..., c+n-1). */
  function Ramp(n: nat, c: int): (r: seq<real>)
    ensures |r| == n
  {
    seq(n, i => (i + c) as real)
  }

  function Ones(n: nat): (r: seq<real>)
    ensures |r| == n
  {
    seq(n, i => 1.0)
  }

  /** Closed form of Ramp(n, c) . Ones(n) over the first k entries. */
  lemma {:induction false} RampDotOnes(n: nat, c: int, k: nat)
    requires k <= n
    ensures SumProd(Ramp(n, c), Ones(n), k) == (k as real) * ((k as real) - 1.0) / 2.0 + (c as real) * (k as real)
  {
    if k > 0 {
      RampDotOnes(n, c, k - 1);
      assert Ramp(n, c)[k - 1] == ((k - 1) + c) as real;
    }
  }

  /** The two dot products evaluated for n = 10: 15 for x_i = i - 3 and 45 for x_i = i, with y = 1. */
  lemma DotTestValues()
    ensures Dot(Ramp(10, -3), Ones(10)) == 15.0
    ensures Dot(Ramp(10, 0), Ones(10)) == 45.0
  {
    RampDotOnes(10, -3, 10);
    RampDotOnes(10, 0, 10);
  }
}
