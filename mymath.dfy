// src/mymath.c: the vector kernels dot_product, update_step_vector,
// manhattan_norm, euclidean_norm and infinity_norm, and the linear solvers
// gauss_seidel and successive_over_relaxation.
module MyMath {
  import opened Vectors
  import opened Matrices

  // ---------------------------------------------------------------------
  // Vector kernels.  Each loop starts from entry 0 outside the loop, so the
  // vector must have at least one entry.

  method DotProduct(x: array<real>, y: array<real>) returns (dot: real)
    requires 1 <= x.Length == y.Length
    ensures dot == Dot(x[..], y[..])
  {
    var i := 1;
    dot := x[0] * y[0];
    while i < x.Length
      invariant 1 <= i <= x.Length
      invariant dot == SumProd(x[..], y[..], i)
    {
      dot := dot + x[i] * y[i];
      i := i + 1;
    }
  }

  method UpdateStepVector(xTemp: array<real>, x: array<real>, alpha: real, y: array<real>)
    requires xTemp.Length == x.Length == y.Length
    modifies xTemp
    ensures xTemp[..] == Step(old(x[..]), alpha, old(y[..]))
  {
    var i := 0;
    while i < x.Length
      invariant 0 <= i <= x.Length
      invariant forall k :: 0 <= k < i ==> xTemp[k] == old(x[k]) + alpha * old(y[k])
      invariant forall k :: i <= k < x.Length ==> x[k] == old(x[k]) && y[k] == old(y[k])
    {
      var v := x[i] + alpha * y[i];
      assert v == old(x[i]) + alpha * old(y[i]);
      xTemp[i] := v;
      i := i + 1;
    }
    ghost var ox, oy := old(x[..]), old(y[..]);
    assert forall k :: 0 <= k < x.Length ==> xTemp[..][k] == Step(ox, alpha, oy)[k];
  }

  method ManhattanNorm(x: array<real>) returns (norm: real)
    requires x.Length >= 1
    ensures norm == Norm1(x[..]) && norm >= 0.0
  {
    var i := 1;
    norm := Abs(x[0]);
    while i < x.Length
      invariant 1 <= i <= x.Length
      invariant norm == SumAbs(x[..], i)
    {
      norm := norm + Abs(x[i]);
      i := i + 1;
    }
    SumAbsNonNegative(x[..], x.Length);
  }

  /** The square root is the C library's sqrt, passed in: the model does not
      compute it. */
  method EuclideanNorm(x: array<real>, sqrt: real -> real) returns (norm: real)
    requires x.Length >= 1
    ensures norm == sqrt(Dot(x[..], x[..]))
  {
    var i := 1;
    var squares := x[0] * x[0];
    while i < x.Length
      invariant 1 <= i <= x.Length
      invariant squares == SumProd(x[..], x[..], i)
    {
      squares := squares + x[i] * x[i];
      i := i + 1;
    }
    norm := sqrt(squares);
  }

  method InfinityNorm(x: array<real>) returns (norm: real)
    requires x.Length >= 1
    ensures norm == NormInf(x[..])
  {
    var i := 1;
    norm := Abs(x[0]);
    while i < x.Length
      invariant 1 <= i <= x.Length
      invariant norm == MaxAbs(x[..], i)
    {
      var fabsX := Abs(x[i]);
      if fabsX > norm {
        norm := fabsX;
      }
      i := i + 1;
    }
  }

  // ---------------------------------------------------------------------
  // Successive over-relaxation.  One sweep rewrites x[0], x[1], ... in
  // order; row i sees the new values of x[0..i) and the old values of
  // x(i..n).  The C do-while repeats sweeps until the largest change of a
  // sweep is at most epsilon, with no bound on the number of sweeps; the
  // model bounds it by `sweeps` and reports SweepLimit when that runs out.

  /** x[lo]*y[lo] + ... + x[k-1]*y[k-1] */
  function SumProdFrom(x: seq<real>, y: seq<real>, lo: nat, k: nat): real
    requires lo <= k <= |x| && k <= |y|
    decreases k - lo
  {
    if k == lo then 0.0 else SumProdFrom(x, y, lo, k - 1) + x[k - 1] * y[k - 1]
  }

  /** b_i - sum_{j < i} a_ij x_j - sum_{j > i} a_ij x_j */
  function OffDiagonalResidual(a: seq<seq<real>>, b: seq<real>, x: seq<real>, i: nat): real
    requires IsSquare(a, |x|) && |b| == |x| && i < |x|
  {
    b[i] - SumProd(a[i], x, i) - SumProdFrom(a[i], x, i + 1, |x|)
  }

  /** The new value of row i: x_i + omega * ((b_i - sum_{j != i} a_ij x_j) / a_ii - x_i). */
  function Relaxed(a: seq<seq<real>>, b: seq<real>, x: seq<real>, i: nat, omega: real): real
    requires IsSquare(a, |x|) && |b| == |x| && i < |x| && a[i][i] != 0.0
  {
    x[i] + omega * (OffDiagonalResidual(a, b, x, i) / a[i][i] - x[i])
  }

  datatype SweepResult =
    | Swept(x: seq<real>, change: real)      // every row relaxed; change = largest |x_new - x_old|
    | ZeroPivot(x: seq<real>, row: nat)       // a[row][row] == 0 stopped the sweep

  /** The rest of a sweep from row i, with `change` the largest change so far. */
  function Sweep(a: seq<seq<real>>, b: seq<real>, x: seq<real>, omega: real, i: nat, change: real): SweepResult
    requires IsSquare(a, |x|) && |b| == |x| && i <= |x|
    decreases |x| - i
  {
    if i == |x| then Swept(x, change)
    else if a[i][i] == 0.0 then ZeroPivot(x, i)
    else
      var xi := Relaxed(a, b, x, i, omega);
      var t := Abs(xi - x[i]);
      Sweep(a, b, x[i := xi], omega, i + 1, if change < t then t else change)
  }

  /** Statuses of successive_over_relaxation (MY_MATH_SATISFIED and
      MY_MATH_FAILED); SweepLimit is the model's bound on the sweeps. */
  datatype SorStatus = Satisfied | Failed | SweepLimit

  /** `before` is x at the start of the last sweep performed. */
  datatype SorResult = SorResult(status: SorStatus, x: seq<real>, before: seq<real>)

  function Sor(a: seq<seq<real>>, b: seq<real>, x: seq<real>, epsilon: real, omega: real, sweeps: nat): (r: SorResult)
    requires IsSquare(a, |x|) && |b| == |x|
    ensures |r.x| == |x| && |r.before| == |x|
    decreases sweeps
  {
    if sweeps == 0 then SorResult(SweepLimit, x, x)
    else
      SweepFrame(a, b, x, omega, 0, 0.0);
      match Sweep(a, b, x, omega, 0, 0.0)
      case ZeroPivot(x', _) => SorResult(Failed, x', x)
      case Swept(x', change) =>
        if change > epsilon then Sor(a, b, x', epsilon, omega, sweeps - 1)
        else SorResult(Satisfied, x', x)
  }

  /** The rows a sweep has relaxed: all of them, or those before the zero pivot. */
  function Done(r: SweepResult, n: nat): nat
  {
    if r.Swept? then n else r.row
  }

  /** updated[0..k) followed by previous[k..n) */
  function Mixed(updated: seq<real>, previous: seq<real>, k: nat): (r: seq<real>)
    requires |updated| == |previous|
    ensures |r| == |previous|
  {
    seq(|previous|, j requires 0 <= j < |previous| => if j < k then updated[j] else previous[j])
  }

  /** Mixing in nothing but the rows x already has gives x back. */
  lemma MixedPrefix(updated: seq<real>, previous: seq<real>, k: nat)
    requires |updated| == |previous| && k <= |previous|
    requires forall j :: 0 <= j < k ==> updated[j] == previous[j]
    ensures Mixed(updated, previous, k) == previous
  {
  }

  /** A previous row below k is never read by Mixed. */
  lemma MixedReplaced(updated: seq<real>, previous: seq<real>, i: nat, v: real, k: nat)
    requires |updated| == |previous| && i < k && i < |previous|
    ensures Mixed(updated, previous[i := v], k) == Mixed(updated, previous, k)
  {
    assert forall j :: 0 <= j < |previous| ==> Mixed(updated, previous[i := v], k)[j] == Mixed(updated, previous, k)[j];
  }

  /** A sweep from row i keeps the length of x and leaves the rows before i alone. */
  lemma {:induction false} SweepFrame(a: seq<seq<real>>, b: seq<real>, x: seq<real>, omega: real, i: nat, change: real)
    requires IsSquare(a, |x|) && |b| == |x| && i <= |x|
    ensures var r := Sweep(a, b, x, omega, i, change);
      |r.x| == |x| && (forall k :: 0 <= k < i ==> r.x[k] == x[k])
    decreases |x| - i
  {
    if i < |x| && a[i][i] != 0.0 {
      var xi := Relaxed(a, b, x, i, omega);
      var t := Abs(xi - x[i]);
      SweepFrame(a, b, x[i := xi], omega, i + 1, if change < t then t else change);
    }
  }

  /** A sweep stops at the first zero on the diagonal and touches no row from there on. */
  lemma {:induction false} SweepStops(a: seq<seq<real>>, b: seq<real>, x: seq<real>, omega: real, i: nat, change: real)
    requires IsSquare(a, |x|) && |b| == |x| && i <= |x|
    ensures var r := Sweep(a, b, x, omega, i, change);
      |r.x| == |x| && i <= Done(r, |x|) <= |x| &&
      (forall k :: i <= k < Done(r, |x|) ==> a[k][k] != 0.0) &&
      (r.ZeroPivot? ==> r.row < |x| && a[r.row][r.row] == 0.0 && forall k :: r.row <= k < |x| ==> r.x[k] == x[k])
    decreases |x| - i
  {
    SweepFrame(a, b, x, omega, i, change);
    if i < |x| && a[i][i] != 0.0 {
      var xi := Relaxed(a, b, x, i, omega);
      var t := Abs(xi - x[i]);
      SweepStops(a, b, x[i := xi], omega, i + 1, if change < t then t else change);
    }
  }

  /** Gauss-Seidel order: each relaxed row k is computed from the new values
      of the rows before k and the old values of the rows after k. */
  lemma {:induction false} SweepOrder(a: seq<seq<real>>, b: seq<real>, x: seq<real>, omega: real, i: nat, change: real)
    requires IsSquare(a, |x|) && |b| == |x| && i <= |x|
    ensures var r := Sweep(a, b, x, omega, i, change);
      |r.x| == |x| && Done(r, |x|) <= |x| &&
      forall k :: i <= k < Done(r, |x|) ==>
        a[k][k] != 0.0 && r.x[k] == Relaxed(a, b, Mixed(r.x, x, k), k, omega)
    decreases |x| - i
  {
    SweepFrame(a, b, x, omega, i, change);
    SweepStops(a, b, x, omega, i, change);
    if i < |x| && a[i][i] != 0.0 {
      var r := Sweep(a, b, x, omega, i, change);
      var xi := Relaxed(a, b, x, i, omega);
      var t := Abs(xi - x[i]);
      var x1 := x[i := xi];
      var c1 := if change < t then t else change;
      assert r == Sweep(a, b, x1, omega, i + 1, c1);
      SweepOrder(a, b, x1, omega, i + 1, c1);
      SweepFrame(a, b, x1, omega, i + 1, c1);
      SweepOrderStep(a, b, x, omega, i, xi, r.x, Done(r, |x|));
    }
  }

  /** The step of SweepOrder: row i relaxed from x, and the rows after it
      relaxed in Gauss-Seidel order from x[i := xi]. */
  lemma SweepOrderStep(a: seq<seq<real>>, b: seq<real>, x: seq<real>, omega: real, i: nat, xi: real,
                       updated: seq<real>, done: nat)
    requires IsSquare(a, |x|) && |b| == |x| && |updated| == |x| && i < done <= |x| && a[i][i] != 0.0
    requires xi == Relaxed(a, b, x, i, omega) && updated[i] == xi
    requires forall j :: 0 <= j < i ==> updated[j] == x[j]
    requires forall k :: i + 1 <= k < done ==>
      a[k][k] != 0.0 && updated[k] == Relaxed(a, b, Mixed(updated, x[i := xi], k), k, omega)
    ensures forall k :: i <= k < done ==>
      a[k][k] != 0.0 && updated[k] == Relaxed(a, b, Mixed(updated, x, k), k, omega)
  {
    forall k | i <= k < done
      ensures a[k][k] != 0.0 && updated[k] == Relaxed(a, b, Mixed(updated, x, k), k, omega)
    {
      if k == i {
        MixedPrefix(updated, x, i);
      } else {
        MixedReplaced(updated, x, i, xi, k);
      }
    }
  }

  /** A completed sweep from row i records a change at least as large as
      that of every row it relaxed ... */
  lemma {:induction false} SweepChange(a: seq<seq<real>>, b: seq<real>, x: seq<real>, omega: real, i: nat, change: real)
    requires IsSquare(a, |x|) && |b| == |x| && i <= |x|
    requires Sweep(a, b, x, omega, i, change).Swept?
    ensures var r := Sweep(a, b, x, omega, i, change);
      |r.x| == |x| && r.change >= change &&
      forall k :: i <= k < |x| ==> Abs(r.x[k] - x[k]) <= r.change
    decreases |x| - i
  {
    SweepFrame(a, b, x, omega, i, change);
    if i < |x| {
      var r := Sweep(a, b, x, omega, i, change);
      var xi := Relaxed(a, b, x, i, omega);
      var t := Abs(xi - x[i]);
      var x1 := x[i := xi];
      var c1 := if change < t then t else change;
      assert r == Sweep(a, b, x1, omega, i + 1, c1);
      SweepChange(a, b, x1, omega, i + 1, c1);
      SweepFrame(a, b, x1, omega, i + 1, c1);
      SweepChangeStep(x, i, xi, r.x, c1, r.change);
    }
  }

  /** The step of SweepChange: row i changed by at most c1 <= rc, and the
      rows after it by at most rc from x[i := xi]. */
  lemma SweepChangeStep(x: seq<real>, i: nat, xi: real, updated: seq<real>, c1: real, rc: real)
    requires |updated| == |x| && i < |x| && updated[i] == xi
    requires Abs(xi - x[i]) <= c1 <= rc
    requires forall k :: i + 1 <= k < |x| ==> Abs(updated[k] - x[i := xi][k]) <= rc
    ensures forall k :: i <= k < |x| ==> Abs(updated[k] - x[k]) <= rc
  {
    forall k | i <= k < |x| ensures Abs(updated[k] - x[k]) <= rc {
      if k > i {
        assert x[i := xi][k] == x[k];
      }
    }
  }

  /** ... and that change is the one it started with or the change of one of those rows. */
  lemma {:induction false} SweepChangeAttained(a: seq<seq<real>>, b: seq<real>, x: seq<real>, omega: real, i: nat, change: real)
    requires IsSquare(a, |x|) && |b| == |x| && i <= |x|
    requires Sweep(a, b, x, omega, i, change).Swept?
    ensures var r := Sweep(a, b, x, omega, i, change);
      |r.x| == |x| &&
      (r.change == change || exists k :: i <= k < |x| && r.change == Abs(r.x[k] - x[k]))
    decreases |x| - i
  {
    SweepFrame(a, b, x, omega, i, change);
    if i < |x| {
      var r := Sweep(a, b, x, omega, i, change);
      var xi := Relaxed(a, b, x, i, omega);
      var t := Abs(xi - x[i]);
      var x1 := x[i := xi];
      var c1 := if change < t then t else change;
      assert r == Sweep(a, b, x1, omega, i + 1, c1);
      SweepChangeAttained(a, b, x1, omega, i + 1, c1);
      SweepFrame(a, b, x1, omega, i + 1, c1);
      assert r.x[i] == xi;
      if r.change != c1 {
        var k :| i + 1 <= k < |x| && r.change == Abs(r.x[k] - x1[k]);
        assert x1[k] == x[k];
      } else if c1 != change {
        assert r.change == Abs(r.x[i] - x[i]);
      }
    }
  }

  /** A run that ends in SATISFIED or FAILED ends with a sweep from `before` that produced `x`. */
  lemma {:induction false} SorLastSweep(a: seq<seq<real>>, b: seq<real>, x: seq<real>, epsilon: real, omega: real, sweeps: nat)
    requires IsSquare(a, |x|) && |b| == |x|
    ensures var r := Sor(a, b, x, epsilon, omega, sweeps);
      r.status != SweepLimit ==>
        var s := Sweep(a, b, r.before, omega, 0, 0.0);
        s.x == r.x &&
        (r.status == Satisfied <==> s.Swept? && s.change <= epsilon) &&
        (r.status == Failed <==> s.ZeroPivot?)
    decreases sweeps
  {
    if sweeps > 0 {
      var s := Sweep(a, b, x, omega, 0, 0.0);
      SweepFrame(a, b, x, omega, 0, 0.0);
      if s.Swept? && s.change > epsilon {
        SorLastSweep(a, b, s.x, epsilon, omega, sweeps - 1);
      }
    }
  }

  /** SATISFIED is returned only when no coordinate moved by more than
      epsilon in the last sweep ... */
  lemma SorSatisfiedSmallChange(a: seq<seq<real>>, b: seq<real>, x: seq<real>, epsilon: real, omega: real, sweeps: nat)
    requires IsSquare(a, |x|) && |b| == |x|
    requires Sor(a, b, x, epsilon, omega, sweeps).status == Satisfied
    ensures var r := Sor(a, b, x, epsilon, omega, sweeps);
      forall k :: 0 <= k < |x| ==> Abs(r.x[k] - r.before[k]) <= epsilon
  {
    var r := Sor(a, b, x, epsilon, omega, sweeps);
    SorLastSweep(a, b, x, epsilon, omega, sweeps);
    var s := Sweep(a, b, r.before, omega, 0, 0.0);
    assert s.Swept? && s.x == r.x && s.change <= epsilon;
    SweepChange(a, b, r.before, omega, 0, 0.0);
  }

  /** ... and that sweep relaxed every row in order. */
  lemma SorSatisfiedInOrder(a: seq<seq<real>>, b: seq<real>, x: seq<real>, epsilon: real, omega: real, sweeps: nat)
    requires IsSquare(a, |x|) && |b| == |x|
    requires Sor(a, b, x, epsilon, omega, sweeps).status == Satisfied
    ensures var r := Sor(a, b, x, epsilon, omega, sweeps);
      forall k :: 0 <= k < |x| ==> a[k][k] != 0.0 && r.x[k] == Relaxed(a, b, Mixed(r.x, r.before, k), k, omega)
  {
    var r := Sor(a, b, x, epsilon, omega, sweeps);
    SorLastSweep(a, b, x, epsilon, omega, sweeps);
    var s := Sweep(a, b, r.before, omega, 0, 0.0);
    assert s.Swept? && s.x == r.x;
    SweepOrder(a, b, r.before, omega, 0, 0.0);
    assert Done(s, |x|) == |x|;
  }

  /** FAILED is returned only when some diagonal entry is zero; the rows
      before it were relaxed in the failing sweep and the rest are untouched. */
  lemma SorFailedZeroDiagonal(a: seq<seq<real>>, b: seq<real>, x: seq<real>, epsilon: real, omega: real, sweeps: nat)
    returns (row: nat)
    requires IsSquare(a, |x|) && |b| == |x|
    requires Sor(a, b, x, epsilon, omega, sweeps).status == Failed
    ensures var r := Sor(a, b, x, epsilon, omega, sweeps);
      row < |x| && a[row][row] == 0.0 &&
      (forall k :: row <= k < |x| ==> r.x[k] == r.before[k]) &&
      (forall k :: 0 <= k < row ==> a[k][k] != 0.0 && r.x[k] == Relaxed(a, b, Mixed(r.x, r.before, k), k, omega))
  {
    var r := Sor(a, b, x, epsilon, omega, sweeps);
    SorLastSweep(a, b, x, epsilon, omega, sweeps);
    SweepStops(a, b, r.before, omega, 0, 0.0);
    SweepOrder(a, b, r.before, omega, 0, 0.0);
    row := Sweep(a, b, r.before, omega, 0, 0.0).row;
  }

  /** A matrix with no zero on its diagonal never makes SOR fail. */
  lemma SorNonZeroDiagonal(a: seq<seq<real>>, b: seq<real>, x: seq<real>, epsilon: real, omega: real, sweeps: nat)
    requires IsSquare(a, |x|) && |b| == |x|
    requires forall k :: 0 <= k < |x| ==> a[k][k] != 0.0
    ensures Sor(a, b, x, epsilon, omega, sweeps).status != Failed
  {
    if Sor(a, b, x, epsilon, omega, sweeps).status == Failed {
      var row := SorFailedZeroDiagonal(a, b, x, epsilon, omega, sweeps);
    }
  }

  lemma {:induction false} IdentityRowPrefix(n: nat, i: nat, x: seq<real>, k: nat)
    requires i < n == |x| && k <= i
    ensures SumProd(Identity(n)[i], x, k) == 0.0
  {
    if k > 0 { IdentityRowPrefix(n, i, x, k - 1); }
  }

  lemma {:induction false} IdentityRowSuffix(n: nat, i: nat, x: seq<real>, lo: nat, k: nat)
    requires i < lo <= k <= n == |x|
    ensures SumProdFrom(Identity(n)[i], x, lo, k) == 0.0
    decreases k - lo
  {
    if k > lo { IdentityRowSuffix(n, i, x, lo, k - 1); }
  }

  /** With the identity matrix and omega = 1, a sweep from row i sets rows i.. to b. */
  lemma {:induction false} IdentitySweep(b: seq<real>, x: seq<real>, i: nat, change: real)
    requires |b| == |x| && i <= |x| && change >= 0.0
    ensures var r := Sweep(Identity(|x|), b, x, 1.0, i, change);
      r.Swept? && r.x == Mixed(x, b, i) && (x == b ==> r.change == change)
    decreases |x| - i
  {
    var n := |x|;
    var a := Identity(n);
    if i < n {
      IdentityRowPrefix(n, i, x, i);
      IdentityRowSuffix(n, i, x, i + 1, n);
      assert Relaxed(a, b, x, i, 1.0) == b[i];
      var x1 := x[i := b[i]];
      IdentitySweep(b, x1, i + 1, if change < Abs(b[i] - x[i]) then Abs(b[i] - x[i]) else change);
      assert Mixed(x1, b, i + 1) == Mixed(x, b, i);
    } else {
      assert Mixed(x, b, i) == x;
    }
  }

  /** Gauss-Seidel with the identity matrix, started from x = 0, ends with
      x = b and SATISFIED; at most two sweeps are needed. */
  lemma GaussSeidelIdentity(b: seq<real>, epsilon: real, sweeps: nat)
    requires epsilon >= 0.0 && sweeps >= 2
    ensures var r := Sor(Identity(|b|), b, Zeros(|b|), epsilon, 1.0, sweeps);
      r.status == Satisfied && r.x == b
  {
    var n := |b|;
    IdentitySweep(b, Zeros(n), 0, 0.0);
    assert Mixed(Zeros(n), b, 0) == b;
    IdentitySweep(b, b, 0, 0.0);
    assert Mixed(b, b, 0) == b;
  }

  // ---------------------------------------------------------------------
  // The solver methods.

  /** temp = b[i] - sum_{j < i} a[i][j] x[j] - sum_{j > i} a[i][j] x[j], as the two inner loops compute it. */
  method Residual(a: array2<real>, x: array<real>, b: array<real>, i: nat) returns (temp: real)
    requires a.Length0 == x.Length && a.Length1 == x.Length && b.Length == x.Length && i < x.Length
    ensures temp == OffDiagonalResidual(Rows(a), b[..], x[..], i)
  {
    ghost var m := Rows(a);
    var n := x.Length;
    temp := b[i];
    var j := 0;
    while j < i
      invariant 0 <= j <= i
      invariant temp == b[i] - SumProd(m[i], x[..], j)
    {
      temp := temp - a[i, j] * x[j];
      j := j + 1;
    }
    j := i + 1;
    while j < n
      invariant i + 1 <= j <= n
      invariant temp == b[i] - SumProd(m[i], x[..], i) - SumProdFrom(m[i], x[..], i + 1, j)
    {
      temp := temp - a[i, j] * x[j];
      j := j + 1;
    }
  }

  /** Relaxes row i in place (the diagonal entry is known to be non-zero). */
  method RelaxRow(a: array2<real>, x: array<real>, b: array<real>, i: nat, omega: real)
    requires a.Length0 == x.Length && a.Length1 == x.Length && b.Length == x.Length && i < x.Length
    requires x != b && a[i, i] != 0.0
    modifies x
    ensures x[..] == old(x[..])[i := Relaxed(Rows(a), b[..], old(x[..]), i, omega)]
  {
    ghost var m, bs, prev := Rows(a), b[..], x[..];
    var xOld := x[i];
    var temp := Residual(a, x, b, i);
    assert xOld + omega * (temp / a[i, i] - xOld) == Relaxed(m, bs, prev, i, omega);
    x[i] := xOld + omega * (temp / a[i, i] - xOld);
    assert b[..] == bs;
  }

  /** One pass of the do-while body: rows 0, 1, ... in order, stopping at a zero diagonal. */
  method SweepOnce(a: array2<real>, x: array<real>, b: array<real>, omega: real) returns (ok: bool, norm: real)
    requires a.Length0 == x.Length && a.Length1 == x.Length && b.Length == x.Length
    requires x != b
    modifies x
    ensures var s := Sweep(Rows(a), b[..], old(x[..]), omega, 0, 0.0);
      x[..] == s.x && ok == s.Swept? && (ok ==> norm == s.change)
  {
    ghost var m := Rows(a);
    ghost var bs := b[..];
    var n := x.Length;
    var i := 0;
    norm := 0.0;
    while i < n
      invariant 0 <= i <= n
      invariant Sweep(m, bs, old(x[..]), omega, 0, 0.0) == Sweep(m, bs, x[..], omega, i, norm)
    {
      var xOld := x[i];
      if a[i, i] != 0.0 {
        RelaxRow(a, x, b, i, omega);
      } else {
        return false, norm;
      }
      var t := Abs(x[i] - xOld);
      if norm < t {
        norm := t;
      }
      i := i + 1;
    }
    ok := true;
  }

  method SuccessiveOverRelaxation(a: array2<real>, x: array<real>, b: array<real>, epsilon: real, omega: real, sweeps: nat)
    returns (status: SorStatus)
    requires a.Length0 == x.Length && a.Length1 == x.Length && b.Length == x.Length
    requires x != b
    modifies x
    ensures var r := Sor(Rows(a), b[..], old(x[..]), epsilon, omega, sweeps);
      status == r.status && x[..] == r.x
  {
    ghost var m := Rows(a);
    ghost var bs := b[..];
    var left := sweeps;
    while left > 0
      invariant Sor(m, bs, old(x[..]), epsilon, omega, sweeps) == Sor(m, bs, x[..], epsilon, omega, left)
    {
      var ok, norm := SweepOnce(a, x, b, omega);
      if !ok {
        return Failed;
      }
      if !(norm > epsilon) {
        return Satisfied;
      }
      left := left - 1;
    }
    return SweepLimit;
  }

  /** gauss_seidel is SOR with omega = 1. */
  method GaussSeidel(a: array2<real>, x: array<real>, b: array<real>, epsilon: real, sweeps: nat)
    returns (status: SorStatus)
    requires a.Length0 == x.Length && a.Length1 == x.Length && b.Length == x.Length
    requires x != b
    modifies x
    ensures var r := Sor(Rows(a), b[..], old(x[..]), epsilon, 1.0, sweeps);
      status == r.status && x[..] == r.x
  {
    status := SuccessiveOverRelaxation(a, x, b, epsilon, 1.0, sweeps);
  }
}
