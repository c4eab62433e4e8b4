// src/myvector.c: copy_vector, dot_product, zero_vector, update_step_vector
// and norm_infty.  A vector is an array whose length is the C code's n.
// vector_delete only frees memory and is not modelled.
module MyVector {
  import opened Vectors

  method CopyVector(x: array<real>, y: array<real>)
    requires x.Length == y.Length
    modifies x
    ensures x[..] == old(y[..])
  {
    var i := 0;
    while i < x.Length
      invariant 0 <= i <= x.Length
      invariant y[..] == old(y[..])
      invariant forall k :: 0 <= k < i ==> x[k] == y[k]
    {
      x[i] := y[i];
      i := i + 1;
    }
  }

  /** Reads x[0] and y[0] before the loop, so the vectors must not be empty. */
  method DotProduct(x: array<real>, y: array<real>) returns (dot: real)
    requires 1 <= x.Length == y.Length
    ensures dot == Dot(x[..], y[..])
  {
    dot := x[0] * y[0];
    var i := 1;
    while i < x.Length
      invariant 1 <= i <= x.Length
      invariant dot == SumProd(x[..], y[..], i)
    {
      dot := dot + x[i] * y[i];
      i := i + 1;
    }
  }

  method ZeroVector(x: array<real>)
    modifies x
    ensures x[..] == Zeros(x.Length)
  {
    var i := 0;
    while i < x.Length
      invariant 0 <= i <= x.Length
      invariant forall k :: 0 <= k < i ==> x[k] == 0.0
    {
      x[i] := 0.0;
      i := i + 1;
    }
  }

  /** x_temp := x + alpha * y.  Each entry reads only its own index, so the
      result is the same when x_temp shares storage with x or y. */
  method UpdateStepVector(xTemp: array<real>, x: array<real>, alpha: real, y: array<real>)
    requires xTemp.Length == x.Length == y.Length
    modifies xTemp
    ensures xTemp[..] == Step(old(x[..]), alpha, old(y[..]))
  {
    var i := 0;
    while i < x.Length
      invariant 0 <= i <= x.Length
      invariant forall k :: 0 <= k < i ==> xTemp[k] == old(x[k]) + alpha * old(y[k])
      invariant forall k :: i <= k < x.Length ==> x[k] == old(x[k]) && y[k] == old(y[k])
    {
      var v := x[i] + alpha * y[i];
      assert v == old(x[i]) + alpha * old(y[i]);
      xTemp[i] := v;
      i := i + 1;
    }
    ghost var ox, oy := old(x[..]), old(y[..]);
    assert forall k :: 0 <= k < x.Length ==> xTemp[..][k] == Step(ox, alpha, oy)[k];
  }

  method NormInfty(x: array<real>) returns (norm: real)
    requires x.Length >= 1
    ensures norm == NormInf(x[..])
  {
    norm := Abs(x[0]);
    var i := 1;
    while i < x.Length
      invariant 1 <= i <= x.Length
      invariant norm == MaxAbs(x[..], i)
    {
      var fabsX := Abs(x[i]);
      if fabsX > norm {
        norm := fabsX;
      }
      i := i + 1;
    }
  }
}
