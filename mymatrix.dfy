// src/mymatrix.c: identity_matrix.  matrix_delete only frees memory and is
// not modelled.
module MyMatrix {
  import opened Matrices

  /** Overwrites the leading n x n block of a with the identity, row by row:
      the diagonal cell first, then the cells left of it, then those right of it. */
  method IdentityMatrix(a: array2<real>, n: nat)
    requires n <= a.Length0 && n <= a.Length1
    modifies a
    ensures forall i, j :: 0 <= i < n && 0 <= j < n ==> a[i, j] == (if i == j then 1.0 else 0.0)
    ensures forall i, j :: 0 <= i < a.Length0 && 0 <= j < a.Length1 && (n <= i || n <= j) ==> a[i, j] == old(a[i, j])
    ensures n == a.Length0 == a.Length1 ==> Rows(a) == Identity(n)
  {
    var i := 0;
    while i < n
      invariant 0 <= i <= n
      invariant forall r, c :: 0 <= r < i && 0 <= c < n ==> a[r, c] == (if r == c then 1.0 else 0.0)
      invariant forall r, c :: 0 <= r < a.Length0 && 0 <= c < a.Length1 && (i <= r || n <= c) ==> a[r, c] == old(a[r, c])
    {
      a[i, i] := 1.0;
      var j := 0;
      while j < i
        invariant 0 <= j <= i
        invariant forall r, c :: 0 <= r < i && 0 <= c < n ==> a[r, c] == (if r == c then 1.0 else 0.0)
        invariant a[i, i] == 1.0 && forall c :: 0 <= c < j ==> a[i, c] == 0.0
        invariant forall r, c :: 0 <= r < a.Length0 && 0 <= c < a.Length1 && (i < r || n <= c || (r == i && j <= c && c != i)) ==> a[r, c] == old(a[r, c])
      {
        a[i, j] := 0.0;
        j := j + 1;
      }
      j := i + 1;
      while j < n
        invariant i + 1 <= j <= n
        invariant forall r, c :: 0 <= r < i && 0 <= c < n ==> a[r, c] == (if r == c then 1.0 else 0.0)
        invariant a[i, i] == 1.0 && forall c :: 0 <= c < j && c != i ==> a[i, c] == 0.0
        invariant forall r, c :: 0 <= r < a.Length0 && 0 <= c < a.Length1 && (i < r || n <= c || (r == i && j <= c)) ==> a[r, c] == old(a[r, c])
      {
        a[i, j] := 0.0;
        j := j + 1;
      }
      i := i + 1;
    }
    if n == a.Length0 == a.Length1 {
      forall r | 0 <= r < n ensures Rows(a)[r] == Identity(n)[r] {
        assert forall c :: 0 <= c < n ==> Rows(a)[r][c] == Identity(n)[r][c];
      }
    }
  }
}
