// Matrices as sequences of rows.  The C code passes an n x n matrix as
// `double **`; the model stores it in an `array2<real>` and reasons about
// its rows through Rows.
module Matrices {
  import opened Vectors

  predicate IsSquare(m: seq<seq<real>>, n: nat)
  {
    |m| == n && forall i :: 0 <= i < n ==> |m[i]| == n
  }

  ghost function Rows(a: array2<real>): (m: seq<seq<real>>)
    reads a
    ensures |m| == a.Length0
    ensures forall i :: 0 <= i < a.Length0 ==> |m[i]| == a.Length1
    ensures forall i, j :: 0 <= i < a.Length0 && 0 <= j < a.Length1 ==> m[i][j] == a[i, j]
  {
    seq(a.Length0, i requires 0 <= i < a.Length0 reads a =>
      seq(a.Length1, j requires 0 <= j < a.Length1 reads a => a[i, j]))
  }

  function Identity(n: nat): (m: seq<seq<real>>)
    ensures IsSquare(m, n)
  {
    seq(n, i => seq(n, j => if i == j then 1.0 else 0.0))
  }

  function ZeroMatrix(n: nat): (m: seq<seq<real>>)
    ensures IsSquare(m, n)
  {
    seq(n, i => Zeros(n))
  }

  predicate Symmetric(m: seq<seq<real>>, n: nat)
    requires IsSquare(m, n)
  {
    forall i, j :: 0 <= i < n && 0 <= j < n ==> m[i][j] == m[j][i]
  }

  /** (m v)_i = sum_j m_ij v_j */
  function MatVec(m: seq<seq<real>>, v: seq<real>): (r: seq<real>)
    requires IsSquare(m, |v|)
    ensures |r| == |v|
  {
    seq(|v|, i requires 0 <= i < |v| => Dot(m[i], v))
  }

  /** Row i of the identity picks out component i. */
  lemma {:induction false} IdentityRowSum(n: nat, i: nat, v: seq<real>, k: nat)
    requires i < n == |v| && k <= n
    ensures SumProd(Identity(n)[i], v, k) == if i < k then v[i] else 0.0
  {
    if k > 0 { IdentityRowSum(n, i, v, k - 1); }
  }

  lemma IdentityMatVec(v: seq<real>)
    ensures MatVec(Identity(|v|), v) == v
  {
    forall i | 0 <= i < |v| ensures MatVec(Identity(|v|), v)[i] == v[i] {
      IdentityRowSum(|v|, i, v, |v|);
    }
  }

  lemma IdentitySymmetric(n: nat)
    ensures Symmetric(Identity(n), n)
  {
  }
}
