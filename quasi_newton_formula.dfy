// The two BFGS formulas of src/quasi_newton.c (and their copies in
// src/quasi_newton_bfgs.c): a direction search d from the matrix and the
// gradient, and an in-place update of the matrix from s = x_{k+1} - x_k and
// y = g_{k+1} - g_k.  The H formula keeps an approximation H of the inverse
// Hessian and takes d = -H g; the B formula keeps an approximation B of the
// Hessian and solves B d = -g by successive over-relaxation.
module QuasiNewtonFormula {
  import opened Vectors
  import opened Matrices
  import MyMath

  datatype Formula = BFormula | HFormula

  /** set_quasi_newton_formula: 'b' or 'B' selects the B formula, every other letter the H formula. */
  function SelectFormula(letter: char): Formula
  {
    if letter == 'b' || letter == 'B' then BFormula else HFormula
  }

  lemma SelectFormulaCases(letter: char)
    ensures SelectFormula(letter) == BFormula <==> letter == 'b' || letter == 'B'
    ensures SelectFormula('h') == HFormula && SelectFormula('H') == HFormula
  {
  }

  /** The tolerance and relaxation factor the B formula passes to successive_over_relaxation. */
  const SorEpsilon: real := 0.0000001
  const SorOmega: real := 0.5

  // ---------------------------------------------------------------------
  // Direction search

  /** d = -H g */
  function HDirection(h: seq<seq<real>>, g: seq<real>): (d: seq<real>)
    requires IsSquare(h, |g|)
    ensures |d| == |g|
  {
    Neg(MatVec(h, g))
  }

  /** B d = -g solved by SOR from the previous direction. */
  function BDirection(b: seq<seq<real>>, g: seq<real>, d: seq<real>, sweeps: nat): MyMath.SorResult
    requires IsSquare(b, |g|) && |d| == |g|
  {
    MyMath.Sor(b, Neg(g), d, SorEpsilon, SorOmega, sweeps)
  }

  /** A positive definite matrix: v . (m v) > 0 for every non-zero v. */
  ghost predicate PositiveDefinite(m: seq<seq<real>>, n: nat)
    requires IsSquare(m, n)
  {
    forall v: seq<real> :: |v| == n && v != Zeros(n) ==> Dot(v, MatVec(m, v)) > 0.0
  }

  /** With the identity, the H formula's direction is steepest descent. */
  lemma HDirectionIdentity(g: seq<real>)
    ensures HDirection(Identity(|g|), g) == Neg(g)
  {
    IdentityMatVec(g);
  }

  /** With the zero matrix, the H formula's direction is zero. */
  lemma HDirectionZero(g: seq<real>)
    ensures HDirection(ZeroMatrix(|g|), g) == Zeros(|g|)
  {
    forall i | 0 <= i < |g| ensures HDirection(ZeroMatrix(|g|), g)[i] == 0.0 {
      SumProdZero(g, |g|);
    }
  }

  /** A positive definite H makes d = -H g a descent direction: g . d < 0 unless g = 0. */
  lemma HDirectionDescent(h: seq<seq<real>>, g: seq<real>)
    requires IsSquare(h, |g|) && PositiveDefinite(h, |g|) && g != Zeros(|g|)
    ensures Dot(g, HDirection(h, g)) < 0.0
  {
    SumProdNeg(g, MatVec(h, g), |g|);
  }

  /** With the zero matrix, the B formula's SOR meets a zero pivot in row 0 and fails. */
  lemma BDirectionZeroFails(g: seq<real>, d: seq<real>, sweeps: nat)
    requires |g| >= 1 && |d| == |g| && sweeps >= 1
    ensures BDirection(ZeroMatrix(|g|), g, d, sweeps).status == MyMath.Failed
    ensures BDirection(ZeroMatrix(|g|), g, d, sweeps).x == d
  {
  }

  // ---------------------------------------------------------------------
  // Matrix update

  /** NON_LINEAR_SATISFIED (the matrix was updated) and NON_LINEAR_NOT_UPDATE
      (s . y <= 0).  ZeroCurvature is the model's outcome for the B formula
      with s . y > 0 and s . B s == 0, where the code divides by zero. */
  datatype UpdateStatus = Updated | NotUpdated | ZeroCurvature

  /** The new matrix and what the update leaves in its work vector (H y or B s). */
  datatype Update = Update(status: UpdateStatus, m: seq<seq<real>>, work: seq<real>)

  /** One cell of the H update, with hy = H y, sy = s . y and yhy = y . H y. */
  function HEntry(hij: real, si: real, sj: real, hyi: real, hyj: real, sy: real, yhy: real): real
    requires sy != 0.0
  {
    hij + (-(hyi * sj + si * hyj) / sy + (1.0 + yhy / sy) * si * sj / sy)
  }

  /** One cell of the B update, with bs = B s, sbs = s . B s and sy = s . y. */
  function BEntry(bij: real, bsi: real, bsj: real, yi: real, yj: real, sbs: real, sy: real): real
    requires sbs != 0.0 && sy != 0.0
  {
    bij + (-bsi * bsj / sbs + yi * yj / sy)
  }

  /** update_matrix_bfgs_H_formula: H y first; the rank-two update only when s . y > 0. */
  function HUpdate(h: seq<seq<real>>, s: seq<real>, y: seq<real>): (u: Update)
    requires |y| == |s| && IsSquare(h, |s|)
    ensures IsSquare(u.m, |s|) && |u.work| == |s|
  {
    var n := |s|;
    var hy := MatVec(h, y);
    var sy := Dot(s, y);
    var yhy := Dot(y, hy);
    if sy > 0.0 then
      Update(Updated, seq(n, i requires 0 <= i < n => seq(n, j requires 0 <= j < n =>
        HEntry(h[i][j], s[i], s[j], hy[i], hy[j], sy, yhy))), hy)
    else Update(NotUpdated, h, hy)
  }

  /** update_matrix_bfgs_B_formula: B s first; the rank-two update only when s . y > 0. */
  function BUpdate(b: seq<seq<real>>, s: seq<real>, y: seq<real>): (u: Update)
    requires |y| == |s| && IsSquare(b, |s|)
    ensures IsSquare(u.m, |s|) && |u.work| == |s|
  {
    var n := |s|;
    var bs := MatVec(b, s);
    var sbs := Dot(s, bs);
    var sy := Dot(s, y);
    if sy > 0.0 then
      if sbs == 0.0 then Update(ZeroCurvature, b, bs)
      else
        Update(Updated, seq(n, i requires 0 <= i < n => seq(n, j requires 0 <= j < n =>
          BEntry(b[i][j], bs[i], bs[j], y[i], y[j], sbs, sy))), bs)
    else Update(NotUpdated, b, bs)
  }

  function UpdateFor(formula: Formula, m: seq<seq<real>>, s: seq<real>, y: seq<real>): (u: Update)
    requires |y| == |s| && IsSquare(m, |s|)
    ensures IsSquare(u.m, |s|) && |u.work| == |s|
  {
    match formula
    case HFormula => HUpdate(m, s, y)
    case BFormula => BUpdate(m, s, y)
  }

  /** The H update happens exactly when the curvature s . y is positive;
      otherwise the matrix is left as it was. */
  lemma HUpdateWhen(h: seq<seq<real>>, s: seq<real>, y: seq<real>)
    requires |y| == |s| && IsSquare(h, |s|)
    ensures HUpdate(h, s, y).status == Updated <==> Dot(s, y) > 0.0
    ensures HUpdate(h, s, y).status != Updated ==> HUpdate(h, s, y).status == NotUpdated && HUpdate(h, s, y).m == h
    ensures HUpdate(h, s, y).work == MatVec(h, y)
  {
  }

  /** The B update happens exactly when s . y > 0 and s . B s != 0; otherwise
      the matrix is left as it was. */
  lemma BUpdateWhen(b: seq<seq<real>>, s: seq<real>, y: seq<real>)
    requires |y| == |s| && IsSquare(b, |s|)
    ensures BUpdate(b, s, y).status == Updated <==> Dot(s, y) > 0.0 && Dot(s, MatVec(b, s)) != 0.0
    ensures BUpdate(b, s, y).status == NotUpdated <==> Dot(s, y) <= 0.0
    ensures BUpdate(b, s, y).status != Updated ==> BUpdate(b, s, y).m == b
    ensures BUpdate(b, s, y).work == MatVec(b, s)
  {
  }

  // ---------------------------------------------------------------------
  // The secant equations

  /** x + c1 z1 + c2 z2, dotted with y, splits into three dot products. */
  lemma StepStepDot(x: seq<real>, c1: real, z1: seq<real>, c2: real, z2: seq<real>, y: seq<real>)
    requires |z1| == |x| && |z2| == |x| && |y| == |x|
    ensures Dot(Step(Step(x, c1, z1), c2, z2), y) == Dot(x, y) + Times(c1, Dot(z1, y)) + Times(c2, Dot(z2, y))
  {
    SumProdLinear(Step(x, c1, z1), c2, z2, y, |x|);
    SumProdLinear(x, c1, z1, y, |x|);
  }

  /** A cell of the H update as H_ij + c1 s_j + c2 (H y)_j. */
  lemma HEntrySplit(hij: real, si: real, sj: real, hyi: real, hyj: real, sy: real, yhy: real, c1: real, c2: real)
    requires sy != 0.0
    requires c1 == -hyi / sy + (1.0 + yhy / sy) * si / sy && c2 == -si / sy
    ensures HEntry(hij, si, sj, hyi, hyj, sy, yhy) == hij + c1 * sj + c2 * hyj
  {
  }

  lemma HSecantScalar(hyi: real, si: real, sy: real, yhy: real, c1: real, c2: real)
    requires sy != 0.0
    requires c1 == -hyi / sy + (1.0 + yhy / sy) * si / sy && c2 == -si / sy
    ensures hyi + Times(c1, sy) + Times(c2, yhy) == si
  {
    calc {
      hyi + Times(c1, sy) + Times(c2, yhy);
      hyi + (-hyi / sy + (1.0 + yhy / sy) * si / sy) * sy + (-si / sy) * yhy;
      hyi - hyi + (1.0 + yhy / sy) * si - si * yhy / sy;
      si;
    }
  }

  /** Row i of the updated H is H_i + c1 s + c2 H y. */
  lemma HRow(h: seq<seq<real>>, s: seq<real>, y: seq<real>, i: nat, c1: real, c2: real)
    requires |y| == |s| && IsSquare(h, |s|) && i < |s|
    requires HUpdate(h, s, y).status == Updated
    requires c1 == -MatVec(h, y)[i] / Dot(s, y) + (1.0 + Dot(y, MatVec(h, y)) / Dot(s, y)) * s[i] / Dot(s, y)
    requires c2 == -s[i] / Dot(s, y)
    ensures HUpdate(h, s, y).m[i] == Step(Step(h[i], c1, s), c2, MatVec(h, y))
  {
    var hy := MatVec(h, y);
    var row := Step(Step(h[i], c1, s), c2, hy);
    forall j | 0 <= j < |s| ensures HUpdate(h, s, y).m[i][j] == row[j] {
      HEntrySplit(h[i][j], s[i], s[j], hy[i], hy[j], Dot(s, y), Dot(y, hy), c1, c2);
    }
  }

  /** Row i of the updated H applied to y gives s_i. */
  lemma HSecantRow(h: seq<seq<real>>, s: seq<real>, y: seq<real>, i: nat)
    requires |y| == |s| && IsSquare(h, |s|) && i < |s|
    requires HUpdate(h, s, y).status == Updated
    ensures Dot(HUpdate(h, s, y).m[i], y) == s[i]
  {
    var hy := MatVec(h, y);
    var sy := Dot(s, y);
    var yhy := Dot(y, hy);
    var c1 := -hy[i] / sy + (1.0 + yhy / sy) * s[i] / sy;
    var c2 := -s[i] / sy;
    HRow(h, s, y, i, c1, c2);
    HRowSecant(h[i], s, y, hy, i, c1, c2);
  }

  /** A row H_i + c1 s + c2 H y with those coefficients maps y to s_i. */
  lemma HRowSecant(hi: seq<real>, s: seq<real>, y: seq<real>, hy: seq<real>, i: nat, c1: real, c2: real)
    requires |hi| == |s| && |y| == |s| && |hy| == |s| && i < |s|
    requires hy[i] == Dot(hi, y) && Dot(s, y) != 0.0
    requires c1 == -hy[i] / Dot(s, y) + (1.0 + Dot(y, hy) / Dot(s, y)) * s[i] / Dot(s, y)
    requires c2 == -s[i] / Dot(s, y)
    ensures Dot(Step(Step(hi, c1, s), c2, hy), y) == s[i]
  {
    StepStepDot(hi, c1, s, c2, hy, y);
    SumProdSymmetric(hy, y, |s|);
    HSecantScalar(hy[i], s[i], Dot(s, y), Dot(y, hy), c1, c2);
  }

  /** The updated H maps y to s: H' y = s. */
  lemma HSecant(h: seq<seq<real>>, s: seq<real>, y: seq<real>)
    requires |y| == |s| && IsSquare(h, |s|)
    requires HUpdate(h, s, y).status == Updated
    ensures MatVec(HUpdate(h, s, y).m, y) == s
  {
    forall i | 0 <= i < |s| ensures MatVec(HUpdate(h, s, y).m, y)[i] == s[i] {
      HSecantRow(h, s, y, i);
    }
  }

  /** A cell of the B update as B_ij + c1 (B s)_j + c2 y_j. */
  lemma BEntrySplit(bij: real, bsi: real, bsj: real, yi: real, yj: real, sbs: real, sy: real, c1: real, c2: real)
    requires sbs != 0.0 && sy != 0.0
    requires c1 == -bsi / sbs && c2 == yi / sy
    ensures BEntry(bij, bsi, bsj, yi, yj, sbs, sy) == bij + c1 * bsj + c2 * yj
  {
  }

  lemma BSecantScalar(bsi: real, yi: real, sbs: real, sy: real, c1: real, c2: real)
    requires sbs != 0.0 && sy != 0.0
    requires c1 == -bsi / sbs && c2 == yi / sy
    ensures bsi + Times(c1, sbs) + Times(c2, sy) == yi
  {
  }

  /** Row i of the updated B is B_i + c1 B s + c2 y. */
  lemma BRow(b: seq<seq<real>>, s: seq<real>, y: seq<real>, i: nat, c1: real, c2: real)
    requires |y| == |s| && IsSquare(b, |s|) && i < |s|
    requires BUpdate(b, s, y).status == Updated
    requires c1 == -MatVec(b, s)[i] / Dot(s, MatVec(b, s)) && c2 == y[i] / Dot(s, y)
    ensures BUpdate(b, s, y).m[i] == Step(Step(b[i], c1, MatVec(b, s)), c2, y)
  {
    var bs := MatVec(b, s);
    var row := Step(Step(b[i], c1, bs), c2, y);
    forall j | 0 <= j < |s| ensures BUpdate(b, s, y).m[i][j] == row[j] {
      BEntrySplit(b[i][j], bs[i], bs[j], y[i], y[j], Dot(s, bs), Dot(s, y), c1, c2);
    }
  }

  /** Row i of the updated B applied to s gives y_i. */
  lemma BSecantRow(b: seq<seq<real>>, s: seq<real>, y: seq<real>, i: nat)
    requires |y| == |s| && IsSquare(b, |s|) && i < |s|
    requires BUpdate(b, s, y).status == Updated
    ensures Dot(BUpdate(b, s, y).m[i], s) == y[i]
  {
    var bs := MatVec(b, s);
    var sbs := Dot(s, bs);
    var sy := Dot(s, y);
    var c1 := -bs[i] / sbs;
    var c2 := y[i] / sy;
    BRow(b, s, y, i, c1, c2);
    StepStepDot(b[i], c1, bs, c2, y, s);
    SumProdSymmetric(bs, s, |s|);
    SumProdSymmetric(y, s, |s|);
    BSecantScalar(bs[i], y[i], sbs, sy, c1, c2);
  }

  /** The updated B maps s to y: B' s = y. */
  lemma BSecant(b: seq<seq<real>>, s: seq<real>, y: seq<real>)
    requires |y| == |s| && IsSquare(b, |s|)
    requires BUpdate(b, s, y).status == Updated
    ensures MatVec(BUpdate(b, s, y).m, s) == y
  {
    forall i | 0 <= i < |s| ensures MatVec(BUpdate(b, s, y).m, s)[i] == y[i] {
      BSecantRow(b, s, y, i);
    }
  }

  /** Both updates keep a symmetric matrix symmetric. */
  lemma UpdateSymmetric(formula: Formula, m: seq<seq<real>>, s: seq<real>, y: seq<real>)
    requires |y| == |s| && IsSquare(m, |s|) && Symmetric(m, |s|)
    ensures Symmetric(UpdateFor(formula, m, s, y).m, |s|)
  {
    var n := |s|;
    var u := UpdateFor(formula, m, s, y);
    if u.status == Updated {
      forall i, j | 0 <= i < n && 0 <= j < n ensures u.m[i][j] == u.m[j][i] {
        match formula
        case HFormula =>
          var hy := MatVec(m, y);
          var sy := Dot(s, y);
          var yhy := Dot(y, hy);
          assert u.m[i][j] == HEntry(m[i][j], s[i], s[j], hy[i], hy[j], sy, yhy);
          assert u.m[j][i] == HEntry(m[j][i], s[j], s[i], hy[j], hy[i], sy, yhy);
        case BFormula =>
          var bs := MatVec(m, s);
          var sbs := Dot(s, bs);
          var sy := Dot(s, y);
          assert u.m[i][j] == BEntry(m[i][j], bs[i], bs[j], y[i], y[j], sbs, sy);
          assert u.m[j][i] == BEntry(m[j][i], bs[j], bs[i], y[j], y[i], sbs, sy);
      }
    }
  }

  // ---------------------------------------------------------------------
  // The methods

  /** direction_search_bfgs_H_formula: row by row, Hg = 0 - H_i0 g_0 - H_i1 g_1 - ... */
  method DirectionSearchH(d: array<real>, h: array2<real>, g: array<real>)
    requires h.Length0 == g.Length && h.Length1 == g.Length && d.Length == g.Length && d != g
    modifies d
    ensures d[..] == HDirection(Rows(h), g[..])
  {
    var n := g.Length;
    var i := 0;
    while i < n
      invariant 0 <= i <= n
      invariant forall k :: 0 <= k < i ==> d[k] == -Dot(Rows(h)[k], g[..])
    {
      var hg := 0.0;
      var j := 0;
      while j < n
        invariant 0 <= j <= n
        invariant hg == -SumProd(Rows(h)[i], g[..], j)
      {
        hg := hg - h[i, j] * g[j];
        j := j + 1;
      }
      d[i] := hg;
      i := i + 1;
    }
    assert forall k :: 0 <= k < n ==> d[..][k] == HDirection(Rows(h), g[..])[k];
  }

  method Negate(g: array<real>)
    modifies g
    ensures g[..] == Neg(old(g[..]))
  {
    var i := 0;
    while i < g.Length
      invariant 0 <= i <= g.Length
      invariant forall k :: 0 <= k < i ==> g[k] == -old(g[k])
      invariant forall k :: i <= k < g.Length ==> g[k] == old(g[k])
    {
      g[i] := -g[i];
      i := i + 1;
    }
  }

  /** direction_search_bfgs_B_formula: negate g, solve B d = g by SOR
      starting from the d already in place, negate g back. */
  method DirectionSearchB(d: array<real>, b: array2<real>, g: array<real>, sweeps: nat) returns (status: MyMath.SorStatus)
    requires b.Length0 == g.Length && b.Length1 == g.Length && d.Length == g.Length && d != g
    modifies d, g
    ensures g[..] == old(g[..])
    ensures var r := BDirection(Rows(b), old(g[..]), old(d[..]), sweeps); status == r.status && d[..] == r.x
  {
    Negate(g);
    status := MyMath.SuccessiveOverRelaxation(b, d, g, SorEpsilon, SorOmega, sweeps);
    Negate(g);
    assert g[..] == old(g[..]);
  }

  /** w := m v, one row at a time (the first loop of both updates). */
  method MatVecInto(w: array<real>, m: array2<real>, v: array<real>)
    requires m.Length0 == v.Length && m.Length1 == v.Length && w.Length == v.Length && w != v
    modifies w
    ensures w[..] == MatVec(Rows(m), v[..])
  {
    var n := v.Length;
    var i := 0;
    while i < n
      invariant 0 <= i <= n
      invariant forall k :: 0 <= k < i ==> w[k] == Dot(Rows(m)[k], v[..])
    {
      var wi := 0.0;
      var j := 0;
      while j < n
        invariant 0 <= j <= n
        invariant wi == SumProd(Rows(m)[i], v[..], j)
      {
        wi := wi + m[i, j] * v[j];
        j := j + 1;
      }
      w[i] := wi;
      i := i + 1;
    }
    assert forall k :: 0 <= k < n ==> w[..][k] == MatVec(Rows(m), v[..])[k];
  }

  /** The second loop of both updates: two dot products seeded with entry 0. */
  method TwoDots(a: array<real>, b: array<real>, c: array<real>, e: array<real>) returns (ab: real, ce: real)
    requires 1 <= a.Length && b.Length == a.Length && c.Length == a.Length && e.Length == a.Length
    ensures ab == Dot(a[..], b[..]) && ce == Dot(c[..], e[..])
  {
    ab := a[0] * b[0];
    ce := c[0] * e[0];
    var i := 1;
    while i < a.Length
      invariant 1 <= i <= a.Length
      invariant ab == SumProd(a[..], b[..], i) && ce == SumProd(c[..], e[..], i)
    {
      ab := ab + a[i] * b[i];
      ce := ce + c[i] * e[i];
      i := i + 1;
    }
  }

  /** The third loop of the H update: every cell H_ij gains its rank-two increment. */
  method AddHIncrement(h: array2<real>, s: array<real>, hy: array<real>, sy: real, yHy: real)
    requires h.Length0 == s.Length && h.Length1 == s.Length && hy.Length == s.Length && sy != 0.0
    modifies h
    ensures forall r, c :: 0 <= r < s.Length && 0 <= c < s.Length ==>
      h[r, c] == HEntry(old(h[r, c]), s[r], s[c], hy[r], hy[c], sy, yHy)
  {
    var n := s.Length;
    var i := 0;
    while i < n
      invariant 0 <= i <= n
      invariant forall r, c :: 0 <= r < i && 0 <= c < n ==> h[r, c] == HEntry(old(h[r, c]), s[r], s[c], hy[r], hy[c], sy, yHy)
      invariant forall r, c :: i <= r < n && 0 <= c < n ==> h[r, c] == old(h[r, c])
    {
      var j := 0;
      while j < n
        invariant 0 <= j <= n
        invariant forall r, c :: 0 <= r < i && 0 <= c < n ==> h[r, c] == HEntry(old(h[r, c]), s[r], s[c], hy[r], hy[c], sy, yHy)
        invariant forall c :: 0 <= c < j ==> h[i, c] == HEntry(old(h[i, c]), s[i], s[c], hy[i], hy[c], sy, yHy)
        invariant forall r, c :: 0 <= r < n && 0 <= c < n && (i < r || (r == i && j <= c)) ==> h[r, c] == old(h[r, c])
      {
        h[i, j] := HEntry(h[i, j], s[i], s[j], hy[i], hy[j], sy, yHy);
        j := j + 1;
      }
      i := i + 1;
    }
  }

  /** update_matrix_bfgs_H_formula, with Hy written into the work vector. */
  method UpdateMatrixH(h: array2<real>, s: array<real>, y: array<real>, hy: array<real>) returns (status: UpdateStatus)
    requires 1 <= s.Length && y.Length == s.Length && hy.Length == s.Length
    requires h.Length0 == s.Length && h.Length1 == s.Length
    requires hy != s && hy != y
    modifies h, hy
    ensures var u := HUpdate(old(Rows(h)), s[..], y[..]);
      status == u.status && Rows(h) == u.m && hy[..] == u.work
  {
    ghost var h0 := Rows(h);
    var n := s.Length;
    MatVecInto(hy, h, y);
    var yHy, sy := TwoDots(y, hy, s, y);
    if sy > 0.0 {
      AddHIncrement(h, s, hy, sy, yHy);
      ghost var u := HUpdate(h0, s[..], y[..]);
      forall r | 0 <= r < n ensures Rows(h)[r] == u.m[r] {
        assert forall c :: 0 <= c < n ==> Rows(h)[r][c] == u.m[r][c];
      }
      status := Updated;
    } else {
      status := NotUpdated;
    }
  }

  /** The third loop of the B update: every cell B_ij gains its rank-two increment. */
  method AddBIncrement(b: array2<real>, bs: array<real>, y: array<real>, sBs: real, sy: real)
    requires b.Length0 == y.Length && b.Length1 == y.Length && bs.Length == y.Length && sBs != 0.0 && sy != 0.0
    modifies b
    ensures forall r, c :: 0 <= r < y.Length && 0 <= c < y.Length ==>
      b[r, c] == BEntry(old(b[r, c]), bs[r], bs[c], y[r], y[c], sBs, sy)
  {
    var n := y.Length;
    var i := 0;
    while i < n
      invariant 0 <= i <= n
      invariant forall r, c :: 0 <= r < i && 0 <= c < n ==> b[r, c] == BEntry(old(b[r, c]), bs[r], bs[c], y[r], y[c], sBs, sy)
      invariant forall r, c :: i <= r < n && 0 <= c < n ==> b[r, c] == old(b[r, c])
    {
      var j := 0;
      while j < n
        invariant 0 <= j <= n
        invariant forall r, c :: 0 <= r < i && 0 <= c < n ==> b[r, c] == BEntry(old(b[r, c]), bs[r], bs[c], y[r], y[c], sBs, sy)
        invariant forall c :: 0 <= c < j ==> b[i, c] == BEntry(old(b[i, c]), bs[i], bs[c], y[i], y[c], sBs, sy)
        invariant forall r, c :: 0 <= r < n && 0 <= c < n && (i < r || (r == i && j <= c)) ==> b[r, c] == old(b[r, c])
      {
        b[i, j] := BEntry(b[i, j], bs[i], bs[j], y[i], y[j], sBs, sy);
        j := j + 1;
      }
      i := i + 1;
    }
  }

  /** update_matrix_bfgs_B_formula, with Bs written into the work vector. */
  method UpdateMatrixB(b: array2<real>, s: array<real>, y: array<real>, bs: array<real>) returns (status: UpdateStatus)
    requires 1 <= s.Length && y.Length == s.Length && bs.Length == s.Length
    requires b.Length0 == s.Length && b.Length1 == s.Length
    requires bs != s && bs != y
    modifies b, bs
    ensures var u := BUpdate(old(Rows(b)), s[..], y[..]);
      status == u.status && Rows(b) == u.m && bs[..] == u.work
  {
    ghost var b0 := Rows(b);
    var n := s.Length;
    MatVecInto(bs, b, s);
    var sBs, sy := TwoDots(s, bs, s, y);
    if sy > 0.0 {
      if sBs == 0.0 {
        return ZeroCurvature;
      }
      AddBIncrement(b, bs, y, sBs, sy);
      ghost var u := BUpdate(b0, s[..], y[..]);
      forall r | 0 <= r < n ensures Rows(b)[r] == u.m[r] {
        assert forall c :: 0 <= c < n ==> Rows(b)[r][c] == u.m[r][c];
      }
      status := Updated;
    } else {
      status := NotUpdated;
    }
  }
}
