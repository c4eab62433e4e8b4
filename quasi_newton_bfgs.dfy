// src/quasi_newton_bfgs.c: quasi_newton_bfgs, default_quasi_newton_bfgs_parameter
// and set_bfgs_formula.  The loop and the two formulas are those of
// src/quasi_newton.c (QuasiNewtonLoop); what differs is the status names,
// the matrix allocated when the caller passes none (all zeros here, the
// identity there), and the line search's work vector, a separate block of
// 2n doubles after y instead of s and y.
module QuasiNewtonBfgs {
  import opened Vectors
  import opened Matrices
  import NL = NonLinearComponent
  import LS = LineSearchComponent
  import opened LineSearchChoice
  import F = QuasiNewtonFormula
  import L = QuasiNewtonLoop
  import QN = QuasiNewton
  import MyMath
  import MyVector

  /** What quasi_newton_bfgs returns: the QUASI_NEWTON_BFGS_ statuses the
      code names (src/include/quasi_newton_bfgs.h lists NON_FUNCTION where the
      code writes NO_FUNCTION, and no NO_PARAMETER).  Failed is
      QUASI_NEWTON_BFGS_FAILED, the value 1 that the B formula's SOR returns
      as MY_MATH_FAILED.  SorSweepLimit, DivisionByZero and Unassigned are
      the model's, as in QuasiNewton.Status. */
  datatype Status =
    | Satisfied
    | Failed
    | LineSearchFailed
    | NotUpdate
    | FunctionNaN
    | OutOfMemory
    | NoFunction
    | NoParameter
    | SorSweepLimit
    | DivisionByZero
    | Unassigned

  /** The three fields of QuasiNewtonBFGSParameter the code reads; the loop
      counter is unsigned, so a negative bound would be converted to a huge
      unsigned one; only bounds >= 0 are modelled. */
  datatype BfgsSettings = BfgsSettings(formula: char, tolerance: real, upperIter: nat)

  class QuasiNewtonBfgsParameter {
    var formula: char
    var tolerance: real
    var upperIter: nat

    function Values(): BfgsSettings
      reads this
    {
      BfgsSettings(formula, tolerance, upperIter)
    }
  }

  const DefaultSettings: BfgsSettings := BfgsSettings('h', 0.00000001, 5000)

  /** default_quasi_newton_bfgs_parameter: the H formula, tolerance 1e-8 and 5000 iterations. */
  method DefaultQuasiNewtonBfgsParameter(parameter: QuasiNewtonBfgsParameter)
    modifies parameter
    ensures parameter.Values() == DefaultSettings
  {
    parameter.formula := 'h';
    parameter.tolerance := 0.00000001;
    parameter.upperIter := 5000;
  }

  /** The status a loop exit returns under the QUASI_NEWTON_BFGS_ names. */
  function StatusOf(e: L.Exit): (s: Status)
    ensures s == Satisfied <==> e == L.Converged || e == L.Exhausted(F.Updated) || e == L.DirectionFailed(MyMath.Satisfied)
    ensures s == Failed <==> e == L.DirectionFailed(MyMath.Failed)
    ensures s == FunctionNaN <==> e == L.SearchNaN || e == L.GradientNaN
    ensures s == NotUpdate <==> e == L.Exhausted(F.NotUpdated)
    ensures s == LineSearchFailed <==> e == L.SearchFailed
    ensures s != OutOfMemory && s != NoFunction && s != NoParameter
  {
    match e
    case Converged => Satisfied
    case Exhausted(u) =>
      if u == F.Updated then Satisfied else if u == F.NotUpdated then NotUpdate else DivisionByZero
    case Unassigned => Unassigned
    case DirectionFailed(sor) =>
      (match sor
       case Failed => Failed
       case SweepLimit => SorSweepLimit
       case Satisfied => Satisfied)
    case SearchNaN => FunctionNaN
    case SearchFailed => LineSearchFailed
    case GradientNaN => FunctionNaN
    case ZeroCurvatureStop => DivisionByZero
  }

  /** The matrix quasi_newton_bfgs allocates when b is NULL: every entry 0. */
  function DefaultMatrix(n: nat): (m: seq<seq<real>>)
    ensures IsSquare(m, n) && m == ZeroMatrix(n)
  {
    ZeroMatrix(n)
  }

  /** quasi_newton_bfgs from x0 and the matrix b0 (DefaultMatrix(n) when the
      caller passes NULL).  The checks come in the code's order: the
      allocations, the function object, the line search parameter, the
      gradient at x0. */
  function Solve(x0: seq<real>, b0: seq<seq<real>>, fo: NL.FunctionObject, kind: LineSearchKind,
                 search: NL.Option<LS.Settings>, q: NL.Option<BfgsSettings>,
                 outOfMemory: bool, sweeps: nat, dStart: seq<real>): (r: QN.Answer<Status>)
    requires |x0| >= 1 && IsSquare(b0, |x0|) && |dStart| == |x0|
    ensures |r.x| == |x0| && IsSquare(r.b, |x0|)
  {
    if outOfMemory then QN.Answer(OutOfMemory, x0, b0)
    else if fo.objective.None? || fo.gradient.None? then QN.Answer(NoFunction, x0, b0)
    else if search.None? then QN.Answer(NoParameter, x0, b0)
    else if NL.HasNaN(NL.GradientAt(fo.gradient.value, x0)) then QN.Answer(FunctionNaN, x0, b0)
    else
      var settings := if q.Some? then q.value else DefaultSettings;
      var cfg := QN.Configure(fo.objective.value, fo.gradient.value, kind, search.value, settings.formula, settings.tolerance, sweeps);
      var r := L.Optimise(cfg, QN.Start(x0, b0, dStart, fo.gradient.value), settings.upperIter);
      QN.Answer(StatusOf(r.exit), r.st.x, r.st.b)
  }

  /** quasi_newton_bfgs(x, b, n, function_object, line_search,
      line_search_parameter, quasi_newton_bfgs_parameter): the caller's x and
      b, when given, end with the contents Solve describes. */
  method QuasiNewtonBfgs(x: array?<real>, b: array2?<real>, n: int, functionObject: NL.FunctionObject,
                         kind: LineSearchKind, lineSearchParameter: LS.LineSearchParameter?,
                         parameter: QuasiNewtonBfgsParameter?,
                         outOfMemory: bool, sweeps: nat, dStart: seq<real>) returns (status: Status)
    requires n >= 1 && |dStart| == n
    requires x != null ==> x.Length == n
    requires b != null ==> b.Length0 == n && b.Length1 == n
    modifies x, b
    ensures var r := Solve(if x == null then Zeros(n) else old(x[..]),
                           if b == null then DefaultMatrix(n) else old(Rows(b)),
                           functionObject, kind,
                           if lineSearchParameter == null then NL.None else NL.Some(lineSearchParameter.Values()),
                           if parameter == null then NL.None else NL.Some(parameter.Values()),
                           outOfMemory, sweeps, dStart);
      status == r.status && (x != null ==> x[..] == r.x) && (b != null ==> Rows(b) == r.b)
  {
    if outOfMemory {
      return OutOfMemory;
    }
    var xs: array<real>;
    if x == null {
      xs := new real[n];
      MyVector.ZeroVector(xs);
    } else {
      xs := x;
    }
    var bs: array2<real>;
    if b == null {
      bs := new real[n, n];
      ZeroFill(bs);
    } else {
      bs := b;
    }
    ghost var x0 := if x == null then Zeros(n) else old(x[..]);
    ghost var b0 := if b == null then DefaultMatrix(n) else old(Rows(b));
    assert xs[..] == x0 && Rows(bs) == b0;
    status := CheckedRun(xs, bs, functionObject, kind, lineSearchParameter, parameter, sweeps, dStart);
  }

  /** The checks of the function object and of the parameters, then Minimise. */
  method CheckedRun(xs: array<real>, bs: array2<real>, functionObject: NL.FunctionObject,
                    kind: LineSearchKind, lineSearchParameter: LS.LineSearchParameter?,
                    parameter: QuasiNewtonBfgsParameter?, sweeps: nat, dStart: seq<real>) returns (status: Status)
    requires 1 <= xs.Length && |dStart| == xs.Length && bs.Length0 == xs.Length && bs.Length1 == xs.Length
    modifies xs, bs
    ensures var r := Solve(old(xs[..]), old(Rows(bs)), functionObject, kind,
                           if lineSearchParameter == null then NL.None else NL.Some(lineSearchParameter.Values()),
                           if parameter == null then NL.None else NL.Some(parameter.Values()),
                           false, sweeps, dStart);
      status == r.status && xs[..] == r.x && Rows(bs) == r.b
  {
    if functionObject.objective.None? || functionObject.gradient.None? {
      return NoFunction;
    }
    var settings := parameter;
    if settings == null {
      settings := new QuasiNewtonBfgsParameter;
      DefaultQuasiNewtonBfgsParameter(settings);
    }
    if lineSearchParameter == null {
      return NoParameter;
    }
    status := Minimise(xs, bs, functionObject.objective.value, functionObject.gradient.value, kind,
                       lineSearchParameter, settings.Values(), sweeps, dStart);
  }

  /** The double loop storage_b[i][j] = 0. */
  method ZeroFill(m: array2<real>)
    requires m.Length0 == m.Length1
    modifies m
    ensures Rows(m) == DefaultMatrix(m.Length0)
  {
    var i := 0;
    while i < m.Length0
      invariant 0 <= i <= m.Length0
      invariant forall r, c :: 0 <= r < i && 0 <= c < m.Length1 ==> m[r, c] == 0.0
    {
      var j := 0;
      while j < m.Length1
        invariant 0 <= j <= m.Length1
        invariant forall r, c :: 0 <= r < i && 0 <= c < m.Length1 ==> m[r, c] == 0.0
        invariant forall c :: 0 <= c < j ==> m[i, c] == 0.0
      {
        m[i, j] := 0.0;
        j := j + 1;
      }
      i := i + 1;
    }
    forall r | 0 <= r < m.Length0 ensures Rows(m)[r] == DefaultMatrix(m.Length0)[r] {
      assert forall c :: 0 <= c < m.Length1 ==> Rows(m)[r][c] == DefaultMatrix(m.Length0)[r][c];
    }
  }

  /** The part of quasi_newton_bfgs after the checks of the arguments: d
      and g, the component, the first gradient and the loop. */
  method Minimise(x: array<real>, b: array2<real>, objective: NL.Objective, gradient: NL.Gradient,
                  kind: LineSearchKind, lineSearchParameter: LS.LineSearchParameter,
                  settings: BfgsSettings, sweeps: nat, dStart: seq<real>) returns (status: Status)
    requires 1 <= x.Length && |dStart| == x.Length && b.Length0 == x.Length && b.Length1 == x.Length
    modifies x, b
    ensures var r := Solve(old(x[..]), old(Rows(b)), NL.FunctionObject(NL.Some(objective), NL.Some(gradient)), kind,
                           NL.Some(lineSearchParameter.Values()), NL.Some(settings), false, sweeps, dStart);
      status == r.status && x[..] == r.x && Rows(b) == r.b
  {
    var n := x.Length;
    var d := new real[n](i => if 0 <= i < |dStart| then dStart[i] else 0.0);
    assert d[..] == dStart;
    var g := new real[n];
    var component := new NL.Component(objective, gradient);
    var gradientStatus := component.Gradient(g, x);
    if gradientStatus == NL.FunctionNaN {
      return FunctionNaN;
    }
    var cfg := QN.Configure(objective, gradient, kind, lineSearchParameter.Values(), settings.formula, settings.tolerance, sweeps);
    assert L.Snapshot(x, g, d, b, component) == QN.Start(x[..], Rows(b), dStart, gradient);
    var exit := IterateInWorkspace(cfg, x, g, d, b, lineSearchParameter, component, settings.upperIter);
    status := StatusOf(exit);
  }

  /** x_temp, g_temp, s, y and the work block of 2n doubles, then the loop. */
  method IterateInWorkspace(cfg: L.Config, x: array<real>, g: array<real>, d: array<real>, b: array2<real>,
                            parameter: LS.LineSearchParameter, component: NL.Component, upperIter: nat)
    returns (exit: L.Exit)
    requires 1 <= x.Length && g.Length == x.Length && d.Length == x.Length
    requires b.Length0 == x.Length && b.Length1 == x.Length
    requires x != g && x != d && g != d
    requires component.objective == cfg.objective && component.gradient == cfg.gradient
    requires parameter.Values() == cfg.search
    modifies x, g, d, b, component
    ensures var r := L.Optimise(cfg, old(L.Snapshot(x, g, d, b, component)), upperIter);
      exit == r.exit && L.Snapshot(x, g, d, b, component) == r.st
  {
    var n := x.Length;
    var xt := new real[n];
    var gt := new real[n];
    var s := new real[n];
    var y := new real[n];
    var workX := new real[n];
    var workG := new real[n];
    exit := L.RunIterations(cfg, x, g, d, b, xt, gt, s, y, workX, workG, parameter, component, upperIter);
  }

  // ---------------------------------------------------------------------
  // Properties

  /** QUASI_NEWTON_BFGS_FAILED comes only from the B formula, whose SOR met
      a zero pivot. */
  lemma FailedMeansSorFailed(x0: seq<real>, b0: seq<seq<real>>, fo: NL.FunctionObject, kind: LineSearchKind,
                             search: NL.Option<LS.Settings>, q: NL.Option<BfgsSettings>,
                             outOfMemory: bool, sweeps: nat, dStart: seq<real>)
    requires |x0| >= 1 && IsSquare(b0, |x0|) && |dStart| == |x0|
    requires Solve(x0, b0, fo, kind, search, q, outOfMemory, sweeps, dStart).status == Failed
    ensures !outOfMemory && fo.objective.Some? && fo.gradient.Some? && search.Some?
    ensures F.SelectFormula((if q.Some? then q.value else DefaultSettings).formula) == F.BFormula
  {
    var settings := if q.Some? then q.value else DefaultSettings;
    var cfg := QN.Configure(fo.objective.value, fo.gradient.value, kind, search.value, settings.formula, settings.tolerance, sweeps);
    var st := QN.Start(x0, b0, dStart, fo.gradient.value);
    var r := L.Optimise(cfg, st, settings.upperIter);
    assert StatusOf(r.exit) == Failed;
    if cfg.formula == F.HFormula {
      HNeverFails(cfg, st, settings.upperIter, L.Unassigned);
      assert false;
    }
  }

  /** The H formula's direction search always succeeds, so a loop with it
      never leaves through a failed direction search. */
  lemma {:induction false} HNeverFails(cfg: L.Config, st: L.State, left: nat, exit: L.Exit)
    requires L.Fits(st) && cfg.formula == F.HFormula && !exit.DirectionFailed?
    ensures !L.Loop(cfg, st, left, exit).exit.DirectionFailed?
    decreases left
  {
    if left > 0 {
      var it := L.Iteration(cfg, st);
      if it.Continue? {
        HNeverFails(cfg, it.st, left - 1, L.Exhausted(it.update));
      }
    }
  }

  /** The matrix and x end as quasi_newton would leave them from the same
      start; only the status names differ. */
  lemma SameIterates(x0: seq<real>, b0: seq<seq<real>>, fo: NL.FunctionObject, kind: LineSearchKind,
                     search: NL.Option<LS.Settings>, q: BfgsSettings, sweeps: nat, dStart: seq<real>)
    requires |x0| >= 1 && IsSquare(b0, |x0|) && |dStart| == |x0|
    ensures var r := Solve(x0, b0, fo, kind, search, NL.Some(q), false, sweeps, dStart);
      var rq := QN.Solve(x0, b0, fo, kind, search, NL.Some(QN.QuasiNewtonSettings(q.formula, q.tolerance, q.upperIter)),
                         false, sweeps, dStart);
      r.x == rq.x && r.b == rq.b &&
      (r.status == Satisfied <==> rq.status == QN.Satisfied) &&
      (r.status == Failed <==> rq.status == QN.SorFailed) &&
      (r.status == NotUpdate <==> rq.status == QN.NotUpdate) &&
      (r.status == FunctionNaN <==> rq.status == QN.FunctionNaN)
  {
  }

  /** With b NULL and the H formula, d = -0 g = 0 on every
      iteration, so x never moves and the matrix stays zero; the run ends
      converged only if the gradient at x0 already meets the tolerance. */
  lemma ZeroDefaultStalls(x0: seq<real>, fo: NL.FunctionObject, kind: LineSearchKind,
                          search: LS.Settings, q: BfgsSettings, sweeps: nat, dStart: seq<real>)
    requires |x0| >= 1 && |dStart| == |x0|
    requires fo.objective.Some? && fo.gradient.Some?
    requires F.SelectFormula(q.formula) == F.HFormula
    ensures var r := Solve(x0, DefaultMatrix(|x0|), fo, kind, NL.Some(search), NL.Some(q), false, sweeps, dStart);
      r.x == x0 && r.b == ZeroMatrix(|x0|) &&
      r.status in {Satisfied, NotUpdate, FunctionNaN, LineSearchFailed, Unassigned}
  {
    if !NL.HasNaN(NL.GradientAt(fo.gradient.value, x0)) {
      var cfg := QN.Configure(fo.objective.value, fo.gradient.value, kind, search, q.formula, q.tolerance, sweeps);
      var st := QN.Start(x0, ZeroMatrix(|x0|), dStart, fo.gradient.value);
      L.LoopFromZeroMatrix(cfg, st, q.upperIter, L.Unassigned);
    }
  }

  /** With b NULL and the B formula, SOR meets the zero pivot in
      the first iteration and the code returns QUASI_NEWTON_BFGS_FAILED with
      x untouched. */
  lemma ZeroDefaultFailsB(x0: seq<real>, fo: NL.FunctionObject, kind: LineSearchKind,
                          search: LS.Settings, q: BfgsSettings, sweeps: nat, dStart: seq<real>)
    requires |x0| >= 1 && |dStart| == |x0|
    requires fo.objective.Some? && fo.gradient.Some? && !NL.HasNaN(NL.GradientAt(fo.gradient.value, x0))
    requires F.SelectFormula(q.formula) == F.BFormula && q.upperIter >= 1 && sweeps >= 1
    ensures var r := Solve(x0, DefaultMatrix(|x0|), fo, kind, NL.Some(search), NL.Some(q), false, sweeps, dStart);
      r.status == Failed && r.x == x0 && r.b == ZeroMatrix(|x0|)
  {
    var cfg := QN.Configure(fo.objective.value, fo.gradient.value, kind, search, q.formula, q.tolerance, sweeps);
    var st := QN.Start(x0, ZeroMatrix(|x0|), dStart, fo.gradient.value);
    F.BDirectionZeroFails(st.g, st.d, sweeps);
    L.LoopUnfolds(cfg, st, q.upperIter, L.Unassigned);
  }

  /** By contrast, a caller's b holding the identity (the matrix quasi_newton
      allocates for a NULL b) makes the H formula's first direction -g, a
      descent direction whenever g is not zero. */
  lemma IdentityStartDescends(x0: seq<real>, fo: NL.FunctionObject, kind: LineSearchKind,
                              search: LS.Settings, q: BfgsSettings, sweeps: nat, dStart: seq<real>)
    requires |x0| >= 1 && |dStart| == |x0| && fo.gradient.Some? && fo.objective.Some?
    requires F.SelectFormula(q.formula) == F.HFormula
    ensures var cfg := QN.Configure(fo.objective.value, fo.gradient.value, kind, search, q.formula, q.tolerance, sweeps);
      var st := QN.Start(x0, Identity(|x0|), dStart, fo.gradient.value);
      var d := L.Iteration(cfg, st).st.d;
      d == Neg(st.g) && (st.g != Zeros(|x0|) ==> Dot(st.g, d) < 0.0)
  {
    var st := QN.Start(x0, Identity(|x0|), dStart, fo.gradient.value);
    F.HDirectionIdentity(st.g);
    if st.g != Zeros(|x0|) {
      SumProdNeg(st.g, st.g, |x0|);
      DotSelfPositive(st.g);
    }
  }
}
