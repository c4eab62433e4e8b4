// src/quasi_newton.c: quasi_newton, default_quasi_newton_parameter and
// set_quasi_newton_formula.  The entry point allocates what the caller did
// not pass (x as the zero vector, b as the identity), checks the function
// object and the line search parameter, evaluates the gradient at x and runs
// the loop of QuasiNewtonLoop.
module QuasiNewton {
  import opened Vectors
  import opened Matrices
  import NL = NonLinearComponent
  import LS = LineSearchComponent
  import opened LineSearchChoice
  import F = QuasiNewtonFormula
  import L = QuasiNewtonLoop
  import MyMath
  import MyVector
  import MyMatrix

  /** What quasi_newton returns.  FunctionNaN, OutOfMemory, NoFunction,
      NoParameter, LineSearchFailed, Satisfied and NotUpdate are the
      NON_LINEAR_ statuses the code names; SorFailed is MY_MATH_FAILED,
      passed through from the B formula's direction search.  SorSweepLimit,
      DivisionByZero and Unassigned are the model's: the bound on the SOR
      sweeps, the B update dividing by s . B s = 0, and the status variable
      that is never assigned when upper_iter <= 0. */
  datatype Status =
    | Satisfied
    | NotUpdate
    | FunctionNaN
    | OutOfMemory
    | NoFunction
    | NoParameter
    | LineSearchFailed
    | SorFailed
    | SorSweepLimit
    | DivisionByZero
    | Unassigned

  /** QuasiNewtonParameter (src/include/quasi_newton.h:27-31). */
  datatype QuasiNewtonSettings = QuasiNewtonSettings(formula: char, tolerance: real, upperIter: int)

  class QuasiNewtonParameter {
    var formula: char
    var tolerance: real
    var upperIter: int

    function Values(): QuasiNewtonSettings
      reads this
    {
      QuasiNewtonSettings(formula, tolerance, upperIter)
    }
  }

  const DefaultSettings: QuasiNewtonSettings := QuasiNewtonSettings('h', 0.00000001, 5000)

  /** default_quasi_newton_parameter: the H formula, tolerance 1e-8 and 5000 iterations. */
  method DefaultQuasiNewtonParameter(parameter: QuasiNewtonParameter)
    modifies parameter
    ensures parameter.Values() == DefaultSettings
  {
    parameter.formula := 'h';
    parameter.tolerance := 0.00000001;
    parameter.upperIter := 5000;
  }

  /** The status a loop exit returns.  Convergence and a last iteration that
      updated the matrix both return NON_LINEAR_SATISFIED. */
  function StatusOf(e: L.Exit): (s: Status)
    ensures s == Satisfied <==> e == L.Converged || e == L.Exhausted(F.Updated) || e == L.DirectionFailed(MyMath.Satisfied)
    ensures s == SorFailed <==> e == L.DirectionFailed(MyMath.Failed)
    ensures s == SorSweepLimit <==> e == L.DirectionFailed(MyMath.SweepLimit)
    ensures s == FunctionNaN <==> e == L.SearchNaN || e == L.GradientNaN
    ensures s == NotUpdate <==> e == L.Exhausted(F.NotUpdated)
    ensures s == LineSearchFailed <==> e == L.SearchFailed
    ensures s == DivisionByZero <==> e == L.Exhausted(F.ZeroCurvature) || e == L.ZeroCurvatureStop
    ensures s != OutOfMemory && s != NoFunction && s != NoParameter
  {
    match e
    case Converged => Satisfied
    case Exhausted(u) =>
      (match u
       case Updated => Satisfied
       case NotUpdated => NotUpdate
       case ZeroCurvature => DivisionByZero)
    case Unassigned => Unassigned
    case DirectionFailed(sor) =>
      (match sor
       case Failed => SorFailed
       case SweepLimit => SorSweepLimit
       case Satisfied => Satisfied)
    case SearchNaN => FunctionNaN
    case SearchFailed => LineSearchFailed
    case GradientNaN => FunctionNaN
    case ZeroCurvatureStop => DivisionByZero
  }

  /** The final status and the final contents of x and of the matrix. */
  datatype Answer<S> = Answer(status: S, x: seq<real>, b: seq<seq<real>>)

  /** The loop's configuration: the formula set_quasi_newton_formula picks
      from the parameter's letter, and the parameter's tolerance. */
  function Configure(objective: NL.Objective, gradient: NL.Gradient, kind: LineSearchKind, search: LS.Settings,
                     formula: char, tolerance: real, sweeps: nat): (cfg: L.Config)
    ensures cfg.formula == F.SelectFormula(formula) && cfg.tolerance == tolerance
    ensures cfg.kind == kind && cfg.search == search && cfg.sweeps == sweeps
    ensures cfg.objective == objective && cfg.gradient == gradient
  {
    L.Config(F.SelectFormula(formula), kind, search, tolerance, sweeps, objective, gradient)
  }

  /** The state the loop starts from: x, the gradient at x, the contents d
      happens to hold, the matrix, and the counters after one gradient call. */
  function Start(x0: seq<real>, b0: seq<seq<real>>, dStart: seq<real>, gradient: NL.Gradient): (st: L.State)
    requires |x0| >= 1 && IsSquare(b0, |x0|) && |dStart| == |x0|
    ensures L.Fits(st) && st.x == x0 && st.b == b0 && st.d == dStart
    ensures st.g == NL.Values(NL.GradientAt(gradient, x0))
    ensures st.c == NL.Counters(NL.Num(0.0), 0.0, 0, 1)
  {
    L.State(x0, NL.Values(NL.GradientAt(gradient, x0)), dStart, b0, NL.AfterGradient(NL.Counters(NL.Num(0.0), 0.0, 0, 0)))
  }

  /** quasi_newton from x0 and the matrix b0 (the zero vector and the
      identity when the caller passes NULL).  `search` and `q` are None for
      a NULL parameter; `outOfMemory` says whether an allocation fails;
      `dStart` is what the freshly allocated d holds. */
  function Solve(x0: seq<real>, b0: seq<seq<real>>, fo: NL.FunctionObject, kind: LineSearchKind,
                 search: NL.Option<LS.Settings>, q: NL.Option<QuasiNewtonSettings>,
                 outOfMemory: bool, sweeps: nat, dStart: seq<real>): (r: Answer<Status>)
    requires |x0| >= 1 && IsSquare(b0, |x0|) && |dStart| == |x0|
    ensures |r.x| == |x0| && IsSquare(r.b, |x0|)
  {
    if outOfMemory then Answer(OutOfMemory, x0, b0)
    else if fo.objective.None? || fo.gradient.None? then Answer(NoFunction, x0, b0)
    else if search.None? then Answer(NoParameter, x0, b0)
    else if NL.HasNaN(NL.GradientAt(fo.gradient.value, x0)) then Answer(FunctionNaN, x0, b0)
    else
      var settings := if q.Some? then q.value else DefaultSettings;
      var cfg := Configure(fo.objective.value, fo.gradient.value, kind, search.value, settings.formula, settings.tolerance, sweeps);
      var r := L.Optimise(cfg, Start(x0, b0, dStart, fo.gradient.value), settings.upperIter);
      Answer(StatusOf(r.exit), r.st.x, r.st.b)
  }

  /** quasi_newton(x, b, n, function_object, line_search, line_search_parameter,
      quasi_newton_parameter): the caller's x and b, when given, end with the
      contents Solve describes. */
  method QuasiNewton(x: array?<real>, b: array2?<real>, n: int, functionObject: NL.FunctionObject,
                     kind: LineSearchKind, lineSearchParameter: LS.LineSearchParameter?,
                     quasiNewtonParameter: QuasiNewtonParameter?,
                     outOfMemory: bool, sweeps: nat, dStart: seq<real>) returns (status: Status)
    requires n >= 1 && |dStart| == n
    requires x != null ==> x.Length == n
    requires b != null ==> b.Length0 == n && b.Length1 == n
    modifies x, b
    ensures var r := Solve(if x == null then Zeros(n) else old(x[..]),
                           if b == null then Identity(n) else old(Rows(b)),
                           functionObject, kind,
                           if lineSearchParameter == null then NL.None else NL.Some(lineSearchParameter.Values()),
                           if quasiNewtonParameter == null then NL.None else NL.Some(quasiNewtonParameter.Values()),
                           outOfMemory, sweeps, dStart);
      status == r.status && (x != null ==> x[..] == r.x) && (b != null ==> Rows(b) == r.b)
  {
    if outOfMemory {
      return OutOfMemory;
    }
    var xs: array<real>;
    if x == null {
      xs := new real[n];
      MyVector.ZeroVector(xs);
    } else {
      xs := x;
    }
    var bs: array2<real>;
    if b == null {
      bs := new real[n, n];
      MyMatrix.IdentityMatrix(bs, n);
    } else {
      bs := b;
    }
    ghost var x0 := if x == null then Zeros(n) else old(x[..]);
    ghost var b0 := if b == null then Identity(n) else old(Rows(b));
    assert xs[..] == x0 && Rows(bs) == b0;
    status := CheckedRun(xs, bs, functionObject, kind, lineSearchParameter, quasiNewtonParameter, sweeps, dStart);
  }

  /** The checks of the function object and of the parameters, then Minimise. */
  method CheckedRun(xs: array<real>, bs: array2<real>, functionObject: NL.FunctionObject,
                    kind: LineSearchKind, lineSearchParameter: LS.LineSearchParameter?,
                    quasiNewtonParameter: QuasiNewtonParameter?, sweeps: nat, dStart: seq<real>) returns (status: Status)
    requires 1 <= xs.Length && |dStart| == xs.Length && bs.Length0 == xs.Length && bs.Length1 == xs.Length
    modifies xs, bs
    ensures var r := Solve(old(xs[..]), old(Rows(bs)), functionObject, kind,
                           if lineSearchParameter == null then NL.None else NL.Some(lineSearchParameter.Values()),
                           if quasiNewtonParameter == null then NL.None else NL.Some(quasiNewtonParameter.Values()),
                           false, sweeps, dStart);
      status == r.status && xs[..] == r.x && Rows(bs) == r.b
  {
    if functionObject.objective.None? || functionObject.gradient.None? {
      return NoFunction;
    }
    var parameter := quasiNewtonParameter;
    if parameter == null {
      parameter := new QuasiNewtonParameter;
      DefaultQuasiNewtonParameter(parameter);
    }
    if lineSearchParameter == null {
      return NoParameter;
    }
    status := Minimise(xs, bs, functionObject.objective.value, functionObject.gradient.value, kind,
                       lineSearchParameter, parameter.Values(), sweeps, dStart);
  }

  /** The part of quasi_newton after the checks of the arguments: the work
      vectors, the component, the first gradient and the loop. */
  method Minimise(x: array<real>, b: array2<real>, objective: NL.Objective, gradient: NL.Gradient,
                  kind: LineSearchKind, lineSearchParameter: LS.LineSearchParameter,
                  settings: QuasiNewtonSettings, sweeps: nat, dStart: seq<real>) returns (status: Status)
    requires 1 <= x.Length && |dStart| == x.Length && b.Length0 == x.Length && b.Length1 == x.Length
    modifies x, b
    ensures var r := Solve(old(x[..]), old(Rows(b)), NL.FunctionObject(NL.Some(objective), NL.Some(gradient)), kind,
                           NL.Some(lineSearchParameter.Values()), NL.Some(settings), false, sweeps, dStart);
      status == r.status && x[..] == r.x && Rows(b) == r.b
  {
    var n := x.Length;
    var d := new real[n](i => if 0 <= i < |dStart| then dStart[i] else 0.0);
    assert d[..] == dStart;
    var g := new real[n];
    var component := new NL.Component(objective, gradient);
    var gradientStatus := component.Gradient(g, x);
    if gradientStatus == NL.FunctionNaN {
      return FunctionNaN;
    }
    var cfg := Configure(objective, gradient, kind, lineSearchParameter.Values(), settings.formula, settings.tolerance, sweeps);
    assert L.Snapshot(x, g, d, b, component) == Start(x[..], Rows(b), dStart, gradient);
    var exit := IterateInWorkspace(cfg, x, g, d, b, lineSearchParameter, component, settings.upperIter);
    status := StatusOf(exit);
  }

  /** x_temp, g_temp, s and y, then the loop; the line search's work vector
      is s and y. */
  method IterateInWorkspace(cfg: L.Config, x: array<real>, g: array<real>, d: array<real>, b: array2<real>,
                            parameter: LS.LineSearchParameter, component: NL.Component, upperIter: int)
    returns (exit: L.Exit)
    requires 1 <= x.Length && g.Length == x.Length && d.Length == x.Length
    requires b.Length0 == x.Length && b.Length1 == x.Length
    requires x != g && x != d && g != d
    requires component.objective == cfg.objective && component.gradient == cfg.gradient
    requires parameter.Values() == cfg.search
    modifies x, g, d, b, component
    ensures var r := L.Optimise(cfg, old(L.Snapshot(x, g, d, b, component)), upperIter);
      exit == r.exit && L.Snapshot(x, g, d, b, component) == r.st
  {
    var n := x.Length;
    var xt := new real[n];
    var gt := new real[n];
    var s := new real[n];
    var y := new real[n];
    exit := L.RunIterations(cfg, x, g, d, b, xt, gt, s, y, s, y, parameter, component, upperIter);
  }

  // ---------------------------------------------------------------------
  // Properties

  /** NON_LINEAR_SATISFIED means one of two things: the gradient norm fell
      below the tolerance, or upper_iter iterations ran and the last one
      updated the matrix. */
  lemma SatisfiedMeans(x0: seq<real>, b0: seq<seq<real>>, fo: NL.FunctionObject, kind: LineSearchKind,
                       search: NL.Option<LS.Settings>, q: NL.Option<QuasiNewtonSettings>,
                       outOfMemory: bool, sweeps: nat, dStart: seq<real>)
    requires |x0| >= 1 && IsSquare(b0, |x0|) && |dStart| == |x0|
    requires Solve(x0, b0, fo, kind, search, q, outOfMemory, sweeps, dStart).status == Satisfied
    ensures !outOfMemory && fo.objective.Some? && fo.gradient.Some? && search.Some?
    ensures var settings := if q.Some? then q.value else DefaultSettings;
      var cfg := Configure(fo.objective.value, fo.gradient.value, kind, search.value, settings.formula, settings.tolerance, sweeps);
      var r := L.Optimise(cfg, Start(x0, b0, dStart, fo.gradient.value), settings.upperIter);
      r.exit == L.Converged || r.exit == L.Exhausted(F.Updated)
  {
    var settings := if q.Some? then q.value else DefaultSettings;
    var cfg := Configure(fo.objective.value, fo.gradient.value, kind, search.value, settings.formula, settings.tolerance, sweeps);
    var st := Start(x0, b0, dStart, fo.gradient.value);
    var r := L.Optimise(cfg, st, settings.upperIter);
    L.LoopExits(cfg, st, if settings.upperIter <= 0 then 0 else settings.upperIter, L.Unassigned);
    SatisfiedExit(r.exit);
  }

  /** The exits StatusOf maps to NON_LINEAR_SATISFIED, once a successful
      direction search is ruled out as an exit. */
  lemma SatisfiedExit(e: L.Exit)
    requires StatusOf(e) == Satisfied && e != L.DirectionFailed(MyMath.Satisfied)
    ensures e == L.Converged || e == L.Exhausted(F.Updated)
  {
  }

  /** With the default parameter and no matrix from the caller, the first
      direction is the steepest descent -g: H starts as the identity. */
  lemma DefaultsStartSteepest(x0: seq<real>, dStart: seq<real>, objective: NL.Objective, gradient: NL.Gradient,
                              kind: LineSearchKind, search: LS.Settings, sweeps: nat)
    requires |x0| >= 1 && |dStart| == |x0|
    ensures var cfg := Configure(objective, gradient, kind, search, DefaultSettings.formula, DefaultSettings.tolerance, sweeps);
      var st := Start(x0, Identity(|x0|), dStart, gradient);
      L.Iteration(cfg, st).st.d == Neg(st.g)
  {
    var st := Start(x0, Identity(|x0|), dStart, gradient);
    F.HDirectionIdentity(st.g);
  }

  /** With the H formula the answer does not depend on what the freshly
      allocated d holds. */
  lemma HIgnoresStorage(x0: seq<real>, b0: seq<seq<real>>, fo: NL.FunctionObject, kind: LineSearchKind,
                        search: NL.Option<LS.Settings>, q: NL.Option<QuasiNewtonSettings>,
                        outOfMemory: bool, sweeps: nat, d1: seq<real>, d2: seq<real>)
    requires |x0| >= 1 && IsSquare(b0, |x0|) && |d1| == |x0| && |d2| == |x0|
    requires F.SelectFormula((if q.Some? then q.value else DefaultSettings).formula) == F.HFormula
    ensures Solve(x0, b0, fo, kind, search, q, outOfMemory, sweeps, d1) ==
            Solve(x0, b0, fo, kind, search, q, outOfMemory, sweeps, d2)
  {
    if !outOfMemory && fo.objective.Some? && fo.gradient.Some? && search.Some? {
      var settings := if q.Some? then q.value else DefaultSettings;
      var cfg := Configure(fo.objective.value, fo.gradient.value, kind, search.value, settings.formula, settings.tolerance, sweeps);
      var st := Start(x0, b0, d1, fo.gradient.value);
      if settings.upperIter >= 1 {
        L.LoopIgnoresStartDirection(cfg, st, d2, settings.upperIter, L.Unassigned);
        assert st.(d := d2) == Start(x0, b0, d2, fo.gradient.value);
      }
    }
  }

  /** With upper_iter <= 0 the loop body never runs: x and the matrix are
      returned as they started and the status is never assigned. */
  lemma NoIterations(x0: seq<real>, b0: seq<seq<real>>, fo: NL.FunctionObject, kind: LineSearchKind,
                     search: LS.Settings, q: QuasiNewtonSettings, sweeps: nat, dStart: seq<real>)
    requires |x0| >= 1 && IsSquare(b0, |x0|) && |dStart| == |x0|
    requires fo.objective.Some? && fo.gradient.Some? && !NL.HasNaN(NL.GradientAt(fo.gradient.value, x0))
    requires q.upperIter <= 0
    ensures Solve(x0, b0, fo, kind, NL.Some(search), NL.Some(q), false, sweeps, dStart) == Answer(Unassigned, x0, b0)
  {
  }
}
