// src/conjugate_gradient.c: conjugate_gradient and
// default_conjugate_gradient_parameter, the nonlinear conjugate gradient
// method with the Fletcher-Reeves ratio.  The first direction is -g; each
// iteration runs the line search along d, evaluates the gradient at
// x + alpha d, stops when its infinity norm is below the tolerance, and
// otherwise takes d = -g_{k+1} + beta d with beta = |g_{k+1}|^2 / |g_k|^2.
module ConjugateGradient {
  import opened Vectors
  import NL = NonLinearComponent
  import LS = LineSearchComponent
  import opened LineSearchChoice
  import MyMath
  import MyVector

  /** What conjugate_gradient returns: the CONJUGATE_GRADIENT_ statuses the
      code assigns (src/include/conjugate_gradient.h:16-25 also declares
      FAILED and NOT_UPDATE, which it never returns).  DivisionByZero and
      Unassigned are the model's: beta computed with g . g = 0, and the
      status no branch assigns when every iteration runs to its end. */
  datatype Status =
    | FunctionNaN
    | OutOfMemory
    | NoFunction
    | NoParameter
    | Satisfied
    | LineSearchFailed
    | DivisionByZero
    | Unassigned

  /** ConjugateGradientParameter (src/include/conjugate_gradient.h:38-41). */
  datatype CgSettings = CgSettings(tolerance: real, upperIter: int)

  class ConjugateGradientParameter {
    var tolerance: real
    var upperIter: int

    function Values(): CgSettings
      reads this
    {
      CgSettings(tolerance, upperIter)
    }
  }

  const DefaultSettings: CgSettings := CgSettings(0.00000001, 5000)

  /** default_conjugate_gradient_parameter: tolerance 1e-8 and 5000 iterations. */
  method DefaultConjugateGradientParameter(parameter: ConjugateGradientParameter)
    modifies parameter
    ensures parameter.Values() == DefaultSettings
  {
    parameter.tolerance := 0.00000001;
    parameter.upperIter := 5000;
  }

  // ---------------------------------------------------------------------
  // The iteration on values

  /** What the iteration reads and never changes. */
  datatype Config = Config(kind: LineSearchKind, search: LS.Settings, tolerance: real,
                           objective: NL.Objective, gradient: NL.Gradient)

  /** x, g and d, and the component's counters. */
  datatype State = State(x: seq<real>, g: seq<real>, d: seq<real>, c: NL.Counters)

  predicate Fits(st: State)
  {
    |st.x| >= 1 && |st.g| == |st.x| && |st.d| == |st.x|
  }

  /** Why the loop ended.  ZeroGradient is the model's exit where the code
      would divide by g . g = 0; NoExit: no branch left the loop early. */
  datatype Exit = Converged | SearchNaN | SearchFailed | GradientNaN | ZeroGradient | NoExit

  datatype StepResult = Stop(exit: Exit, st: State) | Continue(st: State)

  datatype Finish = Finish(exit: Exit, st: State)

  /** beta = (g_temp . g_temp) / (g . g) */
  function FletcherReeves(g: seq<real>, gt: seq<real>): (beta: real)
    requires |g| == |gt| && Dot(g, g) != 0.0
    ensures beta * Dot(g, g) == Dot(gt, gt)
  {
    Dot(gt, gt) / Dot(g, g)
  }

  /** d = -g_temp + beta d, componentwise */
  function NextDirection(gt: seq<real>, beta: real, d: seq<real>): (r: seq<real>)
    requires |gt| == |d|
    ensures |r| == |d|
  {
    Step(Neg(gt), beta, d)
  }

  /** The line search's problem: the user's functions at x along d. */
  function SearchProblem(cfg: Config, st: State): (p: LS.Problem)
    requires Fits(st)
    ensures LS.Shaped(p)
  {
    LS.Problem(cfg.objective, cfg.gradient, st.x, st.g, st.d)
  }

  /** One pass of the loop body, exit for exit. */
  function Iteration(cfg: Config, st: State): (r: StepResult)
    requires Fits(st)
    ensures Fits(r.st) && |r.st.x| == |st.x|
  {
    var o := LS.Search(KindRule(cfg.kind, cfg.search), SearchProblem(cfg, st), st.c);
    var st1 := st.(c := o.after);
    if o.status == LS.LineSearchFunctionNaN then Stop(SearchNaN, st1)
    else if o.status == LS.LineSearchFailed then Stop(SearchFailed, st1)
    else
      var xt := Step(st.x, o.after.alpha, st.d);
      var gv := NL.GradientAt(cfg.gradient, xt);
      var st2 := st1.(c := NL.AfterGradient(o.after));
      if NL.HasNaN(gv) then Stop(GradientNaN, st2)
      else
        var gt := NL.Values(gv);
        if NormInf(gt) < cfg.tolerance then Stop(Converged, st2)
        else if Dot(st.g, st.g) == 0.0 then Stop(ZeroGradient, st2)
        else Continue(State(xt, gt, NextDirection(gt, FletcherReeves(st.g, gt), st.d), st2.c))
  }

  /** The loop with `left` iterations to go; `exit` is what it returns if none is left. */
  function Loop(cfg: Config, st: State, left: nat, exit: Exit): (r: Finish)
    requires Fits(st)
    ensures Fits(r.st) && |r.st.x| == |st.x|
    decreases left
  {
    if left == 0 then Finish(exit, st)
    else
      match Iteration(cfg, st)
      case Stop(e, st') => Finish(e, st')
      case Continue(st') => Loop(cfg, st', left - 1, NoExit)
  }

  lemma LoopUnfolds(cfg: Config, st: State, left: nat, exit: Exit)
    requires Fits(st) && left >= 1
    ensures var it := Iteration(cfg, st);
      Loop(cfg, st, left, exit) ==
        if it.Stop? then Finish(it.exit, it.st) else Loop(cfg, it.st, left - 1, NoExit)
  {
  }

  /** for (iter = 1; iter <= upper_iter; ++iter): no iteration when upper_iter <= 0. */
  function Optimise(cfg: Config, st: State, upperIter: int): (r: Finish)
    requires Fits(st)
    ensures Fits(r.st) && |r.st.x| == |st.x|
  {
    Loop(cfg, st, if upperIter <= 0 then 0 else upperIter, NoExit)
  }

  /** The state the loop starts from: x, the gradient at x, d = -g, and the
      counters after one gradient call. */
  function Start(x0: seq<real>, gradient: NL.Gradient): (st: State)
    requires |x0| >= 1
    ensures Fits(st) && st.x == x0 && st.g == NL.Values(NL.GradientAt(gradient, x0))
    ensures st.d == Neg(st.g) && st.c == NL.Counters(NL.Num(0.0), 0.0, 0, 1)
  {
    var g := NL.Values(NL.GradientAt(gradient, x0));
    State(x0, g, Neg(g), NL.AfterGradient(NL.Counters(NL.Num(0.0), 0.0, 0, 0)))
  }

  function StatusOf(e: Exit): (s: Status)
    ensures s == Satisfied <==> e == Converged
    ensures s == FunctionNaN <==> e == SearchNaN || e == GradientNaN
    ensures s == LineSearchFailed <==> e == SearchFailed
    ensures s == Unassigned <==> e == NoExit
    ensures s == DivisionByZero <==> e == ZeroGradient
  {
    match e
    case Converged => Satisfied
    case SearchNaN => FunctionNaN
    case SearchFailed => LineSearchFailed
    case GradientNaN => FunctionNaN
    case ZeroGradient => DivisionByZero
    case NoExit => Unassigned
  }

  /** The final status and the final contents of x. */
  datatype Answer = Answer(status: Status, x: seq<real>)

  function Configure(fo: NL.FunctionObject, kind: LineSearchKind, search: LS.Settings, tolerance: real): (cfg: Config)
    requires fo.objective.Some? && fo.gradient.Some?
    ensures cfg.kind == kind && cfg.search == search && cfg.tolerance == tolerance
    ensures cfg.objective == fo.objective.value && cfg.gradient == fo.gradient.value
  {
    Config(kind, search, tolerance, fo.objective.value, fo.gradient.value)
  }

  /** conjugate_gradient from x0 (the zero vector when the caller passes
      NULL).  The checks come in the code's order: the allocations, the
      function object, the line search parameter, the gradient at x0. */
  function Solve(x0: seq<real>, fo: NL.FunctionObject, kind: LineSearchKind,
                 search: NL.Option<LS.Settings>, q: NL.Option<CgSettings>, outOfMemory: bool): (r: Answer)
    requires |x0| >= 1
    ensures |r.x| == |x0|
  {
    if outOfMemory then Answer(OutOfMemory, x0)
    else if fo.objective.None? || fo.gradient.None? then Answer(NoFunction, x0)
    else if search.None? then Answer(NoParameter, x0)
    else if NL.HasNaN(NL.GradientAt(fo.gradient.value, x0)) then Answer(FunctionNaN, x0)
    else
      var settings := if q.Some? then q.value else DefaultSettings;
      var r := Optimise(Configure(fo, kind, search.value, settings.tolerance), Start(x0, fo.gradient.value), settings.upperIter);
      Answer(StatusOf(r.exit), r.st.x)
  }

  // ---------------------------------------------------------------------
  // Properties

  /** The Fletcher-Reeves ratio is never negative. */
  lemma FletcherReevesNonNegative(g: seq<real>, gt: seq<real>)
    requires |g| == |gt| && Dot(g, g) != 0.0
    ensures FletcherReeves(g, gt) >= 0.0
    ensures FletcherReeves(g, gt) == 0.0 <==> gt == Zeros(|gt|)
  {
    SumSquaresNonNegative(g, |g|);
    SumSquaresNonNegative(gt, |gt|);
    if gt != Zeros(|gt|) {
      DotSelfPositive(gt);
    } else {
      SumProdZero(gt, |gt|);
    }
  }

  /** The slope of the new direction: g_temp . d' = beta (g_temp . d) - |g_temp|^2.
      After an exact line search (g_temp . d = 0) the new direction is a
      descent direction unless g_temp vanishes. */
  lemma NextDirectionSlope(gt: seq<real>, beta: real, d: seq<real>)
    requires |gt| == |d|
    ensures Dot(gt, NextDirection(gt, beta, d)) == beta * Dot(gt, d) - Dot(gt, gt)
    ensures Dot(gt, d) == 0.0 && gt != Zeros(|gt|) ==> Dot(gt, NextDirection(gt, beta, d)) < 0.0
  {
    var n := |gt|;
    SumProdLinear(Neg(gt), beta, d, gt, n);
    SumProdSymmetric(gt, NextDirection(gt, beta, d), n);
    SumProdSymmetric(Neg(gt), gt, n);
    SumProdSymmetric(d, gt, n);
    SumProdNeg(gt, gt, n);
    if gt != Zeros(n) {
      DotSelfPositive(gt);
    }
  }

  /** The first direction is steepest descent: g . d = -|g|^2 < 0 unless g = 0. */
  lemma StartDescends(x0: seq<real>, gradient: NL.Gradient)
    requires |x0| >= 1
    ensures var st := Start(x0, gradient);
      Dot(st.g, st.d) == -Dot(st.g, st.g) && (st.g != Zeros(|x0|) ==> Dot(st.g, st.d) < 0.0)
  {
    var st := Start(x0, gradient);
    SumProdNeg(st.g, st.g, |x0|);
    if st.g != Zeros(|x0|) {
      DotSelfPositive(st.g);
    }
  }

  /** The gradient g held in a state is the NaN-free gradient at its x. */
  predicate GradientHeld(cfg: Config, st: State)
  {
    !NL.HasNaN(NL.GradientAt(cfg.gradient, st.x)) && st.g == NL.Values(NL.GradientAt(cfg.gradient, st.x))
  }

  /** A completed iteration moves x to x + alpha d with alpha meeting the
      Armijo decrease, holds the NaN-free gradient there, whose norm is not
      below the tolerance, and turns d into -g_{k+1} + beta d with the
      Fletcher-Reeves beta. */
  lemma IterationContinues(cfg: Config, st: State)
    requires Fits(st) && Iteration(cfg, st).Continue?
    ensures var st' := Iteration(cfg, st).st;
      st'.x == Step(st.x, st'.c.alpha, st.d) &&
      GradientHeld(cfg, st') && NormInf(st'.g) >= cfg.tolerance &&
      cfg.objective(st.x).Num? && cfg.objective(st'.x).Num? &&
      cfg.objective(st'.x).val <= LS.ArmijoBound(cfg.objective(st.x).val, cfg.search.xi, st'.c.alpha, Dot(st.g, st.d)) &&
      Dot(st.g, st.g) != 0.0 &&
      st'.d == NextDirection(st'.g, FletcherReeves(st.g, st'.g), st.d)
  {
    ChosenSearchOutcome(cfg.kind, cfg.search, SearchProblem(cfg, st), st.c);
  }

  /** SATISFIED is returned with x NOT moved: the point whose gradient met the
      tolerance is x + alpha d, which the code never copies into x. */
  lemma IterationConverged(cfg: Config, st: State)
    requires Fits(st) && Iteration(cfg, st).Stop? && Iteration(cfg, st).exit == Converged
    ensures var st' := Iteration(cfg, st).st;
      var gv := NL.GradientAt(cfg.gradient, Step(st.x, st'.c.alpha, st'.d));
      st'.x == st.x && st'.g == st.g && st'.d == st.d &&
      !NL.HasNaN(gv) && NormInf(NL.Values(gv)) < cfg.tolerance
  {
  }

  /** What the loop keeps: g is the gradient at x, and d is zero whenever g is. */
  predicate Kept(cfg: Config, st: State)
    requires Fits(st)
  {
    GradientHeld(cfg, st) && (st.g == Zeros(|st.x|) ==> st.d == Zeros(|st.x|))
  }

  /** With a positive tolerance one iteration never meets g . g = 0: a zero
      gradient comes with a zero direction, so x + alpha d is x, its
      gradient norm 0 is below the tolerance and the loop stops first. */
  lemma IterationKept(cfg: Config, st: State)
    requires Fits(st) && Kept(cfg, st) && cfg.tolerance > 0.0
    ensures var it := Iteration(cfg, st);
      (it.Stop? ==> it.exit != ZeroGradient) && (it.Continue? ==> Kept(cfg, it.st))
  {
    var n := |st.x|;
    var it := Iteration(cfg, st);
    if st.g == Zeros(n) {
      var o := LS.Search(KindRule(cfg.kind, cfg.search), SearchProblem(cfg, st), st.c);
      StepAlongZero(st.x, o.after.alpha);
      NormInfZero(st.g);
    } else {
      DotSelfPositive(st.g);
      if it.Continue? {
        IterationContinues(cfg, st);
        NormInfZero(it.st.g);
      }
    }
  }

  lemma {:induction false} LoopKept(cfg: Config, st: State, left: nat, exit: Exit)
    requires Fits(st) && Kept(cfg, st) && cfg.tolerance > 0.0 && exit != ZeroGradient
    ensures Loop(cfg, st, left, exit).exit != ZeroGradient
    decreases left
  {
    if left > 0 {
      var it := Iteration(cfg, st);
      IterationKept(cfg, st);
      if it.Continue? {
        LoopKept(cfg, it.st, left - 1, NoExit);
      }
    }
  }

  /** With a positive tolerance conjugate_gradient never divides by g . g = 0,
      so the model's DivisionByZero status is never returned. */
  lemma NeverDividesByZero(x0: seq<real>, fo: NL.FunctionObject, kind: LineSearchKind,
                           search: NL.Option<LS.Settings>, q: NL.Option<CgSettings>, outOfMemory: bool)
    requires |x0| >= 1
    requires (if q.Some? then q.value else DefaultSettings).tolerance > 0.0
    ensures Solve(x0, fo, kind, search, q, outOfMemory).status != DivisionByZero
  {
    if !outOfMemory && fo.objective.Some? && fo.gradient.Some? && search.Some? &&
       !NL.HasNaN(NL.GradientAt(fo.gradient.value, x0)) {
      var settings := if q.Some? then q.value else DefaultSettings;
      var cfg := Configure(fo, kind, search.value, settings.tolerance);
      var st := Start(x0, fo.gradient.value);
      assert Neg(Zeros(|x0|)) == Zeros(|x0|);
      LoopKept(cfg, st, if settings.upperIter <= 0 then 0 else settings.upperIter, NoExit);
    }
  }

  /** When the loop converges, the point whose gradient met the tolerance is
      x + alpha d, one step beyond the x the loop ends with. */
  lemma {:induction false} LoopConverged(cfg: Config, st: State, left: nat, exit: Exit)
    requires Fits(st) && exit != Converged
    ensures var r := Loop(cfg, st, left, exit);
      var gv := NL.GradientAt(cfg.gradient, Step(r.st.x, r.st.c.alpha, r.st.d));
      r.exit == Converged ==> !NL.HasNaN(gv) && NormInf(NL.Values(gv)) < cfg.tolerance
    decreases left
  {
    if left > 0 {
      var it := Iteration(cfg, st);
      if it.Continue? {
        LoopConverged(cfg, it.st, left - 1, NoExit);
      } else if it.exit == Converged {
        IterationConverged(cfg, st);
      }
    }
  }

  /** CONJUGATE_GRADIENT_SATISFIED means the gradient norm at x + alpha d
      fell below the tolerance. */
  lemma SatisfiedMeans(x0: seq<real>, fo: NL.FunctionObject, kind: LineSearchKind,
                       search: NL.Option<LS.Settings>, q: NL.Option<CgSettings>, outOfMemory: bool)
    requires |x0| >= 1 && Solve(x0, fo, kind, search, q, outOfMemory).status == Satisfied
    ensures !outOfMemory && fo.objective.Some? && fo.gradient.Some? && search.Some?
    ensures var settings := if q.Some? then q.value else DefaultSettings;
      var r := Optimise(Configure(fo, kind, search.value, settings.tolerance), Start(x0, fo.gradient.value), settings.upperIter);
      var gv := NL.GradientAt(fo.gradient.value, Step(r.st.x, r.st.c.alpha, r.st.d));
      r.exit == Converged && !NL.HasNaN(gv) && NormInf(NL.Values(gv)) < settings.tolerance
  {
    var settings := if q.Some? then q.value else DefaultSettings;
    var cfg := Configure(fo, kind, search.value, settings.tolerance);
    LoopConverged(cfg, Start(x0, fo.gradient.value), if settings.upperIter <= 0 then 0 else settings.upperIter, NoExit);
  }

  /** With upper_iter <= 0 the loop body never runs: x is returned as it
      started and the status is never assigned. */
  lemma NoIterations(x0: seq<real>, fo: NL.FunctionObject, kind: LineSearchKind, search: LS.Settings, q: CgSettings)
    requires |x0| >= 1 && fo.objective.Some? && fo.gradient.Some? && !NL.HasNaN(NL.GradientAt(fo.gradient.value, x0))
    requires q.upperIter <= 0
    ensures Solve(x0, fo, kind, NL.Some(search), NL.Some(q), false) == Answer(Status.Unassigned, x0)
  {
  }

  // ---------------------------------------------------------------------
  // The code, on the arrays

  /** What one pass of the loop body tells the loop. */
  datatype Pass = Stopped(exit: Exit) | Continued

  function PassOf(r: StepResult): (v: Pass)
    ensures v.Stopped? <==> r.Stop?
    ensures r.Stop? ==> v == Stopped(r.exit)
  {
    match r
    case Stop(e, _) => Stopped(e)
    case Continue(_) => Continued
  }

  ghost function Snapshot(x: array<real>, g: array<real>, d: array<real>, component: NL.Component): State
    reads x, g, d, component
  {
    State(x[..], g[..], d[..], component.State())
  }

  /** x, g and d, x_temp and g_temp, and the two halves of the work vector. */
  predicate Arrays(x: array<real>, g: array<real>, d: array<real>, xt: array<real>, gt: array<real>,
                   w1: array<real>, w2: array<real>)
  {
    1 <= x.Length && g.Length == x.Length && d.Length == x.Length &&
    xt.Length == x.Length && gt.Length == x.Length && w1.Length == x.Length && w2.Length == x.Length &&
    x != g && x != d && x != xt && x != gt && x != w1 && x != w2 &&
    g != d && g != xt && g != gt && g != w1 && g != w2 &&
    d != xt && d != gt && d != w1 && d != w2 &&
    xt != gt && xt != w1 && xt != w2 && gt != w1 && gt != w2 && w1 != w2
  }

  /** d[i] = -g[i], the initial direction. */
  method SteepestDirection(d: array<real>, g: array<real>)
    requires d.Length == g.Length && d != g
    modifies d
    ensures d[..] == Neg(g[..])
  {
    var i := 0;
    while i < d.Length
      invariant 0 <= i <= d.Length
      invariant forall k :: 0 <= k < i ==> d[k] == -g[k]
    {
      d[i] := -g[i];
      i := i + 1;
    }
  }

  /** g_norm = sum g[i]^2 and g_norm_temp = sum g_temp[i]^2, in one loop. */
  method SquaredNorms(g: array<real>, gt: array<real>) returns (norm: real, normTemp: real)
    requires g.Length == gt.Length
    ensures norm == Dot(g[..], g[..]) && normTemp == Dot(gt[..], gt[..])
  {
    norm := 0.0;
    normTemp := 0.0;
    var i := 0;
    while i < g.Length
      invariant 0 <= i <= g.Length
      invariant norm == SumProd(g[..], g[..], i) && normTemp == SumProd(gt[..], gt[..], i)
    {
      norm := norm + g[i] * g[i];
      normTemp := normTemp + gt[i] * gt[i];
      i := i + 1;
    }
  }

  /** d[i] = -g_temp[i] + beta * d[i] */
  method UpdateDirection(d: array<real>, gt: array<real>, beta: real)
    requires d.Length == gt.Length && d != gt
    modifies d
    ensures d[..] == NextDirection(gt[..], beta, old(d[..]))
  {
    var i := 0;
    while i < d.Length
      invariant 0 <= i <= d.Length
      invariant forall k :: 0 <= k < i ==> d[k] == -gt[k] + beta * old(d[k])
      invariant forall k :: i <= k < d.Length ==> d[k] == old(d[k])
    {
      d[i] := -gt[i] + beta * d[i];
      i := i + 1;
    }
    ghost var od := old(d[..]);
    assert forall k :: 0 <= k < d.Length ==> d[..][k] == NextDirection(gt[..], beta, od)[k];
  }

  /** One pass of the loop body: the line search along d, x_temp and
      g_temp, the tolerance test, beta, the new d and the two memcpy calls. */
  method Iterate(cfg: Config, x: array<real>, g: array<real>, d: array<real>, xt: array<real>, gt: array<real>,
                 w1: array<real>, w2: array<real>,
                 parameter: LS.LineSearchParameter, component: NL.Component) returns (pass: Pass)
    requires Arrays(x, g, d, xt, gt, w1, w2)
    requires component.objective == cfg.objective && component.gradient == cfg.gradient
    requires parameter.Values() == cfg.search
    modifies x, g, d, xt, gt, w1, w2, component
    ensures var it := Iteration(cfg, old(Snapshot(x, g, d, component)));
      pass == PassOf(it) && Snapshot(x, g, d, component) == it.st
  {
    var search := CallLineSearch(cfg.kind, w1, w2, x, g, d, parameter, component);
    if search == LS.LineSearchFunctionNaN {
      return Stopped(SearchNaN);
    }
    if search == LS.LineSearchFailed {
      return Stopped(SearchFailed);
    }
    MyVector.UpdateStepVector(xt, x, component.alpha, d);
    var status := component.Gradient(gt, xt);
    if status == NL.FunctionNaN {
      return Stopped(GradientNaN);
    }
    var gNorm := MyMath.InfinityNorm(gt);
    if gNorm < cfg.tolerance {
      return Stopped(Converged);
    }
    var norm, normTemp := SquaredNorms(g, gt);
    if norm == 0.0 {
      return Stopped(ZeroGradient);
    }
    var beta := normTemp / norm;
    assert beta == FletcherReeves(g[..], gt[..]);
    UpdateDirection(d, gt, beta);
    MyVector.CopyVector(x, xt);
    MyVector.CopyVector(g, gt);
    return Continued;
  }

  /** for (iter = 1; iter <= upper_iter; ++iter) around the loop body: the
      exit and the final arrays are those of Optimise. */
  method RunIterations(cfg: Config, x: array<real>, g: array<real>, d: array<real>, xt: array<real>, gt: array<real>,
                       w1: array<real>, w2: array<real>,
                       parameter: LS.LineSearchParameter, component: NL.Component, upperIter: int) returns (exit: Exit)
    requires Arrays(x, g, d, xt, gt, w1, w2)
    requires component.objective == cfg.objective && component.gradient == cfg.gradient
    requires parameter.Values() == cfg.search
    modifies x, g, d, xt, gt, w1, w2, component
    ensures var r := Optimise(cfg, old(Snapshot(x, g, d, component)), upperIter);
      exit == r.exit && Snapshot(x, g, d, component) == r.st
  {
    ghost var st0 := Snapshot(x, g, d, component);
    ghost var total: nat := if upperIter <= 0 then 0 else upperIter;
    ghost var st := st0;
    ghost var left := total;
    exit := NoExit;
    var iter := 1;
    while iter <= upperIter
      invariant 1 <= iter && (upperIter >= 1 ==> iter <= upperIter + 1)
      invariant left == total - (iter - 1) && st == Snapshot(x, g, d, component) && Fits(st)
      invariant exit == NoExit && Loop(cfg, st0, total, NoExit) == Loop(cfg, st, left, exit)
      decreases upperIter - iter
    {
      var pass := Iterate(cfg, x, g, d, xt, gt, w1, w2, parameter, component);
      LoopUnfolds(cfg, st, left, exit);
      if pass.Stopped? {
        return pass.exit;
      }
      st, left := Snapshot(x, g, d, component), left - 1;
      iter := iter + 1;
    }
  }

  /** conjugate_gradient(x, n, function_object, line_search,
      line_search_parameter, conjugate_gradient_parameter): the caller's x,
      when given, ends with the contents Solve describes. */
  method ConjugateGradient(x: array?<real>, n: int, functionObject: NL.FunctionObject, kind: LineSearchKind,
                           lineSearchParameter: LS.LineSearchParameter?, parameter: ConjugateGradientParameter?,
                           outOfMemory: bool) returns (status: Status)
    requires n >= 1 && (x != null ==> x.Length == n)
    modifies x
    ensures var r := Solve(if x == null then Zeros(n) else old(x[..]), functionObject, kind,
                           if lineSearchParameter == null then NL.None else NL.Some(lineSearchParameter.Values()),
                           if parameter == null then NL.None else NL.Some(parameter.Values()),
                           outOfMemory);
      status == r.status && (x != null ==> x[..] == r.x)
  {
    if outOfMemory {
      return OutOfMemory;
    }
    var xs: array<real>;
    if x == null {
      xs := new real[n];
      MyVector.ZeroVector(xs);
    } else {
      xs := x;
    }
    if functionObject.objective.None? || functionObject.gradient.None? {
      return NoFunction;
    }
    var settings := parameter;
    if settings == null {
      settings := new ConjugateGradientParameter;
      DefaultConjugateGradientParameter(settings);
    }
    if lineSearchParameter == null {
      return NoParameter;
    }
    status := Minimise(xs, functionObject, kind, lineSearchParameter, settings.Values());
  }

  /** The part of conjugate_gradient after the checks of the arguments: the
      work vectors, the component, the first gradient, d = -g and the loop. */
  method Minimise(x: array<real>, fo: NL.FunctionObject, kind: LineSearchKind,
                  lineSearchParameter: LS.LineSearchParameter, settings: CgSettings) returns (status: Status)
    requires 1 <= x.Length && fo.objective.Some? && fo.gradient.Some?
    modifies x
    ensures var r := Solve(old(x[..]), fo, kind, NL.Some(lineSearchParameter.Values()), NL.Some(settings), false);
      status == r.status && x[..] == r.x
  {
    var n := x.Length;
    var d := new real[n];
    var g := new real[n];
    var xt := new real[n];
    var gt := new real[n];
    var workX := new real[n];
    var workG := new real[n];
    var component := new NL.Component(fo.objective.value, fo.gradient.value);
    var gradientStatus := component.Gradient(g, x);
    if gradientStatus == NL.FunctionNaN {
      return FunctionNaN;
    }
    SteepestDirection(d, g);
    var cfg := Configure(fo, kind, lineSearchParameter.Values(), settings.tolerance);
    assert Snapshot(x, g, d, component) == Start(x[..], fo.gradient.value);
    var exit := RunIterations(cfg, x, g, d, xt, gt, workX, workG, lineSearchParameter, component, settings.upperIter);
    status := StatusOf(exit);
  }
}
