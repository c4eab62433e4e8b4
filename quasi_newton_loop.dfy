// The iteration of src/quasi_newton.c (lines 204-261), which
// src/quasi_newton_bfgs.c repeats with its own status names (lines
// 196-251).  Each iteration finds a direction d from the matrix, runs the
// line search along d, evaluates the gradient at x + alpha d, stops when
// its infinity norm is below the tolerance, and otherwise updates the
// matrix from s = x_{k+1} - x_k and y = g_{k+1} - g_k and moves on.
module QuasiNewtonLoop {
  import opened Vectors
  import opened Matrices
  import opened NonLinearComponent
  import opened LineSearchComponent
  import opened LineSearchChoice
  import opened QuasiNewtonFormula
  import MyMath
  import MyVector

  /** What the iteration reads and never changes. */
  datatype Config = Config(
    formula: Formula, kind: LineSearchKind, search: Settings, tolerance: real, sweeps: nat,
    objective: Objective, gradient: Gradient)

  /** x, g and d, the matrix, and the component's counters. */
  datatype State = State(x: seq<real>, g: seq<real>, d: seq<real>, b: seq<seq<real>>, c: Counters)

  predicate Fits(st: State)
  {
    |st.x| >= 1 && |st.g| == |st.x| && |st.d| == |st.x| && IsSquare(st.b, |st.x|)
  }

  /** Why the loop ended.  Converged: the gradient norm at x + alpha d fell
      below the tolerance.  Exhausted: upper_iter iterations ran, and the
      status is that of the last update.  Unassigned: no iteration ran, so the
      code returns an unassigned status.  ZeroCurvatureStop: the model's exit
      where the B formula would divide by zero. */
  datatype Exit =
    | Converged
    | Exhausted(last: UpdateStatus)
    | Unassigned
    | DirectionFailed(sor: MyMath.SorStatus)
    | SearchNaN
    | SearchFailed
    | GradientNaN
    | ZeroCurvatureStop

  datatype StepResult = Stop(exit: Exit, st: State) | Continue(update: UpdateStatus, st: State)

  datatype Finish = Finish(exit: Exit, st: State)

  /** The direction search of the formula; the H formula always succeeds. */
  function Direction(cfg: Config, st: State): (r: MyMath.SorResult)
    requires Fits(st)
    ensures |r.x| == |st.x|
  {
    match cfg.formula
    case HFormula => MyMath.SorResult(MyMath.Satisfied, HDirection(st.b, st.g), st.d)
    case BFormula => BDirection(st.b, st.g, st.d, cfg.sweeps)
  }

  function SearchProblem(cfg: Config, st: State, d: seq<real>): (p: Problem)
    requires Fits(st) && |d| == |st.x|
    ensures Shaped(p)
  {
    Problem(cfg.objective, cfg.gradient, st.x, st.g, d)
  }

  /** One pass of the loop body, exit for exit: the direction search, then Proceed. */
  function Iteration(cfg: Config, st: State): (r: StepResult)
    requires Fits(st)
    ensures Fits(r.st) && |r.st.x| == |st.x|
  {
    var dr := Direction(cfg, st);
    var st1 := st.(d := dr.x);
    if dr.status != MyMath.Satisfied then Stop(DirectionFailed(dr.status), st1)
    else Proceed(cfg, st1)
  }

  /** The loop body after the direction search: the line search along d,
      the gradient at x + alpha d and the tolerance test, then Advance. */
  function Proceed(cfg: Config, st: State): (r: StepResult)
    requires Fits(st)
    ensures Fits(r.st) && |r.st.x| == |st.x|
  {
    var o := Search(KindRule(cfg.kind, cfg.search), SearchProblem(cfg, st, st.d), st.c);
    var st2 := st.(c := o.after);
    if o.status == LineSearchFunctionNaN then Stop(SearchNaN, st2)
    else if o.status == LineSearchFailed then Stop(SearchFailed, st2)
    else
      var xt := Step(st.x, o.after.alpha, st.d);
      var gv := GradientAt(cfg.gradient, xt);
      var st3 := st2.(c := AfterGradient(o.after));
      if HasNaN(gv) then Stop(GradientNaN, st3)
      else
        var gt := Values(gv);
        if NormInf(gt) < cfg.tolerance then Stop(Converged, st3)
        else Advance(cfg, st3, xt, gt)
  }

  /** The end of the loop body: the matrix update from s = xt - x and
      y = gt - g, then x := xt and g := gt. */
  function Advance(cfg: Config, st: State, xt: seq<real>, gt: seq<real>): (r: StepResult)
    requires Fits(st) && |xt| == |st.x| && |gt| == |st.x|
    ensures Fits(r.st) && |r.st.x| == |st.x|
  {
    var u := UpdateFor(cfg.formula, st.b, Sub(xt, st.x), Sub(gt, st.g));
    if u.status == ZeroCurvature then Stop(ZeroCurvatureStop, st.(x := u.work))
    else Continue(u.status, st.(x := xt, g := gt, b := u.m))
  }

  /** The loop with `left` iterations to go; `exit` is what it returns if none is left. */
  function Loop(cfg: Config, st: State, left: nat, exit: Exit): (r: Finish)
    requires Fits(st)
    ensures Fits(r.st) && |r.st.x| == |st.x|
    decreases left, 1
  {
    if left == 0 then Finish(exit, st) else Resume(cfg, st, left)
  }

  /** One pass, then return or go on with one iteration fewer. */
  function Resume(cfg: Config, st: State, left: nat): (r: Finish)
    requires Fits(st) && left >= 1
    ensures Fits(r.st) && |r.st.x| == |st.x|
    decreases left, 0
  {
    match Iteration(cfg, st)
    case Stop(e, st') => Finish(e, st')
    case Continue(u, st') => Loop(cfg, st', left - 1, Exhausted(u))
  }

  /** One unfolding of the loop. */
  lemma LoopUnfolds(cfg: Config, st: State, left: nat, exit: Exit)
    requires Fits(st) && left >= 1
    ensures var it := Iteration(cfg, st);
      Loop(cfg, st, left, exit) ==
        if it.Stop? then Finish(it.exit, it.st) else Loop(cfg, it.st, left - 1, Exhausted(it.update))
  {
  }

  /** for (iter = 1; iter <= upper_iter; ++iter): no iteration when upper_iter <= 0. */
  function Optimise(cfg: Config, st: State, upperIter: int): (r: Finish)
    requires Fits(st)
    ensures Fits(r.st) && |r.st.x| == |st.x|
  {
    Loop(cfg, st, if upperIter <= 0 then 0 else upperIter, Unassigned)
  }

  // ---------------------------------------------------------------------
  // Properties of one iteration

  /** The gradient g held in a state is the NaN-free gradient at its x. */
  predicate GradientHeld(cfg: Config, st: State)
  {
    !HasNaN(GradientAt(cfg.gradient, st.x)) && st.g == Values(GradientAt(cfg.gradient, st.x))
  }

  /** SATISFIED is returned with x NOT moved: the point whose gradient met the
      tolerance is x + alpha d, which the code never copies into x. */
  lemma IterationConverged(cfg: Config, st: State)
    requires Fits(st) && Iteration(cfg, st).Stop? && Iteration(cfg, st).exit == Converged
    ensures var st' := Iteration(cfg, st).st;
      var gv := GradientAt(cfg.gradient, Step(st.x, st'.c.alpha, st'.d));
      st'.x == st.x && st'.g == st.g && st'.b == st.b &&
      !HasNaN(gv) && NormInf(Values(gv)) < cfg.tolerance
  {
  }

  /** A completed iteration moves x to x + alpha d with alpha meeting the
      Armijo decrease, holds the NaN-free gradient there, whose norm is not
      below the tolerance, and updates the matrix only when s . y > 0. */
  lemma IterationContinues(cfg: Config, st: State)
    requires Fits(st) && Iteration(cfg, st).Continue?
    ensures var st' := Iteration(cfg, st).st;
      var s, y := Sub(st'.x, st.x), Sub(st'.g, st.g);
      st'.x == Step(st.x, st'.c.alpha, st'.d) &&
      GradientHeld(cfg, st') && NormInf(st'.g) >= cfg.tolerance &&
      cfg.objective(st.x).Num? && cfg.objective(st'.x).Num? &&
      cfg.objective(st'.x).val <= ArmijoBound(cfg.objective(st.x).val, cfg.search.xi, st'.c.alpha, Dot(st.g, st'.d)) &&
      Iteration(cfg, st).update == UpdateFor(cfg.formula, st.b, s, y).status &&
      st'.b == UpdateFor(cfg.formula, st.b, s, y).m &&
      (Iteration(cfg, st).update == Updated <==> Dot(s, y) > 0.0) &&
      (Iteration(cfg, st).update == NotUpdated ==> st'.b == st.b)
  {
    var dr := Direction(cfg, st);
    ChosenSearchOutcome(cfg.kind, cfg.search, SearchProblem(cfg, st, dr.x), st.c);
    var st' := Iteration(cfg, st).st;
    var s, y := Sub(st'.x, st.x), Sub(st'.g, st.g);
    match cfg.formula
    case HFormula => HUpdateWhen(st.b, s, y);
    case BFormula => BUpdateWhen(st.b, s, y);
  }

  /** After an update, the new matrix satisfies the secant equation of its
      formula: H' y = s, or B' s = y. */
  lemma IterationSecant(cfg: Config, st: State)
    requires Fits(st) && Iteration(cfg, st).Continue? && Iteration(cfg, st).update == Updated
    ensures var st' := Iteration(cfg, st).st;
      var s, y := Sub(st'.x, st.x), Sub(st'.g, st.g);
      (cfg.formula == HFormula ==> MatVec(st'.b, y) == s) &&
      (cfg.formula == BFormula ==> MatVec(st'.b, s) == y)
  {
    var st' := Iteration(cfg, st).st;
    var s, y := Sub(st'.x, st.x), Sub(st'.g, st.g);
    match cfg.formula
    case HFormula => HSecant(st.b, s, y);
    case BFormula => BSecant(st.b, s, y);
  }

  /** The H formula never reads the d left by the previous iteration. */
  lemma IterationIgnoresDirection(cfg: Config, st: State, d: seq<real>)
    requires Fits(st) && |d| == |st.x| && cfg.formula == HFormula
    ensures Iteration(cfg, st.(d := d)) == Iteration(cfg, st)
  {
    var dr := Direction(cfg, st);
    assert Direction(cfg, st.(d := d)).x == dr.x;
    assert st.(d := d).(d := dr.x) == st.(d := dr.x);
  }

  /** Every exit but the model's zero-curvature exit leaves x, g and the
      matrix as the iteration found them. */
  lemma IterationStops(cfg: Config, st: State)
    requires Fits(st) && Iteration(cfg, st).Stop? && Iteration(cfg, st).exit != ZeroCurvatureStop
    ensures var st' := Iteration(cfg, st).st;
      st'.x == st.x && st'.g == st.g && st'.b == st.b
  {
  }

  // ---------------------------------------------------------------------
  // Properties of the loop

  /** Every iteration keeps a symmetric matrix symmetric. */
  lemma {:induction false} LoopSymmetric(cfg: Config, st: State, left: nat, exit: Exit)
    requires Fits(st) && Symmetric(st.b, |st.x|)
    ensures Symmetric(Loop(cfg, st, left, exit).st.b, |st.x|)
    decreases left
  {
    if left > 0 {
      var it := Iteration(cfg, st);
      if it.Continue? {
        var st' := it.st;
        UpdateSymmetric(cfg.formula, st.b, Sub(st'.x, st.x), Sub(st'.g, st.g));
        LoopSymmetric(cfg, st', left - 1, Exhausted(it.update));
      }
    }
  }

  /** One iteration keeps g the gradient at x, except at the zero-curvature exit. */
  lemma IterationGradientHeld(cfg: Config, st: State)
    requires Fits(st) && GradientHeld(cfg, st)
    ensures var it := Iteration(cfg, st);
      (it.Continue? || it.exit != ZeroCurvatureStop) ==> GradientHeld(cfg, it.st)
  {
    var it := Iteration(cfg, st);
    if it.Continue? {
      IterationContinues(cfg, st);
    } else if it.exit != ZeroCurvatureStop {
      IterationStops(cfg, st);
    }
  }

  /** Unless the model's zero-curvature exit fires, the loop ends with g
      the NaN-free gradient at x, provided it started that way. */
  lemma {:induction false} LoopGradientHeld(cfg: Config, st: State, left: nat, exit: Exit)
    requires Fits(st) && GradientHeld(cfg, st)
    ensures var r := Loop(cfg, st, left, exit);
      r.exit != ZeroCurvatureStop ==> GradientHeld(cfg, r.st)
    decreases left
  {
    if left > 0 {
      var it := Iteration(cfg, st);
      IterationGradientHeld(cfg, st);
      if it.Continue? {
        LoopGradientHeld(cfg, it.st, left - 1, Exhausted(it.update));
      }
    }
  }

  /** With the H formula the result does not depend on the direction the
      loop starts with (the code starts with uninitialised storage). */
  lemma LoopIgnoresStartDirection(cfg: Config, st: State, d: seq<real>, left: nat, exit: Exit)
    requires Fits(st) && |d| == |st.x| && cfg.formula == HFormula && left >= 1
    ensures Loop(cfg, st.(d := d), left, exit) == Loop(cfg, st, left, exit)
  {
    IterationIgnoresDirection(cfg, st, d);
  }

  /** One iteration from the zero matrix with the H formula: d = -0 g is
      zero, so x + alpha d is x itself, s = y = 0 and the update is skipped. */
  lemma IterationFromZeroMatrix(cfg: Config, st: State)
    requires Fits(st) && cfg.formula == HFormula && st.b == ZeroMatrix(|st.x|) && GradientHeld(cfg, st)
    ensures var it := Iteration(cfg, st);
      it.st.x == st.x && it.st.b == st.b &&
      (it.Continue? ==> it.update == NotUpdated && GradientHeld(cfg, it.st)) &&
      (it.Stop? ==> it.exit in {Converged, SearchNaN, SearchFailed})
  {
    var n := |st.x|;
    HDirectionZero(st.g);
    var o := Search(KindRule(cfg.kind, cfg.search), SearchProblem(cfg, st, Zeros(n)), st.c);
    StepAlongZero(st.x, o.after.alpha);
    var it := Iteration(cfg, st);
    if it.Continue? {
      IterationContinues(cfg, st);
      assert Sub(it.st.x, st.x) == Zeros(n);
      SumProdZero(Sub(it.st.g, st.g), n);
    }
  }

  /** Starting from the zero matrix with the H formula the loop never moves
      x: every line search runs along the zero direction, and the loop ends
      with x and the matrix as they started. */
  lemma {:induction false} LoopFromZeroMatrix(cfg: Config, st: State, left: nat, exit: Exit)
    requires Fits(st) && cfg.formula == HFormula && st.b == ZeroMatrix(|st.x|) && GradientHeld(cfg, st)
    ensures var r := Loop(cfg, st, left, exit);
      r.st.x == st.x && r.st.b == st.b &&
      (r.exit == exit || r.exit in {Converged, Exhausted(NotUpdated), SearchNaN, SearchFailed})
    decreases left
  {
    if left > 0 {
      var it := Iteration(cfg, st);
      IterationFromZeroMatrix(cfg, st);
      if it.Continue? {
        LoopFromZeroMatrix(cfg, it.st, left - 1, Exhausted(NotUpdated));
      }
    }
  }

  /** One iteration never stops on a direction search that succeeded, and
      never continues after the zero-curvature outcome. */
  lemma IterationExits(cfg: Config, st: State)
    requires Fits(st)
    ensures var it := Iteration(cfg, st);
      (it.Stop? ==> it.exit != DirectionFailed(MyMath.Satisfied)) &&
      (it.Continue? ==> it.update != ZeroCurvature)
  {
  }

  /** The loop never leaves through a direction search that succeeded. */
  lemma {:induction false} LoopDirectionExit(cfg: Config, st: State, left: nat, exit: Exit)
    requires Fits(st) && exit != DirectionFailed(MyMath.Satisfied)
    ensures Loop(cfg, st, left, exit).exit != DirectionFailed(MyMath.Satisfied)
    decreases left
  {
    if left > 0 {
      var it := Iteration(cfg, st);
      IterationExits(cfg, st);
      if it.Continue? {
        LoopDirectionExit(cfg, it.st, left - 1, Exhausted(it.update));
      }
    }
  }

  /** The loop never reports the zero-curvature outcome as the last update. */
  lemma {:induction false} LoopLastUpdate(cfg: Config, st: State, left: nat, exit: Exit)
    requires Fits(st) && exit != Exhausted(ZeroCurvature)
    ensures Loop(cfg, st, left, exit).exit != Exhausted(ZeroCurvature)
    decreases left
  {
    if left > 0 {
      var it := Iteration(cfg, st);
      IterationExits(cfg, st);
      if it.Continue? {
        LoopLastUpdate(cfg, it.st, left - 1, Exhausted(it.update));
      }
    }
  }

  /** Both of the above, for a loop that starts from a neutral exit. */
  lemma LoopExits(cfg: Config, st: State, left: nat, exit: Exit)
    requires Fits(st) && exit != DirectionFailed(MyMath.Satisfied) && exit != Exhausted(ZeroCurvature)
    ensures var r := Loop(cfg, st, left, exit);
      r.exit != DirectionFailed(MyMath.Satisfied) && r.exit != Exhausted(ZeroCurvature)
  {
    LoopDirectionExit(cfg, st, left, exit);
    LoopLastUpdate(cfg, st, left, exit);
  }

  /** When the loop converges, the point whose gradient met the tolerance is
      x + alpha d, one step beyond the x the loop ends with. */
  lemma {:induction false} LoopConverged(cfg: Config, st: State, left: nat, exit: Exit)
    requires Fits(st) && exit != Converged
    ensures var r := Loop(cfg, st, left, exit);
      var gv := GradientAt(cfg.gradient, Step(r.st.x, r.st.c.alpha, r.st.d));
      r.exit == Converged ==> !HasNaN(gv) && NormInf(Values(gv)) < cfg.tolerance
    decreases left
  {
    if left > 0 {
      var it := Iteration(cfg, st);
      if it.Continue? {
        LoopConverged(cfg, it.st, left - 1, Exhausted(it.update));
      } else if it.exit == Converged {
        IterationConverged(cfg, st);
      }
    }
  }

  // ---------------------------------------------------------------------
  // The loop as the code runs it, on the arrays

  /** What one pass of the loop body tells the loop: return with this exit,
      or go on after an update with this status. */
  datatype Pass = Stopped(exit: Exit) | Continued(update: UpdateStatus)

  function PassOf(r: StepResult): (v: Pass)
    ensures v.Stopped? <==> r.Stop?
  {
    match r
    case Stop(e, _) => Stopped(e)
    case Continue(u, _) => Continued(u)
  }

  /** The state the arrays and the component hold. */
  ghost function Snapshot(x: array<real>, g: array<real>, d: array<real>, b: array2<real>, component: Component): State
    reads x, g, d, b, component
  {
    State(x[..], g[..], d[..], Rows(b), component.State())
  }

  /** The arrays one iteration works on: x, g and d and the matrix, x_temp
      and g_temp, s and y, and the two halves of the line search's work
      vector, which may be s and y themselves. */
  predicate Arrays(x: array<real>, g: array<real>, d: array<real>, b: array2<real>,
                   xt: array<real>, gt: array<real>, s: array<real>, y: array<real>,
                   w1: array<real>, w2: array<real>)
  {
    1 <= x.Length && g.Length == x.Length && d.Length == x.Length &&
    b.Length0 == x.Length && b.Length1 == x.Length &&
    xt.Length == x.Length && gt.Length == x.Length && s.Length == x.Length && y.Length == x.Length &&
    w1.Length == x.Length && w2.Length == x.Length &&
    x != g && x != d && x != xt && x != gt && x != s && x != y &&
    g != d && g != xt && g != gt && g != s && g != y &&
    d != xt && d != gt && d != s && d != y &&
    xt != gt && xt != s && xt != y && gt != s && gt != y && s != y &&
    w1 != w2 && w1 != x && w1 != g && w1 != d && w1 != xt && w1 != gt &&
    w2 != x && w2 != g && w2 != d && w2 != xt && w2 != gt
  }

  /** s = x_temp - x and y = g_temp - g, entry by entry. */
  method Differences(s: array<real>, y: array<real>, xt: array<real>, x: array<real>, gt: array<real>, g: array<real>)
    requires s.Length == x.Length && y.Length == x.Length && xt.Length == x.Length && gt.Length == x.Length && g.Length == x.Length
    requires s != y && s != xt && s != x && s != gt && s != g && y != xt && y != x && y != gt && y != g
    modifies s, y
    ensures s[..] == Sub(xt[..], x[..]) && y[..] == Sub(gt[..], g[..])
  {
    var i := 0;
    while i < x.Length
      invariant 0 <= i <= x.Length
      invariant forall k :: 0 <= k < i ==> s[k] == xt[k] - x[k] && y[k] == gt[k] - g[k]
    {
      s[i] := xt[i] - x[i];
      y[i] := gt[i] - g[i];
      i := i + 1;
    }
  }

  /** One pass of the loop body: the direction search, then SearchAlong. */
  method Iterate(cfg: Config, x: array<real>, g: array<real>, d: array<real>, b: array2<real>,
                 xt: array<real>, gt: array<real>, s: array<real>, y: array<real>,
                 w1: array<real>, w2: array<real>,
                 parameter: LineSearchParameter, component: Component) returns (pass: Pass)
    requires Arrays(x, g, d, b, xt, gt, s, y, w1, w2)
    requires component.objective == cfg.objective && component.gradient == cfg.gradient
    requires parameter.Values() == cfg.search
    modifies x, g, d, b, xt, gt, s, y, w1, w2, component
    ensures var it := Iteration(cfg, old(Snapshot(x, g, d, b, component)));
      pass == PassOf(it) && Snapshot(x, g, d, b, component) == it.st
  {
    ghost var st := Snapshot(x, g, d, b, component);
    ghost var dr := Direction(cfg, st);
    match cfg.formula {
      case HFormula =>
        DirectionSearchH(d, b, g);
      case BFormula =>
        var sor := DirectionSearchB(d, b, g, cfg.sweeps);
        if sor != MyMath.Satisfied {
          return Stopped(DirectionFailed(sor));
        }
    }
    assert d[..] == dr.x && dr.status == MyMath.Satisfied;
    assert Snapshot(x, g, d, b, component) == st.(d := dr.x);
    pass := SearchAlong(cfg, x, g, d, b, xt, gt, s, y, w1, w2, parameter, component);
  }

  /** The line search along d, x_temp = x + alpha d, g_temp and the
      tolerance test, then UpdateAndMove. */
  method SearchAlong(cfg: Config, x: array<real>, g: array<real>, d: array<real>, b: array2<real>,
                     xt: array<real>, gt: array<real>, s: array<real>, y: array<real>,
                     w1: array<real>, w2: array<real>,
                     parameter: LineSearchParameter, component: Component) returns (pass: Pass)
    requires Arrays(x, g, d, b, xt, gt, s, y, w1, w2)
    requires component.objective == cfg.objective && component.gradient == cfg.gradient
    requires parameter.Values() == cfg.search
    modifies x, g, b, xt, gt, s, y, w1, w2, component
    ensures var it := Proceed(cfg, old(Snapshot(x, g, d, b, component)));
      pass == PassOf(it) && Snapshot(x, g, d, b, component) == it.st
  {
    var search := CallLineSearch(cfg.kind, w1, w2, x, g, d, parameter, component);
    if search == LineSearchFunctionNaN {
      return Stopped(SearchNaN);
    }
    if search == LineSearchFailed {
      return Stopped(SearchFailed);
    }
    MyVector.UpdateStepVector(xt, x, component.alpha, d);
    var status := component.Gradient(gt, xt);
    if status == FunctionNaN {
      return Stopped(GradientNaN);
    }
    var gNorm := MyMath.InfinityNorm(gt);
    if gNorm < cfg.tolerance {
      return Stopped(Converged);
    }
    pass := UpdateAndMove(cfg, x, g, d, b, xt, gt, s, y, component);
  }

  /** s and y, the matrix update (which writes H y or B s into x) and the
      two memcpy calls. */
  method UpdateAndMove(cfg: Config, x: array<real>, g: array<real>, d: array<real>, b: array2<real>,
                       xt: array<real>, gt: array<real>, s: array<real>, y: array<real>,
                       component: Component) returns (pass: Pass)
    requires Arrays(x, g, d, b, xt, gt, s, y, s, y)
    modifies x, g, b, s, y
    ensures var it := Advance(cfg, old(Snapshot(x, g, d, b, component)), old(xt[..]), old(gt[..]));
      pass == PassOf(it) && Snapshot(x, g, d, b, component) == it.st
  {
    Differences(s, y, xt, x, gt, g);
    var update;
    match cfg.formula {
      case HFormula =>
        update := UpdateMatrixH(b, s, y, x);
      case BFormula =>
        update := UpdateMatrixB(b, s, y, x);
    }
    if update == ZeroCurvature {
      return Stopped(ZeroCurvatureStop);
    }
    MyVector.CopyVector(x, xt);
    MyVector.CopyVector(g, gt);
    return Continued(update);
  }

  /** One pass of the loop body, seen from the loop: with `left` iterations
      to go, the loop either ends where the pass stopped or goes on from the
      new arrays with one iteration fewer. */
  method LoopBody(cfg: Config, x: array<real>, g: array<real>, d: array<real>, b: array2<real>,
                  xt: array<real>, gt: array<real>, s: array<real>, y: array<real>,
                  w1: array<real>, w2: array<real>,
                  parameter: LineSearchParameter, component: Component,
                  ghost left: nat, ghost exit: Exit) returns (pass: Pass)
    requires Arrays(x, g, d, b, xt, gt, s, y, w1, w2) && left >= 1
    requires component.objective == cfg.objective && component.gradient == cfg.gradient
    requires parameter.Values() == cfg.search
    modifies x, g, d, b, xt, gt, s, y, w1, w2, component
    ensures Fits(Snapshot(x, g, d, b, component))
    ensures pass.Stopped? ==>
      Loop(cfg, old(Snapshot(x, g, d, b, component)), left, exit) == Finish(pass.exit, Snapshot(x, g, d, b, component))
    ensures pass.Continued? ==>
      Loop(cfg, old(Snapshot(x, g, d, b, component)), left, exit) ==
      Loop(cfg, Snapshot(x, g, d, b, component), left - 1, Exhausted(pass.update))
  {
    ghost var st := Snapshot(x, g, d, b, component);
    pass := Iterate(cfg, x, g, d, b, xt, gt, s, y, w1, w2, parameter, component);
    LoopUnfolds(cfg, st, left, exit);
  }

  /** r is what the loop returns from st with `left` iterations to go. */
  predicate Remains(cfg: Config, r: Finish, st: State, left: nat, exit: Exit)
  {
    Fits(st) && r == Loop(cfg, st, left, exit)
  }

  /** for (iter = 1; iter <= upper_iter; ++iter) around the loop body: the
      exit and the final arrays are those of Optimise. */
  method RunIterations(cfg: Config, x: array<real>, g: array<real>, d: array<real>, b: array2<real>,
                       xt: array<real>, gt: array<real>, s: array<real>, y: array<real>,
                       w1: array<real>, w2: array<real>,
                       parameter: LineSearchParameter, component: Component, upperIter: int) returns (exit: Exit)
    requires Arrays(x, g, d, b, xt, gt, s, y, w1, w2)
    requires component.objective == cfg.objective && component.gradient == cfg.gradient
    requires parameter.Values() == cfg.search
    modifies x, g, d, b, xt, gt, s, y, w1, w2, component
    ensures var r := Optimise(cfg, old(Snapshot(x, g, d, b, component)), upperIter);
      exit == r.exit && Snapshot(x, g, d, b, component) == r.st
  {
    ghost var st0 := Snapshot(x, g, d, b, component);
    ghost var r0 := Optimise(cfg, st0, upperIter);
    ghost var left: nat := if upperIter <= 0 then 0 else upperIter;
    exit := Unassigned;
    var iter := 1;
    while iter <= upperIter
      invariant 1 <= iter && (upperIter >= 1 ==> iter <= upperIter + 1)
      invariant left == (if upperIter <= 0 then 0 else upperIter) - (iter - 1)
      invariant Remains(cfg, r0, Snapshot(x, g, d, b, component), left, exit)
      decreases upperIter - iter
    {
      var pass := LoopBody(cfg, x, g, d, b, xt, gt, s, y, w1, w2, parameter, component, left, exit);
      match pass {
        case Stopped(e) =>
          return e;
        case Continued(u) =>
          exit := Exhausted(u);
      }
      left := left - 1;
      iter := iter + 1;
    }
  }
}
