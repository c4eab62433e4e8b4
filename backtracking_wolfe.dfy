// src/backtracking_wolfe.c: the Wolfe line search with two widths, over
// x_temp and g_temp that it allocates itself.  The gradient evaluator's
// status is ignored: a NaN component makes gd_temp NaN and the curvature
// comparison false, so that trial is rejected with `increasing`.
module BacktrackingWolfe {
  import opened Vectors
  import opened NonLinearComponent
  import opened LineSearchComponent

  /** beta starts at step_width (or 1), a failed Armijo test multiplies it by
      `decreasing` and a failed curvature bound by `increasing`. */
  function BacktrackingWolfeRule(s: Settings): Rule
  {
    Rule(WolfeTest, Backtrack(s.decreasing, s.increasing), s.xi, s.sigma, false, PositiveOrOne(s.stepWidth), MaxTrials)
  }

  method BacktrackingWolfeSearch(x: array<real>, g: array<real>, d: array<real>,
                                 parameter: LineSearchParameter, component: Component) returns (status: LineSearchStatus)
    requires 1 <= x.Length && g.Length == x.Length && d.Length == x.Length
    modifies component
    ensures Outcome(status, component.State()) ==
      Search(BacktrackingWolfeRule(parameter.Values()), Problem(component.objective, component.gradient, x[..], g[..], d[..]), old(component.State()))
  {
    var xTemp := new real[x.Length];
    var gTemp := new real[x.Length];
    status := RunSearch(BacktrackingWolfeRule(parameter.Values()), component, x, g, d, xTemp, gTemp);
  }

  /** The first trial is step_width if positive and 1 otherwise; tau plays no part. */
  lemma BacktrackingWolfeFirst(s: Settings, p: Problem, c: Counters, tau: real)
    requires Shaped(p) && p.objective(p.x).Num?
    ensures var r := BacktrackingWolfeRule(s);
      var ts := Trials(r, p, p.objective(p.x).val, r.first, r.cap);
      Search(r, p, c) == Search(BacktrackingWolfeRule(s.(tau := tau)), p, c) &&
      |ts| >= 1 && ts[0] == (if s.stepWidth > 0.0 then s.stepWidth else 1.0)
  {
    var r := BacktrackingWolfeRule(s);
    RunTrials(r, p, p.objective(p.x).val, r.first, r.cap, Counters(NaN, 0.0, 0, 0));
  }

  /** What backtracking_wolfe promises: SATISFIED only where the Armijo
      decrease and the curvature bound hold, with a NaN-free gradient there;
      FAILED only after 10000 trials, with alpha untouched. */
  lemma BacktrackingWolfeOutcome(s: Settings, p: Problem, c: Counters)
    requires Shaped(p)
    ensures var o := Search(BacktrackingWolfeRule(s), p, c);
      var xt := Step(p.x, o.after.alpha, p.d);
      var gv := GradientAt(p.gradient, xt);
      o.after.iterationF <= c.iterationF + 1 + MaxTrials &&
      (o.status == LineSearchSatisfied ==>
         p.objective(p.x).Num? && p.objective(xt).Num? &&
         p.objective(xt).val <= ArmijoBound(p.objective(p.x).val, s.xi, o.after.alpha, Dot(p.g, p.d)) &&
         !HasNaN(gv) && Times(s.sigma, Dot(p.g, p.d)) <= Dot(Values(gv), p.d)) &&
      (o.status == LineSearchFailed ==> o.after.iterationF == c.iterationF + 1 + MaxTrials && o.after.alpha == c.alpha)
  {
    var r := BacktrackingWolfeRule(s);
    SearchOutcome(r, p, c);
  }

  /** A finite f(x) then FUNCTION_NAN only through a NaN objective at a trial. */
  lemma BacktrackingWolfeNaN(s: Settings, p: Problem, c: Counters)
    requires Shaped(p) && p.objective(p.x).Num?
    ensures var r := BacktrackingWolfeRule(s);
      var ts := Trials(r, p, p.objective(p.x).val, r.first, r.cap);
      Search(r, p, c).status == LineSearchFunctionNaN ==> |ts| > 0 && p.objective(TrialPoint(p, ts[|ts| - 1])).NaN?
  {
    SearchIgnoresGradientNaN(BacktrackingWolfeRule(s), p, c);
  }

  /** Each rejection multiplies beta by `decreasing` after a failed Armijo
      test and by `increasing` after a failed (or NaN) curvature bound; the
      curvature bound never fails in the other direction. */
  lemma BacktrackingWolfeSteps(s: Settings, p: Problem)
    requires Shaped(p) && p.objective(p.x).Num?
    ensures var r := BacktrackingWolfeRule(s);
      var fx := p.objective(p.x).val;
      var ts := Trials(r, p, fx, r.first, r.cap);
      forall k :: 0 <= k < |ts| - 1 ==> BacktrackStep(r, p, fx, ts[k], ts[k + 1])
  {
    SearchBacktrackingTrials(BacktrackingWolfeRule(s), p);
  }
}
