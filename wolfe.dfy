// src/wolfe.c: the Wolfe line search over a caller-supplied storage buffer
// (x_temp and g_temp are separate arrays here).  The code compares the
// evaluators' results with NON_LINEAR_FUNCTION_OBJECT_NAN, a name no header
// defines; the model reads it as NON_LINEAR_FUNCTION_NAN.
module Wolfe {
  import opened Vectors
  import opened NonLinearComponent
  import opened LineSearchComponent

  /** default_wolfe_parameter: the same five fields and values as armijo's. */
  method DefaultWolfeParameter(parameter: LineSearchParameter)
    modifies parameter
    ensures parameter.Values() == old(parameter.Values()).(
      upperIter := 5000, initialStep := 0.5, stepWidth := 1.0, xi := 0.001, sigma := 0.2)
  {
    parameter.upperIter := 5000;
    parameter.initialStep := 0.5;
    parameter.stepWidth := 1.0;
    parameter.xi := 0.001;
    parameter.sigma := 0.2;
  }

  /** The Armijo test and sigma*gd <= gd_temp; a NaN gradient ends the
      search; every rejection multiplies beta by initial_step. */
  function WolfeRule(s: Settings): Rule
  {
    Rule(WolfeTest, Fixed(s.initialStep), s.xi, s.sigma, true, s.stepWidth, s.upperIter)
  }

  method WolfeSearch(xTemp: array<real>, gTemp: array<real>, x: array<real>, g: array<real>, d: array<real>,
                     parameter: LineSearchParameter, component: Component) returns (status: LineSearchStatus)
    requires 1 <= x.Length && g.Length == x.Length && d.Length == x.Length
    requires xTemp.Length == x.Length && gTemp.Length == x.Length
    requires xTemp != gTemp && xTemp != x && xTemp != g && xTemp != d
    requires gTemp != x && gTemp != g && gTemp != d
    modifies component, xTemp, gTemp
    ensures Outcome(status, component.State()) ==
      Search(WolfeRule(parameter.Values()), Problem(component.objective, component.gradient, x[..], g[..], d[..]), old(component.State()))
  {
    status := RunSearch(WolfeRule(parameter.Values()), component, x, g, d, xTemp, gTemp);
  }

  /** What wolfe promises: SATISFIED only where the Armijo decrease and the
      curvature bound sigma (g . d) <= g(x + alpha d) . d hold, with a NaN-free
      gradient there; at most one gradient call per trial; FAILED only after
      upper_iter trials, with alpha untouched. */
  lemma WolfeOutcome(s: Settings, p: Problem, c: Counters)
    requires Shaped(p)
    ensures var o := Search(WolfeRule(s), p, c);
      var xt := Step(p.x, o.after.alpha, p.d);
      var gv := GradientAt(p.gradient, xt);
      o.after.iterationF <= c.iterationF + 1 + s.upperIter &&
      o.after.iterationG - c.iterationG <= o.after.iterationF - c.iterationF - 1 &&
      (o.status == LineSearchSatisfied ==>
         p.objective(p.x).Num? && p.objective(xt).Num? &&
         p.objective(xt).val <= ArmijoBound(p.objective(p.x).val, s.xi, o.after.alpha, Dot(p.g, p.d)) &&
         !HasNaN(gv) && Times(s.sigma, Dot(p.g, p.d)) <= Dot(Values(gv), p.d)) &&
      (o.status == LineSearchFailed ==> o.after.iterationF == c.iterationF + 1 + s.upperIter && o.after.alpha == c.alpha)
  {
    SearchOutcome(WolfeRule(s), p, c);
  }

  /** FUNCTION_NAN after a finite f(x) comes from the last trial: f or some
      gradient component was NaN there. */
  lemma WolfeNaN(s: Settings, p: Problem, c: Counters)
    requires Shaped(p) && p.objective(p.x).Num?
    ensures var ts := Trials(WolfeRule(s), p, p.objective(p.x).val, s.stepWidth, s.upperIter);
      Search(WolfeRule(s), p, c).status == LineSearchFunctionNaN <==>
        |ts| > 0 && (p.objective(TrialPoint(p, ts[|ts| - 1])).NaN? ||
                     (EvaluatesGradient(WolfeRule(s), p, p.objective(p.x).val, ts[|ts| - 1]) &&
                      HasNaN(GradientAt(p.gradient, TrialPoint(p, ts[|ts| - 1])))))
  {
    var fx := p.objective(p.x).val;
    var ts := Trials(WolfeRule(s), p, fx, s.stepWidth, s.upperIter);
    RunTrials(WolfeRule(s), p, fx, s.stepWidth, s.upperIter, AfterFunction(c, p.objective(p.x)));
    if |ts| > 0 {
      JudgeAbort(WolfeRule(s), p, fx, ts[|ts| - 1]);
    }
  }

  /** The k-th trial (from 0) is step_width * initial_step^k, whichever test rejected. */
  lemma WolfeTrials(s: Settings, p: Problem)
    requires Shaped(p) && p.objective(p.x).Num?
    ensures var ts := Trials(WolfeRule(s), p, p.objective(p.x).val, s.stepWidth, s.upperIter);
      |ts| <= s.upperIter && forall k :: 0 <= k < |ts| ==> ts[k] == s.stepWidth * Pow(s.initialStep, k)
  {
    SearchFixedTrials(WolfeRule(s), p);
  }
}
