// src/armijo.c: the Armijo line search over a caller-supplied storage
// buffer.  The buffer's two halves x_temp and g_temp are separate arrays
// here; armijo writes only x_temp.
module Armijo {
  import opened Vectors
  import opened NonLinearComponent
  import opened LineSearchComponent

  /** default_armijo_parameter: five fields set, tau, decreasing and increasing untouched. */
  method DefaultArmijoParameter(parameter: LineSearchParameter)
    modifies parameter
    ensures parameter.Values() == old(parameter.Values()).(
      upperIter := 5000, initialStep := 0.5, stepWidth := 1.0, xi := 0.001, sigma := 0.2)
  {
    parameter.upperIter := 5000;
    parameter.initialStep := 0.5;
    parameter.stepWidth := 1.0;
    parameter.xi := 0.001;
    parameter.sigma := 0.2;
  }

  /** The Armijo test alone; beta starts at step_width and every rejection
      multiplies it by initial_step; upper_iter trials. */
  function ArmijoRule(s: Settings): Rule
  {
    Rule(ArmijoTest, Fixed(s.initialStep), s.xi, s.sigma, true, s.stepWidth, s.upperIter)
  }

  method ArmijoSearch(xTemp: array<real>, gTemp: array<real>, x: array<real>, g: array<real>, d: array<real>,
                      parameter: LineSearchParameter, component: Component) returns (status: LineSearchStatus)
    requires 1 <= x.Length && g.Length == x.Length && d.Length == x.Length
    requires xTemp.Length == x.Length && gTemp.Length == x.Length
    requires xTemp != gTemp && xTemp != x && xTemp != g && xTemp != d
    requires gTemp != x && gTemp != g && gTemp != d
    modifies component, xTemp, gTemp
    ensures Outcome(status, component.State()) ==
      Search(ArmijoRule(parameter.Values()), Problem(component.objective, component.gradient, x[..], g[..], d[..]), old(component.State()))
    ensures gTemp[..] == old(gTemp[..])
  {
    status := RunSearch(ArmijoRule(parameter.Values()), component, x, g, d, xTemp, gTemp);
  }

  /** What armijo promises: NaN at x before any trial; SATISFIED only where
      f(x + alpha d) <= f(x) + xi alpha (g . d); at most upper_iter trials and
      FAILED only after all of them, with alpha untouched; no gradient call. */
  lemma ArmijoOutcome(s: Settings, p: Problem, c: Counters)
    requires Shaped(p)
    ensures var o := Search(ArmijoRule(s), p, c);
      (p.objective(p.x).NaN? ==> o.status == LineSearchFunctionNaN && o.after.iterationF == c.iterationF + 1) &&
      o.after.iterationG == c.iterationG &&
      o.after.iterationF <= c.iterationF + 1 + s.upperIter &&
      (o.status == LineSearchSatisfied ==>
         p.objective(p.x).Num? && p.objective(Step(p.x, o.after.alpha, p.d)).Num? &&
         p.objective(Step(p.x, o.after.alpha, p.d)).val <= ArmijoBound(p.objective(p.x).val, s.xi, o.after.alpha, Dot(p.g, p.d))) &&
      (o.status == LineSearchFailed ==> o.after.iterationF == c.iterationF + 1 + s.upperIter && o.after.alpha == c.alpha)
  {
    SearchOutcome(ArmijoRule(s), p, c);
  }

  /** The k-th trial (from 0) is step_width * initial_step^k. */
  lemma ArmijoTrials(s: Settings, p: Problem)
    requires Shaped(p) && p.objective(p.x).Num?
    ensures var ts := Trials(ArmijoRule(s), p, p.objective(p.x).val, s.stepWidth, s.upperIter);
      |ts| <= s.upperIter && forall k :: 0 <= k < |ts| ==> ts[k] == s.stepWidth * Pow(s.initialStep, k)
  {
    SearchFixedTrials(ArmijoRule(s), p);
  }
}
