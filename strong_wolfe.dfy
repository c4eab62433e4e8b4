// src/strong_wolfe.c: the strong Wolfe line search over a caller-supplied
// storage buffer (x_temp and g_temp are separate arrays here).  The upper
// curvature test is taken as the code writes it, -(sigma*gd) <= |gd_temp|.
module StrongWolfe {
  import opened Vectors
  import opened NonLinearComponent
  import opened LineSearchComponent

  /** default_strong_wolfe_parameter: the same five fields and values as armijo's. */
  method DefaultStrongWolfeParameter(parameter: LineSearchParameter)
    modifies parameter
    ensures parameter.Values() == old(parameter.Values()).(
      upperIter := 5000, initialStep := 0.5, stepWidth := 1.0, xi := 0.001, sigma := 0.2)
  {
    parameter.upperIter := 5000;
    parameter.initialStep := 0.5;
    parameter.stepWidth := 1.0;
    parameter.xi := 0.001;
    parameter.sigma := 0.2;
  }

  /** The Armijo test, sigma*gd <= gd_temp and -(sigma*gd) <= |gd_temp|; a
      NaN gradient ends the search; every rejection multiplies beta by
      initial_step. */
  function StrongWolfeRule(s: Settings): Rule
  {
    Rule(StrongWolfeTest, Fixed(s.initialStep), s.xi, s.sigma, true, s.stepWidth, s.upperIter)
  }

  method StrongWolfeSearch(xTemp: array<real>, gTemp: array<real>, x: array<real>, g: array<real>, d: array<real>,
                           parameter: LineSearchParameter, component: Component) returns (status: LineSearchStatus)
    requires 1 <= x.Length && g.Length == x.Length && d.Length == x.Length
    requires xTemp.Length == x.Length && gTemp.Length == x.Length
    requires xTemp != gTemp && xTemp != x && xTemp != g && xTemp != d
    requires gTemp != x && gTemp != g && gTemp != d
    modifies component, xTemp, gTemp
    ensures Outcome(status, component.State()) ==
      Search(StrongWolfeRule(parameter.Values()), Problem(component.objective, component.gradient, x[..], g[..], d[..]), old(component.State()))
  {
    status := RunSearch(StrongWolfeRule(parameter.Values()), component, x, g, d, xTemp, gTemp);
  }

  /** What strong_wolfe promises: SATISFIED only where the Armijo decrease and
      both curvature bounds hold, with a NaN-free gradient there; FAILED only
      after upper_iter trials, with alpha untouched. */
  lemma StrongWolfeOutcome(s: Settings, p: Problem, c: Counters)
    requires Shaped(p)
    ensures var o := Search(StrongWolfeRule(s), p, c);
      var xt := Step(p.x, o.after.alpha, p.d);
      var gv := GradientAt(p.gradient, xt);
      o.after.iterationF <= c.iterationF + 1 + s.upperIter &&
      o.after.iterationG - c.iterationG <= o.after.iterationF - c.iterationF - 1 &&
      (o.status == LineSearchSatisfied ==>
         p.objective(p.x).Num? && p.objective(xt).Num? &&
         p.objective(xt).val <= ArmijoBound(p.objective(p.x).val, s.xi, o.after.alpha, Dot(p.g, p.d)) &&
         !HasNaN(gv) && Times(s.sigma, Dot(p.g, p.d)) <= Dot(Values(gv), p.d) &&
         -(Times(s.sigma, Dot(p.g, p.d))) <= Abs(Dot(Values(gv), p.d))) &&
      (o.status == LineSearchFailed ==> o.after.iterationF == c.iterationF + 1 + s.upperIter && o.after.alpha == c.alpha)
  {
    SearchOutcome(StrongWolfeRule(s), p, c);
  }

  /** The k-th trial (from 0) is step_width * initial_step^k, whichever test rejected. */
  lemma StrongWolfeTrials(s: Settings, p: Problem)
    requires Shaped(p) && p.objective(p.x).Num?
    ensures var ts := Trials(StrongWolfeRule(s), p, p.objective(p.x).val, s.stepWidth, s.upperIter);
      |ts| <= s.upperIter && forall k :: 0 <= k < |ts| ==> ts[k] == s.stepWidth * Pow(s.initialStep, k)
  {
    SearchFixedTrials(StrongWolfeRule(s), p);
  }
}
