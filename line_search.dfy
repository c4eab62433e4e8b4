// src/line_search.c: the five older line searches.  They take their
// constants as arguments, allocate x_temp and g_temp themselves, start from
// beta = step_width (or 1 when step_width <= 0), stop after 10000 trials
// and ignore the gradient evaluator's status.  They differ in the test and
// in the widths, exactly as a Rule does.
module LineSearch {
  import opened Vectors
  import opened NonLinearComponent
  import opened LineSearchComponent

  /** The rule every routine of src/line_search.c follows, for a test and widths. */
  function CappedRule(test: Test, widths: Widths, stepWidth: real, xi: real, sigma: real): Rule
  {
    Rule(test, widths, xi, sigma, false, PositiveOrOne(stepWidth), MaxTrials)
  }

  method LineSearchArmijo(x: array<real>, g: array<real>, d: array<real>,
                          stepWidth: real, tau: real, xi: real, component: Component) returns (status: LineSearchStatus)
    requires 1 <= x.Length && g.Length == x.Length && d.Length == x.Length
    modifies component
    ensures Outcome(status, component.State()) ==
      Search(CappedRule(ArmijoTest, Fixed(tau), stepWidth, xi, 0.0),
             Problem(component.objective, component.gradient, x[..], g[..], d[..]), old(component.State()))
  {
    var xTemp := new real[x.Length];
    var gTemp := new real[x.Length];
    status := RunSearch(CappedRule(ArmijoTest, Fixed(tau), stepWidth, xi, 0.0), component, x, g, d, xTemp, gTemp);
  }

  method LineSearchWolfe(x: array<real>, g: array<real>, d: array<real>,
                         stepWidth: real, tau: real, xi: real, sigma: real, component: Component) returns (status: LineSearchStatus)
    requires 1 <= x.Length && g.Length == x.Length && d.Length == x.Length
    modifies component
    ensures Outcome(status, component.State()) ==
      Search(CappedRule(WolfeTest, Fixed(tau), stepWidth, xi, sigma),
             Problem(component.objective, component.gradient, x[..], g[..], d[..]), old(component.State()))
  {
    var xTemp := new real[x.Length];
    var gTemp := new real[x.Length];
    status := RunSearch(CappedRule(WolfeTest, Fixed(tau), stepWidth, xi, sigma), component, x, g, d, xTemp, gTemp);
  }

  method LineSearchStrongWolfe(x: array<real>, g: array<real>, d: array<real>,
                               stepWidth: real, tau: real, xi: real, sigma: real, component: Component) returns (status: LineSearchStatus)
    requires 1 <= x.Length && g.Length == x.Length && d.Length == x.Length
    modifies component
    ensures Outcome(status, component.State()) ==
      Search(CappedRule(StrongWolfeTest, Fixed(tau), stepWidth, xi, sigma),
             Problem(component.objective, component.gradient, x[..], g[..], d[..]), old(component.State()))
  {
    var xTemp := new real[x.Length];
    var gTemp := new real[x.Length];
    status := RunSearch(CappedRule(StrongWolfeTest, Fixed(tau), stepWidth, xi, sigma), component, x, g, d, xTemp, gTemp);
  }

  /** tau only initialises `width`, which every rejection overwrites, so it is not part of the rule. */
  method LineSearchBacktrackingWolfe(x: array<real>, g: array<real>, d: array<real>,
                                     stepWidth: real, tau: real, xi: real, sigma: real,
                                     decreasing: real, increasing: real, component: Component) returns (status: LineSearchStatus)
    requires 1 <= x.Length && g.Length == x.Length && d.Length == x.Length
    modifies component
    ensures Outcome(status, component.State()) ==
      Search(CappedRule(WolfeTest, Backtrack(decreasing, increasing), stepWidth, xi, sigma),
             Problem(component.objective, component.gradient, x[..], g[..], d[..]), old(component.State()))
  {
    var xTemp := new real[x.Length];
    var gTemp := new real[x.Length];
    status := RunSearch(CappedRule(WolfeTest, Backtrack(decreasing, increasing), stepWidth, xi, sigma), component, x, g, d, xTemp, gTemp);
  }

  method LineSearchBacktrackingStrongWolfe(x: array<real>, g: array<real>, d: array<real>,
                                           stepWidth: real, tau: real, xi: real, sigma: real,
                                           decreasing: real, increasing: real, component: Component) returns (status: LineSearchStatus)
    requires 1 <= x.Length && g.Length == x.Length && d.Length == x.Length
    modifies component
    ensures Outcome(status, component.State()) ==
      Search(CappedRule(StrongWolfeTest, Backtrack(decreasing, increasing), stepWidth, xi, sigma),
             Problem(component.objective, component.gradient, x[..], g[..], d[..]), old(component.State()))
  {
    var xTemp := new real[x.Length];
    var gTemp := new real[x.Length];
    status := RunSearch(CappedRule(StrongWolfeTest, Backtrack(decreasing, increasing), stepWidth, xi, sigma), component, x, g, d, xTemp, gTemp);
  }

  /** What every routine promises: the first trial is step_width if positive
      and 1 otherwise; after a finite f(x), FUNCTION_NAN only for a NaN
      objective at the last trial; at most 10000 trials, FAILED only after
      all of them, with alpha untouched unless SATISFIED. */
  lemma CappedOutcome(test: Test, widths: Widths, stepWidth: real, xi: real, sigma: real, p: Problem, c: Counters)
    requires Shaped(p) && p.objective(p.x).Num?
    ensures var r := CappedRule(test, widths, stepWidth, xi, sigma);
      var ts := Trials(r, p, p.objective(p.x).val, r.first, r.cap);
      var o := Search(r, p, c);
      1 <= |ts| <= MaxTrials && ts[0] == (if stepWidth > 0.0 then stepWidth else 1.0) &&
      (o.status == LineSearchFunctionNaN ==> p.objective(TrialPoint(p, ts[|ts| - 1])).NaN?) &&
      (o.status == LineSearchFailed ==> o.after.iterationF == c.iterationF + 1 + MaxTrials) &&
      (o.status != LineSearchSatisfied ==> o.after.alpha == c.alpha) &&
      (test.ArmijoTest? ==> o.after.iterationG == c.iterationG)
  {
    var r := CappedRule(test, widths, stepWidth, xi, sigma);
    SearchOutcome(r, p, c);
    SearchIgnoresGradientNaN(r, p, c);
    RunTrials(r, p, p.objective(p.x).val, r.first, r.cap, AfterFunction(c, p.objective(p.x)));
  }

  /** SATISFIED only where the Armijo decrease holds and, for the Wolfe
      tests, a NaN-free gradient meets sigma*gd <= gd_temp and, for the
      strong tests, -(sigma*gd) <= |gd_temp|. */
  lemma CappedAccepts(test: Test, widths: Widths, stepWidth: real, xi: real, sigma: real, p: Problem, c: Counters)
    requires Shaped(p)
    ensures var o := Search(CappedRule(test, widths, stepWidth, xi, sigma), p, c);
      var xt := Step(p.x, o.after.alpha, p.d);
      var gv := GradientAt(p.gradient, xt);
      o.status == LineSearchSatisfied ==>
        p.objective(p.x).Num? && p.objective(xt).Num? &&
        p.objective(xt).val <= ArmijoBound(p.objective(p.x).val, xi, o.after.alpha, Dot(p.g, p.d)) &&
        (!test.ArmijoTest? ==> !HasNaN(gv) && Times(sigma, Dot(p.g, p.d)) <= Dot(Values(gv), p.d)) &&
        (test.StrongWolfeTest? ==> -Times(sigma, Dot(p.g, p.d)) <= Abs(Dot(Values(gv), p.d)))
  {
    SearchOutcome(CappedRule(test, widths, stepWidth, xi, sigma), p, c);
  }

  /** line_search_armijo, _wolfe and _strong_wolfe: the k-th trial (from 0)
      is beta0 * tau^k, with beta0 the first trial. */
  lemma CappedTauTrials(test: Test, tau: real, stepWidth: real, xi: real, sigma: real, p: Problem)
    requires Shaped(p) && p.objective(p.x).Num?
    ensures var r := CappedRule(test, Fixed(tau), stepWidth, xi, sigma);
      var ts := Trials(r, p, p.objective(p.x).val, r.first, r.cap);
      forall k :: 0 <= k < |ts| ==> ts[k] == Geometric(PositiveOrOne(stepWidth), tau, k)
  {
    var r := CappedRule(test, Fixed(tau), stepWidth, xi, sigma);
    var beta0 := PositiveOrOne(stepWidth);
    assert r.first == beta0;
    FixedTrials(r, p, p.objective(p.x).val, beta0, r.cap);
  }

  /** line_search_backtracking_wolfe and _strong_wolfe: a failed Armijo test
      applies `decreasing`, a failed (or NaN) lower curvature bound applies
      `increasing`, and a failed |gd_temp| bound (strong only) `decreasing`. */
  lemma CappedBacktrackSteps(test: Test, decreasing: real, increasing: real, stepWidth: real, xi: real, sigma: real, p: Problem)
    requires Shaped(p) && !test.ArmijoTest? && p.objective(p.x).Num?
    ensures var r := CappedRule(test, Backtrack(decreasing, increasing), stepWidth, xi, sigma);
      var fx := p.objective(p.x).val;
      var ts := Trials(r, p, fx, r.first, r.cap);
      forall k :: 0 <= k < |ts| - 1 ==> BacktrackStep(r, p, fx, ts[k], ts[k + 1])
  {
    SearchBacktrackingTrials(CappedRule(test, Backtrack(decreasing, increasing), stepWidth, xi, sigma), p);
  }
}
