// The line_search_t argument of quasi_newton, quasi_newton_bfgs and
// conjugate_gradient (src/include/quasi_newton.h:16-25,
// src/include/conjugate_gradient.h:27-36): any one of the line
// searches with the signature (work, x, g, d, n, evaluate_object,
// parameter, component), which are armijo, wolfe and strong_wolfe.
module LineSearchChoice {
  import opened Vectors
  import opened NonLinearComponent
  import opened LineSearchComponent
  import Armijo
  import Wolfe
  import StrongWolfe

  datatype LineSearchKind = UseArmijo | UseWolfe | UseStrongWolfe

  /** The rule the chosen line search runs with the parameter's values. */
  function KindRule(kind: LineSearchKind, s: Settings): (r: Rule)
    ensures r.first == s.stepWidth && r.cap == s.upperIter && r.widths == Fixed(s.initialStep)
    ensures r.xi == s.xi && r.sigma == s.sigma && r.propagateNaN
  {
    match kind
    case UseArmijo => Armijo.ArmijoRule(s)
    case UseWolfe => Wolfe.WolfeRule(s)
    case UseStrongWolfe => StrongWolfe.StrongWolfeRule(s)
  }

  /** line_search(work, x, g, d, n, &evaluate_object, line_search_parameter, &component),
      with work's two halves as xTemp and gTemp. */
  method CallLineSearch(kind: LineSearchKind, xTemp: array<real>, gTemp: array<real>,
                        x: array<real>, g: array<real>, d: array<real>,
                        parameter: LineSearchParameter, component: Component) returns (status: LineSearchStatus)
    requires 1 <= x.Length && g.Length == x.Length && d.Length == x.Length
    requires xTemp.Length == x.Length && gTemp.Length == x.Length
    requires xTemp != gTemp && xTemp != x && xTemp != g && xTemp != d
    requires gTemp != x && gTemp != g && gTemp != d
    modifies component, xTemp, gTemp
    ensures Outcome(status, component.State()) ==
      Search(KindRule(kind, parameter.Values()), Problem(component.objective, component.gradient, x[..], g[..], d[..]),
             old(component.State()))
  {
    match kind
    case UseArmijo => status := Armijo.ArmijoSearch(xTemp, gTemp, x, g, d, parameter, component);
    case UseWolfe => status := Wolfe.WolfeSearch(xTemp, gTemp, x, g, d, parameter, component);
    case UseStrongWolfe => status := StrongWolfe.StrongWolfeSearch(xTemp, gTemp, x, g, d, parameter, component);
  }

  /** Whichever line search is chosen, SATISFIED guarantees the Armijo
      decrease at x + alpha d, and FUNCTION_NAN, SATISFIED and FAILED are the
      only outcomes. */
  lemma ChosenSearchOutcome(kind: LineSearchKind, s: Settings, p: Problem, c: Counters)
    requires Shaped(p)
    ensures var o := Search(KindRule(kind, s), p, c);
      var xt := Step(p.x, o.after.alpha, p.d);
      o.status != LineSearchStepWidthFailed &&
      (o.status == LineSearchSatisfied ==>
         p.objective(p.x).Num? && p.objective(xt).Num? &&
         p.objective(xt).val <= ArmijoBound(p.objective(p.x).val, s.xi, o.after.alpha, Dot(p.g, p.d))) &&
      (o.status != LineSearchSatisfied ==> o.after.alpha == c.alpha) &&
      (p.objective(p.x).NaN? ==> o.status == LineSearchFunctionNaN)
  {
    SearchOutcome(KindRule(kind, s), p, c);
  }

  lemma {:induction false} SumProdZeros(x: seq<real>, k: nat)
    requires k <= |x|
    ensures SumProd(x, Zeros(|x|), k) == 0.0
  {
    if k > 0 { SumProdZeros(x, k - 1); }
  }

  /** Along the zero direction every trial point is x itself, so a finite
      f(x) and a NaN-free gradient at x make the first trial acceptable: the
      search returns SATISFIED with alpha = step_width (or FAILED when
      upper_iter is 0). */
  lemma ChosenSearchZeroDirection(kind: LineSearchKind, s: Settings, p: Problem, c: Counters)
    requires Shaped(p) && p.d == Zeros(|p.x|)
    requires p.objective(p.x).Num? && !HasNaN(GradientAt(p.gradient, p.x))
    ensures var o := Search(KindRule(kind, s), p, c);
      (s.upperIter >= 1 ==> o.status == LineSearchSatisfied && o.after.alpha == s.stepWidth) &&
      (s.upperIter == 0 ==> o.status == LineSearchFailed)
  {
    var r := KindRule(kind, s);
    var fx := p.objective(p.x).val;
    assert TrialPoint(p, r.first) == p.x;
    SumProdZeros(p.g, |p.g|);
    SumProdZeros(Values(GradientAt(p.gradient, p.x)), |p.x|);
    assert Slope(p) == 0.0;
    assert Judge(r, p, fx, r.first) == Accept;
  }
}
