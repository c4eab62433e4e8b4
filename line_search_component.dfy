// src/line_search_component.c and the trial loop shared by every line
// search: src/armijo.c, src/wolfe.c, src/strong_wolfe.c,
// src/backtracking_wolfe.c and the five routines of src/line_search.c.
//
// Every line search evaluates f(x) once and then tries steps beta along the
// direction d.  A trial evaluates f at x + beta*d and tests the Armijo
// decrease; the Wolfe variants then evaluate the gradient there and test a
// curvature bound.  The trial accepts beta, aborts on a NaN, or rejects it
// and multiplies beta by a width that depends on the variant and on which
// test failed.  A Rule names the variant, Judge decides one trial, Run is the
// loop and Search the whole routine; RunSearch is the loop as the C code
// runs it, proved equal to Search.
module LineSearchComponent {
  import opened Vectors
  import opened NonLinearComponent
  import MyMath

  /** LineSearchStatus (src/include/line_search_component.h:29-34). */
  datatype LineSearchStatus = LineSearchFunctionNaN | LineSearchSatisfied | LineSearchFailed | LineSearchStepWidthFailed

  /** The values of the fields of a LineSearchParameter. */
  datatype Settings = Settings(
    stepWidth: real, xi: real, tau: real, sigma: real,
    decreasing: real, increasing: real, upperIter: nat, initialStep: real)

  class LineSearchParameter {
    var stepWidth: real
    var xi: real
    var tau: real
    var sigma: real
    var decreasing: real
    var increasing: real
    var upperIter: nat
    var initialStep: real

    function Values(): Settings
      reads this
    {
      Settings(stepWidth, xi, tau, sigma, decreasing, increasing, upperIter, initialStep)
    }
  }

  /** default_line_search_parameter: six fields set, upper_iter and initial_step untouched. */
  method DefaultLineSearchParameter(parameter: LineSearchParameter)
    modifies parameter
    ensures parameter.Values() == old(parameter.Values()).(
      stepWidth := 1.0, xi := 0.001, tau := 0.5, sigma := 0.2, decreasing := 0.5, increasing := 2.1)
  {
    parameter.stepWidth := 1.0;
    parameter.xi := 0.001;
    parameter.tau := 0.5;
    parameter.sigma := 0.2;
    parameter.decreasing := 0.5;
    parameter.increasing := 2.1;
  }

  // ---------------------------------------------------------------------
  // The rule of a line search

  /** Which conditions a trial must meet: Armijo only, Armijo and
      sigma*gd <= gd_temp, or those and -(sigma*gd) <= |gd_temp|. */
  datatype Test = ArmijoTest | WolfeTest | StrongWolfeTest

  /** The width applied after a rejection: one fixed factor, or `decreasing`
      and `increasing` chosen by the failed test. */
  datatype Widths = Fixed(width: real) | Backtrack(decreasing: real, increasing: real)

  /** propagateNaN: a NaN gradient ends the search with FUNCTION_NAN (wolfe.c,
      strong_wolfe.c); otherwise the gradient's status is ignored and the
      curvature comparison with a NaN dot product is false. */
  datatype Rule = Rule(test: Test, widths: Widths, xi: real, sigma: real, propagateNaN: bool, first: real, cap: nat)

  /** The width after a failed Armijo test, or a failed |gd_temp| test. */
  function ShrinkWidth(w: Widths): real
  {
    match w
    case Fixed(width) => width
    case Backtrack(decreasing, _) => decreasing
  }

  /** The width after a failed lower bound sigma*gd <= gd_temp. */
  function GrowWidth(w: Widths): real
  {
    match w
    case Fixed(width) => width
    case Backtrack(_, increasing) => increasing
  }

  /** The hard cap on trials in src/line_search.c and src/backtracking_wolfe.c. */
  const MaxTrials: nat := 10000

  /** beta = step_width if it is positive, else 1 (src/line_search.c, src/backtracking_wolfe.c). */
  function PositiveOrOne(stepWidth: real): (beta: real)
    ensures beta > 0.0
    ensures stepWidth > 0.0 ==> beta == stepWidth
  {
    if stepWidth > 0.0 then stepWidth else 1.0
  }

  /** The inputs a line search reads: the user's functions, x, g and d. */
  datatype Problem = Problem(objective: Objective, gradient: Gradient, x: seq<real>, g: seq<real>, d: seq<real>)

  predicate Shaped(p: Problem)
  {
    |p.g| == |p.x| && |p.d| == |p.x|
  }

  /** gd = g . d */
  function Slope(p: Problem): real
    requires Shaped(p)
  {
    Dot(p.g, p.d)
  }

  /** x_temp = x + beta * d */
  function TrialPoint(p: Problem, beta: real): (xt: seq<real>)
    requires Shaped(p)
    ensures |xt| == |p.x|
  {
    Step(p.x, beta, p.d)
  }

  datatype Verdict = Accept | Abort | Reject(width: real)

  /** f(x) + xi * beta * gd: the right-hand side of the Armijo test. */
  function ArmijoBound(fx: real, xi: real, beta: real, gd: real): (bound: real)
    ensures bound == fx + xi * beta * gd
  {
    fx + xi * beta * gd
  }

  /** One trial of the loop body, branch for branch. */
  function Judge(r: Rule, p: Problem, fx: real, beta: real): Verdict
    requires Shaped(p)
  {
    var xt := TrialPoint(p, beta);
    match p.objective(xt)
    case NaN => Abort
    case Num(v) =>
      if !(v <= ArmijoBound(fx, r.xi, beta, Slope(p))) then Reject(ShrinkWidth(r.widths))
      else if r.test.ArmijoTest? then Accept
      else
        var gv := GradientAt(p.gradient, xt);
        if HasNaN(gv) then
          if r.propagateNaN then Abort else Reject(GrowWidth(r.widths))
        else
          var sigmaGd := Times(r.sigma, Slope(p));
          var gdTemp := Dot(Values(gv), p.d);
          if !(sigmaGd <= gdTemp) then Reject(GrowWidth(r.widths))
          else if r.test.WolfeTest? || -sigmaGd <= Abs(gdTemp) then Accept
          else Reject(ShrinkWidth(r.widths))
  }

  /** Does the trial at beta call the gradient?  Only after the Armijo test passes. */
  predicate EvaluatesGradient(r: Rule, p: Problem, fx: real, beta: real)
    requires Shaped(p)
  {
    var v := p.objective(TrialPoint(p, beta));
    !r.test.ArmijoTest? && v.Num? && v.val <= ArmijoBound(fx, r.xi, beta, Slope(p))
  }

  /** The acceptance condition in one formula: the Armijo decrease and, for
      the Wolfe tests, a NaN-free gradient at the trial point meeting the
      bounds as the code writes them. */
  predicate Acceptable(r: Rule, p: Problem, fx: real, beta: real)
    requires Shaped(p)
  {
    var xt := TrialPoint(p, beta);
    var v := p.objective(xt);
    var gv := GradientAt(p.gradient, xt);
    v.Num? && v.val <= ArmijoBound(fx, r.xi, beta, Slope(p)) &&
    (r.test.ArmijoTest? ||
     (!HasNaN(gv) && Times(r.sigma, Slope(p)) <= Dot(Values(gv), p.d) &&
      (r.test.WolfeTest? || -(Times(r.sigma, Slope(p))) <= Abs(Dot(Values(gv), p.d)))))
  }

  /** The evaluations one trial makes. */
  function AfterTrial(r: Rule, p: Problem, fx: real, beta: real, c: Counters): Counters
    requires Shaped(p)
  {
    var c1 := AfterFunction(c, p.objective(TrialPoint(p, beta)));
    if EvaluatesGradient(r, p, fx, beta) then AfterGradient(c1) else c1
  }

  datatype Outcome = Outcome(status: LineSearchStatus, after: Counters)

  /** The trial loop with `left` trials to go. */
  function Run(r: Rule, p: Problem, fx: real, beta: real, left: nat, c: Counters): Outcome
    requires Shaped(p)
    decreases left
  {
    if left == 0 then Outcome(LineSearchFailed, c)
    else
      if Judge(r, p, fx, beta).Accept? then Outcome(LineSearchSatisfied, AfterTrial(r, p, fx, beta, c).(alpha := beta))
      else if Judge(r, p, fx, beta).Abort? then Outcome(LineSearchFunctionNaN, AfterTrial(r, p, fx, beta, c))
      else Run(r, p, fx, Times(beta, Judge(r, p, fx, beta).width), left - 1, AfterTrial(r, p, fx, beta, c))
  }

  /** A line search: f(x) first, then at most r.cap trials from r.first. */
  function Search(r: Rule, p: Problem, c: Counters): Outcome
    requires Shaped(p)
  {
    var c0 := AfterFunction(c, p.objective(p.x));
    match p.objective(p.x)
    case NaN => Outcome(LineSearchFunctionNaN, c0)
    case Num(fx) => Run(r, p, fx, r.first, r.cap, c0)
  }

  /** The steps the loop tries, in order. */
  function Trials(r: Rule, p: Problem, fx: real, beta: real, left: nat): seq<real>
    requires Shaped(p)
    decreases left
  {
    if left == 0 then []
    else if Judge(r, p, fx, beta).Reject? then [beta] + Trials(r, p, fx, Times(beta, Judge(r, p, fx, beta).width), left - 1)
    else [beta]
  }

  /** How many of the trials in ts call the gradient. */
  function GradientCalls(r: Rule, p: Problem, fx: real, ts: seq<real>): nat
    requires Shaped(p)
  {
    if ts == [] then 0
    else (if EvaluatesGradient(r, p, fx, ts[0]) then 1 else 0) + GradientCalls(r, p, fx, ts[1..])
  }

  function Pow(w: real, k: nat): real
  {
    if k == 0 then 1.0 else w * Pow(w, k - 1)
  }

  /** One step of Run and of Trials. */
  lemma Unfold(r: Rule, p: Problem, fx: real, beta: real, left: nat, c: Counters)
    requires Shaped(p) && left > 0
    ensures var v := Judge(r, p, fx, beta);
      Trials(r, p, fx, beta, left) == (if v.Reject? then [beta] + Trials(r, p, fx, Times(beta, v.width), left - 1) else [beta]) &&
      Run(r, p, fx, beta, left, c) ==
        (if v.Accept? then Outcome(LineSearchSatisfied, AfterTrial(r, p, fx, beta, c).(alpha := beta))
         else if v.Abort? then Outcome(LineSearchFunctionNaN, AfterTrial(r, p, fx, beta, c))
         else Run(r, p, fx, Times(beta, v.width), left - 1, AfterTrial(r, p, fx, beta, c)))
  {
  }

  // ---------------------------------------------------------------------
  // Properties of one trial

  /** Judge accepts exactly the steps that meet the acceptance condition. */
  lemma JudgeAcceptable(r: Rule, p: Problem, fx: real, beta: real)
    requires Shaped(p)
    ensures Judge(r, p, fx, beta) == Accept <==> Acceptable(r, p, fx, beta)
  {
  }

  /** A trial aborts exactly when f is NaN there, or when the gradient is
      evaluated, has a NaN component and the rule propagates it. */
  lemma JudgeAbort(r: Rule, p: Problem, fx: real, beta: real)
    requires Shaped(p)
    ensures Judge(r, p, fx, beta) == Abort <==>
      p.objective(TrialPoint(p, beta)).NaN? ||
      (EvaluatesGradient(r, p, fx, beta) && r.propagateNaN && HasNaN(GradientAt(p.gradient, TrialPoint(p, beta))))
  {
  }

  // ---------------------------------------------------------------------
  // Properties of the loop

  /** The shape of a run: each trial but the last was rejected and scaled by
      its width; the status and alpha come from the last trial. */
  lemma {:induction false} RunTrials(r: Rule, p: Problem, fx: real, beta: real, left: nat, c: Counters)
    requires Shaped(p)
    ensures var o, ts := Run(r, p, fx, beta, left, c), Trials(r, p, fx, beta, left);
      |ts| <= left && (left > 0 ==> |ts| >= 1 && ts[0] == beta) &&
      (forall k :: 0 <= k < |ts| - 1 ==>
         Judge(r, p, fx, ts[k]).Reject? && ts[k + 1] == Times(ts[k], Judge(r, p, fx, ts[k]).width)) &&
      (o.status == LineSearchSatisfied <==> |ts| > 0 && Judge(r, p, fx, ts[|ts| - 1]) == Accept) &&
      (o.status == LineSearchFunctionNaN <==> |ts| > 0 && Judge(r, p, fx, ts[|ts| - 1]) == Abort) &&
      (o.status == LineSearchFailed <==> |ts| == left && (left == 0 || Judge(r, p, fx, ts[|ts| - 1]).Reject?)) &&
      o.status != LineSearchStepWidthFailed &&
      (o.status == LineSearchSatisfied ==> o.after.alpha == ts[|ts| - 1]) &&
      (o.status != LineSearchSatisfied ==> o.after.alpha == c.alpha)
    decreases left
  {
    var v := Judge(r, p, fx, beta);
    if left > 0 && v.Reject? {
      var c1 := AfterTrial(r, p, fx, beta, c);
      Unfold(r, p, fx, beta, left, c);
      RunTrials(r, p, fx, Times(beta, v.width), left - 1, c1);
      var ts := Trials(r, p, fx, Times(beta, v.width), left - 1);
      assert Trials(r, p, fx, beta, left) == [beta] + ts;
    }
  }

  /** The counters of a run: one objective call per trial, and one gradient
      call per trial that passed the Armijo test (none for Armijo only). */
  lemma {:induction false} RunCounters(r: Rule, p: Problem, fx: real, beta: real, left: nat, c: Counters)
    requires Shaped(p)
    ensures var o, ts := Run(r, p, fx, beta, left, c), Trials(r, p, fx, beta, left);
      o.after.iterationF == c.iterationF + |ts| &&
      o.after.iterationG == c.iterationG + GradientCalls(r, p, fx, ts) &&
      (|ts| > 0 ==> o.after.f == p.objective(TrialPoint(p, ts[|ts| - 1]))) &&
      (|ts| == 0 ==> o.after == c)
    decreases left
  {
    if left > 0 {
      var ts := Trials(r, p, fx, beta, left);
      var c1 := AfterTrial(r, p, fx, beta, c);
      var v := Judge(r, p, fx, beta);
      Unfold(r, p, fx, beta, left, c);
      if v.Reject? {
        RunCounters(r, p, fx, Times(beta, v.width), left - 1, c1);
        var rest := Trials(r, p, fx, Times(beta, v.width), left - 1);
        assert ts == [beta] + rest;
        assert ts[1..] == rest;
      } else {
        assert ts == [beta];
        assert ts[1..] == [];
      }
    }
  }

  /** At most one gradient call per trial, and none for an Armijo-only rule. */
  lemma {:induction false} GradientCallsBound(r: Rule, p: Problem, fx: real, ts: seq<real>)
    requires Shaped(p)
    ensures GradientCalls(r, p, fx, ts) <= |ts|
    ensures r.test.ArmijoTest? ==> GradientCalls(r, p, fx, ts) == 0
    ensures (forall k :: 0 <= k < |ts| ==> !EvaluatesGradient(r, p, fx, ts[k])) ==> GradientCalls(r, p, fx, ts) == 0
  {
    if ts != [] {
      GradientCallsBound(r, p, fx, ts[1..]);
      if forall k :: 0 <= k < |ts| ==> !EvaluatesGradient(r, p, fx, ts[k]) {
        assert forall k :: 0 <= k < |ts[1..]| ==> !EvaluatesGradient(r, p, fx, ts[1..][k]) by {
          forall k | 0 <= k < |ts[1..]| ensures !EvaluatesGradient(r, p, fx, ts[1..][k]) {
            assert ts[1..][k] == ts[k + 1];
          }
        }
      }
    }
  }

  /** A rejection applies one of the rule's two widths. */
  lemma RejectWidth(r: Rule, p: Problem, fx: real, beta: real)
    requires Shaped(p) && Judge(r, p, fx, beta).Reject?
    ensures Judge(r, p, fx, beta).width == ShrinkWidth(r.widths) || Judge(r, p, fx, beta).width == GrowWidth(r.widths)
  {
  }

  /** beta scaled k times by w. */
  function Geometric(beta: real, w: real, k: nat): real
    decreases k
  {
    if k == 0 then beta else Geometric(Times(beta, w), w, k - 1)
  }

  /** The closed form: beta scaled k times by w is beta * w^k. */
  lemma {:induction false} GeometricPow(beta: real, w: real, k: nat)
    ensures Geometric(beta, w, k) == beta * Pow(w, k)
    decreases k
  {
    if k > 0 {
      GeometricPow(Times(beta, w), w, k - 1);
      assert Times(beta, w) * Pow(w, k - 1) == beta * (w * Pow(w, k - 1));
    }
  }

  /** With a fixed width w the k-th trial (from 0) is beta scaled k times by w. */
  lemma {:induction false} FixedTrials(r: Rule, p: Problem, fx: real, beta: real, left: nat)
    requires Shaped(p) && r.widths.Fixed?
    ensures var ts := Trials(r, p, fx, beta, left);
      |ts| <= left && forall k :: 0 <= k < |ts| ==> ts[k] == Geometric(beta, r.widths.width, k)
    decreases left
  {
    var w := r.widths.width;
    var ts := Trials(r, p, fx, beta, left);
    if left > 0 && Judge(r, p, fx, beta).Reject? {
      RejectWidth(r, p, fx, beta);
      Unfold(r, p, fx, beta, left, Counters(NaN, 0.0, 0, 0));
      FixedTrials(r, p, fx, Times(beta, w), left - 1);
      var rest := Trials(r, p, fx, Times(beta, w), left - 1);
      assert ts == [beta] + rest;
      forall k | 0 <= k < |ts| ensures ts[k] == Geometric(beta, w, k) {
        if k > 0 {
          assert ts[k] == rest[k - 1];
        }
      }
    }
  }

  // ---------------------------------------------------------------------
  // Properties of a whole line search

  /** What a line search promises: FUNCTION_NAN at f(x) before any trial;
      otherwise at most cap trials with one objective call each (plus the one
      at x), SATISFIED only at an acceptable step stored in alpha, FAILED
      only after all cap trials, and alpha untouched unless SATISFIED. */
  lemma SearchOutcome(r: Rule, p: Problem, c: Counters)
    requires Shaped(p)
    ensures var o := Search(r, p, c);
      (p.objective(p.x).NaN? ==> o == Outcome(LineSearchFunctionNaN, AfterFunction(c, NaN))) &&
      o.status != LineSearchStepWidthFailed &&
      c.iterationF + 1 <= o.after.iterationF <= c.iterationF + 1 + r.cap &&
      c.iterationG <= o.after.iterationG <= c.iterationG + (o.after.iterationF - c.iterationF - 1) &&
      (r.test.ArmijoTest? ==> o.after.iterationG == c.iterationG) &&
      (o.status == LineSearchSatisfied ==> Acceptable(r, p, p.objective(p.x).val, o.after.alpha)) &&
      (o.status == LineSearchFailed ==> o.after.iterationF == c.iterationF + 1 + r.cap) &&
      (o.status != LineSearchSatisfied ==> o.after.alpha == c.alpha)
  {
    var c0 := AfterFunction(c, p.objective(p.x));
    if p.objective(p.x).Num? {
      var fx := p.objective(p.x).val;
      RunTrials(r, p, fx, r.first, r.cap, c0);
      RunCounters(r, p, fx, r.first, r.cap, c0);
      var ts := Trials(r, p, fx, r.first, r.cap);
      GradientCallsBound(r, p, fx, ts);
      if Search(r, p, c).status == LineSearchSatisfied {
        JudgeAcceptable(r, p, fx, ts[|ts| - 1]);
      }
    }
  }

  /** The accepted step is the first acceptable one among the trials. */
  lemma SearchFirstAcceptable(r: Rule, p: Problem, c: Counters)
    requires Shaped(p) && p.objective(p.x).Num?
    ensures var fx := p.objective(p.x).val;
      var ts := Trials(r, p, fx, r.first, r.cap);
      forall k :: 0 <= k < |ts| - 1 ==> !Acceptable(r, p, fx, ts[k])
  {
    var fx := p.objective(p.x).val;
    var ts := Trials(r, p, fx, r.first, r.cap);
    RunTrials(r, p, fx, r.first, r.cap, AfterFunction(c, p.objective(p.x)));
    forall k | 0 <= k < |ts| - 1 ensures !Acceptable(r, p, fx, ts[k]) {
      JudgeAcceptable(r, p, fx, ts[k]);
    }
  }

  /** With a fixed width the trials are first, first*w, first*w^2, ... */
  lemma SearchFixedTrials(r: Rule, p: Problem)
    requires Shaped(p) && r.widths.Fixed? && p.objective(p.x).Num?
    ensures var ts := Trials(r, p, p.objective(p.x).val, r.first, r.cap);
      |ts| <= r.cap && forall k :: 0 <= k < |ts| ==> ts[k] == r.first * Pow(r.widths.width, k)
  {
    var fx := p.objective(p.x).val;
    var ts := Trials(r, p, fx, r.first, r.cap);
    FixedTrials(r, p, fx, r.first, r.cap);
    forall k | 0 <= k < |ts| ensures ts[k] == r.first * Pow(r.widths.width, k) {
      assert ts[k] == Geometric(r.first, r.widths.width, k);
      GeometricPow(r.first, r.widths.width, k);
    }
  }

  /** Does the lower curvature bound sigma*gd <= gd_temp hold at beta, with a
      NaN-free gradient? */
  predicate LowerBound(r: Rule, p: Problem, beta: real)
    requires Shaped(p)
  {
    var gv := GradientAt(p.gradient, TrialPoint(p, beta));
    !HasNaN(gv) && Times(r.sigma, Slope(p)) <= Dot(Values(gv), p.d)
  }

  /** The backtracking width of one rejection, by the test that failed. */
  predicate BacktrackStep(r: Rule, p: Problem, fx: real, beta: real, next: real)
    requires Shaped(p) && r.widths.Backtrack?
  {
    (!EvaluatesGradient(r, p, fx, beta) ==> next == beta * r.widths.decreasing) &&
    (EvaluatesGradient(r, p, fx, beta) && !LowerBound(r, p, beta) ==> next == beta * r.widths.increasing) &&
    (EvaluatesGradient(r, p, fx, beta) && LowerBound(r, p, beta) ==>
       r.test.StrongWolfeTest? && next == beta * r.widths.decreasing)
  }

  /** With backtracking widths, a failed Armijo test or a failed |gd_temp|
      bound multiplies beta by `decreasing`, and a passed Armijo test with a
      failed (or NaN) lower curvature bound multiplies it by `increasing`. */
  lemma SearchBacktrackingTrials(r: Rule, p: Problem)
    requires Shaped(p) && r.widths.Backtrack? && !r.propagateNaN && !r.test.ArmijoTest? && p.objective(p.x).Num?
    ensures var fx := p.objective(p.x).val;
      var ts := Trials(r, p, fx, r.first, r.cap);
      forall k :: 0 <= k < |ts| - 1 ==> BacktrackStep(r, p, fx, ts[k], ts[k + 1])
  {
    var fx := p.objective(p.x).val;
    var ts := Trials(r, p, fx, r.first, r.cap);
    RunTrials(r, p, fx, r.first, r.cap, Counters(NaN, 0.0, 0, 0));
    forall k | 0 <= k < |ts| - 1 ensures BacktrackStep(r, p, fx, ts[k], ts[k + 1]) {
      JudgeBacktrack(r, p, fx, ts[k]);
    }
  }

  lemma JudgeBacktrack(r: Rule, p: Problem, fx: real, beta: real)
    requires Shaped(p) && r.widths.Backtrack? && !r.propagateNaN && !r.test.ArmijoTest?
    requires Judge(r, p, fx, beta).Reject?
    ensures BacktrackStep(r, p, fx, beta, Times(beta, Judge(r, p, fx, beta).width))
  {
  }

  /** A rule that ignores the gradient's status aborts only on a NaN objective. */
  lemma SearchIgnoresGradientNaN(r: Rule, p: Problem, c: Counters)
    requires Shaped(p) && !r.propagateNaN && p.objective(p.x).Num?
    ensures var fx := p.objective(p.x).val;
      var ts := Trials(r, p, fx, r.first, r.cap);
      Search(r, p, c).status == LineSearchFunctionNaN ==>
        |ts| > 0 && p.objective(TrialPoint(p, ts[|ts| - 1])).NaN?
  {
    var fx := p.objective(p.x).val;
    RunTrials(r, p, fx, r.first, r.cap, AfterFunction(c, p.objective(p.x)));
  }

  // ---------------------------------------------------------------------
  // The loop as the C code runs it

  /** One trial of the loop body: x_temp = x + beta*d, f there, and for the
      Wolfe tests the gradient at x_temp into g_temp and gd_temp = g_temp . d. */
  method Trial(r: Rule, component: Component, x: array<real>, g: array<real>, d: array<real>,
               xTemp: array<real>, gTemp: array<real>, fx: real, gd: real, beta: real) returns (v: Verdict)
    requires 1 <= x.Length && g.Length == x.Length && d.Length == x.Length
    requires xTemp.Length == x.Length && gTemp.Length == x.Length
    requires xTemp != gTemp && xTemp != x && xTemp != g && xTemp != d
    requires gTemp != x && gTemp != g && gTemp != d
    requires gd == Dot(g[..], d[..])
    modifies component, xTemp, gTemp
    ensures v == Judge(r, Problem(component.objective, component.gradient, x[..], g[..], d[..]), fx, beta)
    ensures component.State() ==
      AfterTrial(r, Problem(component.objective, component.gradient, x[..], g[..], d[..]), fx, beta, old(component.State()))
    ensures r.test.ArmijoTest? ==> gTemp[..] == old(gTemp[..])
  {
    ghost var p := Problem(component.objective, component.gradient, x[..], g[..], d[..]);
    MyMath.UpdateStepVector(xTemp, x, beta, d);
    assert xTemp[..] == TrialPoint(p, beta);
    var fStatus := component.Function(xTemp);
    if fStatus == FunctionNaN {
      return Abort;
    }
    if !(component.f.val <= ArmijoBound(fx, r.xi, beta, gd)) {
      return Reject(ShrinkWidth(r.widths));
    }
    if r.test.ArmijoTest? {
      return Accept;
    }
    var gStatus := component.Gradient(gTemp, xTemp);
    if gStatus == FunctionNaN {
      return if r.propagateNaN then Abort else Reject(GrowWidth(r.widths));
    }
    var gdTemp := MyMath.DotProduct(gTemp, d);
    var sigmaGd := Times(r.sigma, gd);
    if !(sigmaGd <= gdTemp) {
      return Reject(GrowWidth(r.widths));
    }
    if r.test.WolfeTest? || -sigmaGd <= Abs(gdTemp) {
      return Accept;
    }
    return Reject(ShrinkWidth(r.widths));
  }

  /** The common body of every line search.  x_temp and g_temp are the work
      vectors; x, g and d are only read. */
  method RunSearch(r: Rule, component: Component, x: array<real>, g: array<real>, d: array<real>,
                   xTemp: array<real>, gTemp: array<real>) returns (status: LineSearchStatus)
    requires 1 <= x.Length && g.Length == x.Length && d.Length == x.Length
    requires xTemp.Length == x.Length && gTemp.Length == x.Length
    requires xTemp != gTemp && xTemp != x && xTemp != g && xTemp != d
    requires gTemp != x && gTemp != g && gTemp != d
    modifies component, xTemp, gTemp
    ensures Outcome(status, component.State()) ==
      Search(r, Problem(component.objective, component.gradient, x[..], g[..], d[..]), old(component.State()))
    ensures r.test.ArmijoTest? ==> gTemp[..] == old(gTemp[..])
  {
    ghost var p := Problem(component.objective, component.gradient, x[..], g[..], d[..]);
    ghost var c0 := component.State();
    var beta := r.first;
    var fStatus := component.Function(x);
    if fStatus == FunctionNaN {
      return LineSearchFunctionNaN;
    }
    var fx := component.f.val;
    var gd := MyMath.DotProduct(g, d);
    var iter := 1;
    while iter <= r.cap
      invariant 1 <= iter <= r.cap + 1
      invariant x[..] == p.x && g[..] == p.g && d[..] == p.d
      invariant gd == Slope(p)
      invariant Search(r, p, c0) == Run(r, p, fx, beta, r.cap - (iter - 1), component.State())
      invariant r.test.ArmijoTest? ==> gTemp[..] == old(gTemp[..])
    {
      ghost var c := component.State();
      Unfold(r, p, fx, beta, r.cap - (iter - 1), c);
      var v := Trial(r, component, x, g, d, xTemp, gTemp, fx, gd, beta);
      if v.Accept? {
        component.alpha := beta;
        return LineSearchSatisfied;
      } else if v.Abort? {
        return LineSearchFunctionNaN;
      }
      beta := Times(beta, v.width);
      iter := iter + 1;
    }
    return LineSearchFailed;
  }
}
