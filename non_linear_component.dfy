// src/non_linear_component.c: the evaluation context shared by the line
// searches and the optimisers.  It counts the calls to the user's objective
// and gradient and keeps the last objective value and the accepted step.
//
// A C double is a real here, except for the values the user's functions
// return: those may be NaN, which is what the code tests with `v != v`.
module NonLinearComponent {

  datatype Option<T> = None | Some(value: T)

  /** A value returned by the user's objective or gradient. */
  datatype Double = Num(val: real) | NaN

  /** The user's objective f(x). */
  type Objective = seq<real> -> Double

  /** Component i of the user's gradient at x. */
  type Gradient = (seq<real>, nat) -> Double

  /** FunctionObject: either callback may be NULL. */
  datatype FunctionObject = FunctionObject(objective: Option<Objective>, gradient: Option<Gradient>)

  /** NON_LINEAR_SATISFIED and NON_LINEAR_FUNCTION_NAN */
  datatype Status = Satisfied | FunctionNaN

  function GradientAt(gradient: Gradient, x: seq<real>): (r: seq<Double>)
    ensures |r| == |x|
  {
    seq(|x|, i requires 0 <= i < |x| => gradient(x, i))
  }

  predicate HasNaN(v: seq<Double>)
  {
    exists i :: 0 <= i < |v| && v[i].NaN?
  }

  /** The real values of a gradient with no NaN component; NaN components read as 0. */
  function Values(v: seq<Double>): (r: seq<real>)
    ensures |r| == |v|
  {
    seq(|v|, i requires 0 <= i < |v| => if v[i].Num? then v[i].val else 0.0)
  }

  /** The fields of NonLinearComponent that the evaluators and line searches write. */
  datatype Counters = Counters(f: Double, alpha: real, iterationF: nat, iterationG: nat)

  /** The effect of one objective evaluation returning v. */
  function AfterFunction(c: Counters, v: Double): (r: Counters)
    ensures r.iterationF == c.iterationF + 1 && r.f == v
    ensures r.iterationG == c.iterationG && r.alpha == c.alpha
  {
    c.(f := v, iterationF := c.iterationF + 1)
  }

  /** The effect of one gradient evaluation. */
  function AfterGradient(c: Counters): (r: Counters)
    ensures r.iterationG == c.iterationG + 1
    ensures r.iterationF == c.iterationF && r.f == c.f && r.alpha == c.alpha
  {
    c.(iterationG := c.iterationG + 1)
  }

  class Component {
    var f: Double
    var alpha: real
    var iterationF: nat
    var iterationG: nat
    const objective: Objective
    const gradient: Gradient

    function State(): Counters
      reads this
    {
      Counters(f, alpha, iterationF, iterationG)
    }

    /** initialize_non_linear_component: zero counters, f = 0, alpha = 0,
        and the function object bound to the component. */
    constructor (objective: Objective, gradient: Gradient)
      ensures State() == Counters(Num(0.0), 0.0, 0, 0)
      ensures this.objective == objective && this.gradient == gradient
    {
      iterationF := 0;
      iterationG := 0;
      f := Num(0.0);
      alpha := 0.0;
      this.objective := objective;
      this.gradient := gradient;
    }

    /** function: one call of the objective, stored in f and counted. */
    method Function(x: array<real>) returns (status: Status)
      modifies this
      ensures State() == AfterFunction(old(State()), objective(x[..]))
      ensures status == FunctionNaN <==> f.NaN?
    {
      f := objective(x[..]);
      iterationF := iterationF + 1;
      if f.NaN? {
        return FunctionNaN;
      }
      return Satisfied;
    }

    /** The user's gradient routine filling g; a NaN component leaves its
        entry unconstrained. */
    method FillGradient(g: array<real>, x: array<real>)
      requires g.Length == x.Length && g != x
      modifies g
      ensures forall i :: 0 <= i < g.Length && gradient(x[..], i).Num? ==> g[i] == gradient(x[..], i).val
      ensures !HasNaN(GradientAt(gradient, x[..])) ==> g[..] == Values(GradientAt(gradient, x[..]))
    {
      ghost var xs := x[..];
      var i := 0;
      while i < g.Length
        invariant 0 <= i <= g.Length && x[..] == xs
        invariant forall k :: 0 <= k < i && gradient(xs, k).Num? ==> g[k] == gradient(xs, k).val
      {
        var v := gradient(x[..], i);
        if v.Num? {
          g[i] := v.val;
        } else {
          g[i] := *;
        }
        i := i + 1;
      }
      if !HasNaN(GradientAt(gradient, xs)) {
        assert forall k :: 0 <= k < g.Length ==> g[..][k] == Values(GradientAt(gradient, xs))[k];
      }
    }

    /** The check loop: the first NaN component makes the call report NaN. */
    method FirstNaN(x: array<real>) returns (status: Status)
      ensures status == FunctionNaN <==> HasNaN(GradientAt(gradient, x[..]))
    {
      var i := 0;
      while i < x.Length
        invariant 0 <= i <= x.Length
        invariant forall k :: 0 <= k < i ==> gradient(x[..], k).Num?
      {
        if gradient(x[..], i).NaN? {
          assert GradientAt(gradient, x[..])[i].NaN?;
          return FunctionNaN;
        }
        i := i + 1;
      }
      return Satisfied;
    }

    /** gradient: one call of the user's gradient, counted; NaN iff some component is NaN. */
    method Gradient(g: array<real>, x: array<real>) returns (status: Status)
      requires g.Length == x.Length && g != x
      modifies this, g
      ensures State() == AfterGradient(old(State()))
      ensures status == FunctionNaN <==> HasNaN(GradientAt(gradient, x[..]))
      ensures forall i :: 0 <= i < g.Length && gradient(x[..], i).Num? ==> g[i] == gradient(x[..], i).val
      ensures status == Satisfied ==> g[..] == Values(GradientAt(gradient, x[..]))
    {
      FillGradient(g, x);
      iterationG := iterationG + 1;
      status := FirstNaN(x);
    }

    /** function_gradient: both calls and both counters; the objective is checked first. */
    method FunctionGradient(g: array<real>, x: array<real>) returns (status: Status)
      requires g.Length == x.Length && g != x
      modifies this, g
      ensures State() == AfterGradient(AfterFunction(old(State()), objective(x[..])))
      ensures status == FunctionNaN <==> f.NaN? || HasNaN(GradientAt(gradient, x[..]))
      ensures forall i :: 0 <= i < g.Length && gradient(x[..], i).Num? ==> g[i] == gradient(x[..], i).val
      ensures status == Satisfied ==> g[..] == Values(GradientAt(gradient, x[..]))
    {
      f := objective(x[..]);
      iterationF := iterationF + 1;
      FillGradient(g, x);
      iterationG := iterationG + 1;
      if f.NaN? {
        return FunctionNaN;
      }
      status := FirstNaN(x);
    }
  }

  /** The effect of a run of objective evaluations returning vs, in order. */
  function AfterFunctions(c: Counters, vs: seq<Double>): Counters
    decreases |vs|
  {
    if |vs| == 0 then c else AfterFunctions(AfterFunction(c, vs[0]), vs[1..])
  }

  /** The effect of k gradient evaluations. */
  function AfterGradients(c: Counters, k: nat): Counters
    decreases k
  {
    if k == 0 then c else AfterGradients(AfterGradient(c), k - 1)
  }

  /** k objective calls add exactly k to iteration_f, leave iteration_g and
      alpha alone, and leave f holding the last value returned. */
  lemma {:induction false} FunctionCalls(c: Counters, vs: seq<Double>)
    ensures var r := AfterFunctions(c, vs);
      r.iterationF == c.iterationF + |vs| && r.iterationG == c.iterationG && r.alpha == c.alpha &&
      r.f == (if |vs| == 0 then c.f else vs[|vs| - 1])
    decreases |vs|
  {
    if |vs| > 0 {
      FunctionCalls(AfterFunction(c, vs[0]), vs[1..]);
    }
  }

  /** k gradient calls add exactly k to iteration_g and change nothing else. */
  lemma {:induction false} GradientCalls(c: Counters, k: nat)
    ensures AfterGradients(c, k) == c.(iterationG := c.iterationG + k)
    decreases k
  {
    if k > 0 {
      GradientCalls(AfterGradient(c), k - 1);
    }
  }
}
