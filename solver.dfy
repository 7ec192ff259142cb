/** The set-up ODESolver.solve performs around the integrator: the time grid,
    the initial state in compartment order, and the callback with the argument
    order the integrator expects. The integrator itself is a parameter. */
module Solver {
  import opened Builtins
  import opened Contract

  /** `numpy.linspace(0, stop, num)`: `num` evenly spaced points from 0 to
      `stop`, both ends included; a single point is just 0, and a negative
      count is refused. */
  function Linspace(stop: real, num: int): (r: Result<seq<real>>)
    ensures r.Err? <==> num < 0
    ensures r.Err? ==> r.error == NegativeSampleCount(num)
    ensures r.Ok? ==> |r.value| == num
    ensures r.Ok? && num >= 1 ==> r.value[0] == 0.0
    ensures r.Ok? && num >= 2 ==> r.value[num - 1] == stop
    ensures r.Ok? && num >= 2 ==>
      forall k :: 0 <= k < num - 1 ==> r.value[k + 1] - r.value[k] == stop / (num - 1) as real
  {
    if num < 0 then Err(NegativeSampleCount(num))
    else if num <= 1 then Ok(seq(num, _ => 0.0))
    else
      var ts := seq(num, k => k as real * stop / (num - 1) as real);
      assert forall k :: 0 <= k < num - 1 ==> ts[k + 1] - ts[k] == stop / (num - 1) as real by {
        forall k | 0 <= k < num - 1
          ensures ts[k + 1] - ts[k] == stop / (num - 1) as real
        {
          GridStep(k, stop, (num - 1) as real);
        }
      }
      Ok(ts)
  }

  /** Consecutive grid points differ by one step. */
  lemma {:induction false} GridStep(k: nat, stop: real, d: real)
    requires d > 0.0
    ensures (k + 1) as real * stop / d - k as real * stop / d == stop / d
  {
    calc {
      (k + 1) as real * stop / d - k as real * stop / d;
      ((k + 1) as real * stop - k as real * stop) / d;
      { assert (k + 1) as real * stop - k as real * stop == stop; }
      stop / d;
    }
  }

  /** `y0 = [initial_conditions[c] for c in compartments]`: the initial state
      in the model's compartment order, failing on the first compartment the
      mapping does not name. */
  function InitialState(m: Model, ic: Params): (r: Result<seq<real>>)
    ensures r.Ok? <==> forall i :: 0 <= i < |Names(m)| ==> Names(m)[i] in ic
    ensures r.Ok? ==> |r.value| == |Names(m)| && forall i :: 0 <= i < |Names(m)| ==> r.value[i] == ic[Names(m)[i]]
    ensures r.Err? ==> exists j :: 0 <= j < |Names(m)| && r.error == KeyError(Names(m)[j]) &&
                        Names(m)[j] !in ic && forall i :: 0 <= i < j ==> Names(m)[i] in ic
  {
    Fetch(ic, Names(m))
  }

  /** A key that names no compartment is never read. */
  lemma {:induction false} InitialStateIgnoresExtraKeys(m: Model, ic: Params, k: string, v: real)
    requires k !in Names(m)
    ensures InitialState(m, ic[k := v]) == InitialState(m, ic)
  {
    FetchIgnores(ic, Names(m), k, v);
  }

  /** Only the values of the compartments matter, not how the mapping was
      built: two mappings that agree on every compartment give the same state. */
  lemma {:induction false} InitialStateByCompartment(m: Model, ic: Params, jc: Params)
    requires forall i :: 0 <= i < |Names(m)| ==> (Names(m)[i] in ic <==> Names(m)[i] in jc)
    requires forall i :: 0 <= i < |Names(m)| && Names(m)[i] in ic ==> ic[Names(m)[i]] == jc[Names(m)[i]]
    ensures InitialState(m, ic) == InitialState(m, jc)
  {
    var ns := Names(m);
    var a, b := InitialState(m, ic), InitialState(m, jc);
    if a.Ok? {
      assert b.Ok?;
      assert a.value == b.value;
    } else {
      assert b.Err?;
      var j :| 0 <= j < |ns| && a.error == KeyError(ns[j]) && ns[j] !in ic && forall i :: 0 <= i < j ==> ns[i] in ic;
      var j' :| 0 <= j' < |ns| && b.error == KeyError(ns[j']) && ns[j'] !in jc && forall i :: 0 <= i < j' ==> ns[i] in jc;
      assert !(j < j') by {
        assert ns[j] !in jc;
      }
      assert !(j' < j) by {
        assert ns[j'] !in ic;
      }
    }
  }

  /** The right-hand side as the integrator calls it: state first, then time. */
  type Callback = (seq<real>, real, Params) -> Result<seq<real>>

  /** The wrapper `func(y, t, p)` handed to the integrator: the model's
      derivative with the first two arguments swapped. What it returns keeps
      the state's length and the population total. */
  function Wrapper(m: Model): (f: Callback)
    ensures forall y, t, p :: f(y, t, p) == Deriv(m, t, y, p)
    ensures forall y, t, p :: f(y, t, p).Ok? <==> Deriv(m, t, y, p).Ok?
    ensures forall y, t, p :: f(y, t, p).Ok? ==> |f(y, t, p).value| == |y| && Sum(f(y, t, p).value) == 0.0
  {
    var f := (y, t, p) => Deriv(m, t, y, p);
    assert forall y, t, p :: f(y, t, p).Ok? ==> |f(y, t, p).value| == |y| && Sum(f(y, t, p).value) == 0.0 by {
      forall y, t, p | f(y, t, p).Ok?
        ensures |f(y, t, p).value| == |y| && Sum(f(y, t, p).value) == 0.0
      {
        Conservation(m, t, y, p);
      }
    }
    f
  }

  /** `scipy.integrate.odeint(func, y0, t, args=(params,))`, left abstract. */
  type Integrator = (Callback, seq<real>, seq<real>, Params) -> seq<seq<real>>

  /** What the integrator promises about its output: one row per time point,
      one column per state entry. */
  ghost predicate Tabulates(odeint: Integrator) {
    forall f, y0, ts, p :: |odeint(f, y0, ts, p)| == |ts| &&
      forall k :: 0 <= k < |ts| ==> |odeint(f, y0, ts, p)[k]| == |y0|
  }

  /** Time points of shape (steps,) and a solution of shape (steps, N). */
  predicate Shaped(ts: seq<real>, sol: seq<seq<real>>, steps: nat, n: nat) {
    |ts| == steps && |sol| == steps && forall k :: 0 <= k < steps ==> |sol[k]| == n
  }

  /** The number of time points when the caller gives none. */
  const DefaultSteps: int := 100

  /** The solver holds the model it was built with; nothing updates it. */
  datatype ODESolver = ODESolver(model: Model) {

    /** Builds the time grid, then the initial state, then hands both with
        the callback to the integrator. It fails if the step count is
        negative or a compartment has no initial value; otherwise the time
        points are the grid and the solution has shape (steps, N). */
    function Solve(ic: Params, p: Params, tMax: int, odeint: Integrator, steps: int := DefaultSteps): (r: Result<(seq<real>, seq<seq<real>>)>)
      requires Tabulates(odeint)
      ensures steps < 0 ==> r == Err(NegativeSampleCount(steps))
      ensures steps >= 0 ==> (r.Ok? <==> InitialState(model, ic).Ok?)
      ensures steps >= 0 && r.Err? ==> r.error == InitialState(model, ic).error
      ensures r.Ok? ==> r.value.0 == Linspace(tMax as real, steps).value
      ensures r.Ok? ==> Shaped(r.value.0, r.value.1, steps, |Names(model)|)
      ensures r.Ok? ==> r.value.1 == odeint(Wrapper(model), InitialState(model, ic).value, r.value.0, p)
    {
      var ts :- Linspace(tMax as real, steps);
      var y0 :- InitialState(model, ic);
      Ok((ts, odeint(Wrapper(model), y0, ts, p)))
    }
  }

  /** Without an explicit step count the grid has 100 points from 0 to tMax. */
  lemma {:induction false} DefaultGrid(s: ODESolver, ic: Params, p: Params, tMax: int, odeint: Integrator)
    requires Tabulates(odeint) && InitialState(s.model, ic).Ok?
    ensures s.Solve(ic, p, tMax, odeint).Ok?
    ensures |s.Solve(ic, p, tMax, odeint).value.1| == 100
    ensures s.Solve(ic, p, tMax, odeint).value.0[0] == 0.0
    ensures s.Solve(ic, p, tMax, odeint).value.0[99] == tMax as real
  {
  }

  /** Under any integrator that keeps its promise, SIR-D with its defaults
      and 50 steps yields a (50, 4) solution. */
  lemma {:induction false} SirdDimensions(odeint: Integrator)
    requires Tabulates(odeint)
    ensures ODESolver(SIRD).Solve(DefaultInitialConditions(SIRD), DefaultParams(SIRD), 10, odeint, 50).Ok?
    ensures Shaped(ODESolver(SIRD).Solve(DefaultInitialConditions(SIRD), DefaultParams(SIRD), 10, odeint, 50).value.0,
                   ODESolver(SIRD).Solve(DefaultInitialConditions(SIRD), DefaultParams(SIRD), 10, odeint, 50).value.1, 50, 4)
  {
    assert |Names(SIRD)| == 4;
  }
}
