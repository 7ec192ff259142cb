/** The arithmetic of the dashboard: the metrics shown under a simulation
    (peak of the infectious column, the day of the peak, the effective
    reproduction number over time) and the sidebar that collects parameters
    and initial conditions through widgets, warning when the initial
    conditions do not add up to one. The widgets are parameters. */
module Dashboard {
  import opened Builtins
  import opened Flows
  import opened Contract
  import opened Solver

  /** `i` is the first position at which `xs` attains its maximum. */
  predicate IsFirstMax(xs: seq<real>, i: nat) {
    && i < |xs|
    && (forall j :: 0 <= j < |xs| ==> xs[j] <= xs[i])
    && (forall j :: 0 <= j < i ==> xs[j] < xs[i])
  }

  /** There is only one first position of the maximum. */
  lemma {:induction false} FirstMaxUnique(xs: seq<real>, i: nat, j: nat)
    requires IsFirstMax(xs, i) && IsFirstMax(xs, j)
    ensures i == j
  {
    assert xs[i] == xs[j];
  }

  /** `np.argmax(xs)`: the first position of the maximum; an empty column has
      none. */
  function ArgMax(xs: seq<real>): (r: Result<nat>)
    ensures r.Err? <==> |xs| == 0
    ensures r.Err? ==> r.error == EmptyArgmax
    ensures r.Ok? ==> IsFirstMax(xs, r.value)
  {
    if |xs| == 0 then Err(EmptyArgmax) else Ok(ArgMaxOf(xs, |xs|))
  }

  /** The first position of the maximum among the first `n` entries: the
      running best, replaced only by a strictly larger entry. */
  function ArgMaxOf(xs: seq<real>, n: nat): (i: nat)
    requires 1 <= n <= |xs|
    ensures i < n
    ensures forall j :: 0 <= j < n ==> xs[j] <= xs[i]
    ensures forall j :: 0 <= j < i ==> xs[j] < xs[i]
  {
    if n == 1 then 0
    else
      var b := ArgMaxOf(xs, n - 1);
      if xs[n - 1] > xs[b] then n - 1 else b
  }

  /** `solution[:, c]`: column `c` of a table whose rows all have entry `c`. */
  function Column(sol: seq<seq<real>>, c: nat): (col: seq<real>)
    requires forall k :: 0 <= k < |sol| ==> c < |sol[k]|
    ensures |col| == |sol| && forall k :: 0 <= k < |sol| ==> col[k] == sol[k][c]
  {
    seq(|sol|, k requires 0 <= k < |sol| => sol[k][c])
  }

  /** The figures shown under the charts. */
  datatype Metrics = Metrics(r0: real, peakIndex: nat, peakDay: real, peakValue: real, rt: seq<real>, rtAtEnd: real)

  /** Every row of `sol` has one entry per compartment of `names`, and there
      is one time point per row. */
  predicate Table(names: seq<string>, ts: seq<real>, sol: seq<seq<real>>) {
    |ts| == |sol| && forall k :: 0 <= k < |sol| ==> |sol[k]| == |names|
  }

  /** The metrics of a solution whose columns are named by `names`: the I and
      S columns are looked up by name, the peak is the first row where I is
      largest, and Rt is R0 times S, row by row. */
  function ComputeMetrics(names: seq<string>, r0: real, ts: seq<real>, sol: seq<seq<real>>): (r: Result<Metrics>)
    requires Table(names, ts, sol)
    ensures Infectious !in names ==> r == Err(NotInList(Infectious))
    ensures Infectious in names && |sol| == 0 ==> r == Err(EmptyArgmax)
    ensures Infectious in names && |sol| > 0 && "S" !in names ==> r == Err(NotInList("S"))
    ensures r.Ok? <==> Infectious in names && "S" in names && |sol| > 0
    ensures r.Ok? ==>
      var c := IndexOf(names, Infectious).value;
      && r.value.r0 == r0
      && IsFirstMax(Column(sol, c), r.value.peakIndex)
      && r.value.peakDay == ts[r.value.peakIndex]
      && r.value.peakValue == sol[r.value.peakIndex][c]
    ensures r.Ok? ==>
      var s := IndexOf(names, "S").value;
      && |r.value.rt| == |sol|
      && (forall k :: 0 <= k < |sol| ==> r.value.rt[k] == r0 * sol[k][s])
      && r.value.rtAtEnd == r0 * sol[|sol| - 1][s]
  {
    var c :- IndexOf(names, Infectious);
    var idx :- ArgMax(Column(sol, c));
    var s :- IndexOf(names, "S");
    var rt := seq(|sol|, k requires 0 <= k < |sol| => r0 * sol[k][s]);
    Ok(Metrics(r0, idx, ts[idx], sol[idx][c], rt, rt[|rt| - 1]))
  }

  /** The peak value bounds every sample of the I column. */
  lemma {:induction false} PeakBoundsColumn(names: seq<string>, r0: real, ts: seq<real>, sol: seq<seq<real>>, k: nat)
    requires Table(names, ts, sol) && ComputeMetrics(names, r0, ts, sol).Ok? && k < |sol|
    ensures sol[k][IndexOf(names, Infectious).value] <= ComputeMetrics(names, r0, ts, sol).value.peakValue
  {
    var c := IndexOf(names, Infectious).value;
    assert Column(sol, c)[k] == sol[k][c];
  }

  /** The dashboard metrics of model `m` under parameters `p`: R0 first, which
      may fail, then the metrics of its solution, whose S column is column 0
      and whose I column is the position of I (see NamedColumns). */
  function DashboardMetrics(m: Model, p: Params, ts: seq<real>, sol: seq<seq<real>>): (r: Result<Metrics>)
    requires Table(Names(m), ts, sol)
    ensures R0(m, p).Err? ==> r == Err(R0(m, p).error)
    ensures R0(m, p).Ok? && |sol| == 0 ==> r == Err(EmptyArgmax)
    ensures r.Ok? <==> R0(m, p).Ok? && |sol| > 0
    ensures r.Ok? ==>
      var c := IndexOf(Names(m), Infectious).value;
      && r.value.r0 == R0(m, p).value
      && IsFirstMax(Column(sol, c), r.value.peakIndex)
      && r.value.peakDay == ts[r.value.peakIndex]
      && r.value.peakValue == sol[r.value.peakIndex][c]
      && |r.value.rt| == |sol|
      && (forall k :: 0 <= k < |sol| ==> r.value.rt[k] == R0(m, p).value * sol[k][0])
      && r.value.rtAtEnd == r.value.rt[|sol| - 1]
  {
    NamedColumns(m);
    var r0 :- R0(m, p);
    ComputeMetrics(Names(m), r0, ts, sol)
  }

  /** With every default rate given (as the sidebar guarantees), R0 defined and every
      compartment given an initial value, the callback the integrator calls
      is defined on every state with a nonzero total, and the metrics of a
      default-length solve are defined. */
  lemma {:induction false} SolvedMetrics(m: Model, ic: Params, p: Params, tMax: int, odeint: Integrator)
    requires Tabulates(odeint) && InitialState(m, ic).Ok? && R0(m, p).Ok?
    requires forall k :: k in DefaultParams(m) ==> k in p
    ensures forall y: seq<real>, t: real :: |y| == |Names(m)| && Sum(y) != 0.0 ==> Wrapper(m)(y, t, p).Ok?
    ensures var r := ODESolver(m).Solve(ic, p, tMax, odeint);
      && r.Ok?
      && Table(Names(m), r.value.0, r.value.1)
      && DashboardMetrics(m, p, r.value.0, r.value.1).Ok?
  {
  }

  /** Relative and absolute tolerance of `np.isclose`. */
  const RelativeTolerance: real := 0.00001
  const AbsoluteTolerance: real := 0.00000001

  /** `np.isclose(a, b)`: `a` is within the tolerances of `b`. */
  predicate IsClose(a: real, b: real): (r: bool)
    ensures a == b ==> r
    ensures b == 0.0 ==> (r <==> -AbsoluteTolerance <= a <= AbsoluteTolerance)
  {
    var d := if a >= b then a - b else b - a;
    var m := if b >= 0.0 then b else -b;
    d <= AbsoluteTolerance + RelativeTolerance * m
  }

  /** A total within the tolerances of 1 is close to 1 and one outside them
      is not; exactly 1 is always close. */
  lemma {:induction false} IsCloseToOne(total: real)
    ensures IsClose(total, 1.0) <==> 1.0 - 0.00001001 <= total <= 1.0 + 0.00001001
    ensures IsClose(1.0, 1.0)
  {
  }

  /** Upper end of a parameter slider: the larger of 1 and twice the default. */
  function SliderMax(v: real): (r: real)
    ensures r >= v && r >= 1.0 && r >= 2.0 * v
    ensures r == 1.0 || r == 2.0 * v
  {
    if 1.0 >= v * 2.0 then 1.0 else v * 2.0
  }

  /** Resolution of a parameter slider: finer for small defaults. */
  function SliderStep(v: real): (r: real)
    ensures r > 0.0 && r <= 0.01
    ensures r == 0.001 <==> v < 0.1
    ensures r == 0.01 <==> v >= 0.1
  {
    if v < 0.1 then 0.001 else 0.01
  }

  /** Every default parameter fits its slider: it lies between 0 and the
      slider's upper end. */
  lemma {:induction false} DefaultsFitSliders(m: Model, k: string)
    requires k in DefaultParams(m)
    ensures 0.0 < DefaultParams(m)[k] <= SliderMax(DefaultParams(m)[k])
  {
  }

  /** `st.sidebar.slider(label, min, max, value)` for the whole-day horizon. */
  type DaySlider = (string, int, int, int) -> int

  /** `st.sidebar.slider(label, min, max, value, step)` and
      `st.sidebar.number_input(label, min, max, value, step)`. */
  type Widget = (string, real, real, real, real) -> real

  /** A widget left at its initial value. */
  ghost predicate Untouched(w: Widget) {
    forall l, lo, hi, v, s :: w(l, lo, hi, v, s) == v
  }

  /** `params` has the keys of the defaults `d`, each holding what its slider,
      ranging from 0 to SliderMax and starting at the default, returned. */
  predicate SlidersRead(params: Params, d: Params, slider: Widget) {
    && params.Keys == d.Keys
    && forall k :: k in params ==> params[k] == slider(k, 0.0, SliderMax(d[k]), d[k], SliderStep(d[k]))
  }

  /** `ic` has the keys of the defaults `d`, each holding what was entered in
      its number input, ranging over [0, 1] and starting at the default. */
  predicate InputsRead(ic: Params, d: Params, numberInput: Widget) {
    && ic.Keys == d.Keys
    && forall k :: k in ic ==> ic[k] == numberInput("Initial " + k, 0.0, 1.0, d[k], 0.01)
  }

  /** One slider per entry of `d`, visited in the order `keys`. */
  method ReadParams(d: Params, keys: seq<string>, slider: Widget) returns (params: Params)
    requires forall k :: k in d <==> k in keys
    ensures SlidersRead(params, d, slider)
    ensures Untouched(slider) ==> params == d
  {
    params := map[];
    for i := 0 to |keys|
      invariant forall k :: k in params <==> k in keys[..i]
      invariant forall k :: k in params ==> k in d && params[k] == slider(k, 0.0, SliderMax(d[k]), d[k], SliderStep(d[k]))
    {
      var v := d[keys[i]];
      params := params[keys[i] := slider(keys[i], 0.0, SliderMax(v), v, SliderStep(v))];
    }
    assert keys[..|keys|] == keys;
  }

  /** One number input per entry of `d`, visited in the order `keys`. */
  method ReadInitialConditions(d: Params, keys: seq<string>, numberInput: Widget) returns (ic: Params)
    requires forall k :: k in d <==> k in keys
    ensures InputsRead(ic, d, numberInput)
    ensures Untouched(numberInput) ==> ic == d
  {
    ic := map[];
    for i := 0 to |keys|
      invariant forall k :: k in ic <==> k in keys[..i]
      invariant forall k :: k in ic ==> k in d && ic[k] == numberInput("Initial " + k, 0.0, 1.0, d[k], 0.01)
    {
      ic := ic[keys[i] := numberInput("Initial " + keys[i], 0.0, 1.0, d[keys[i]], 0.01)];
    }
    assert keys[..|keys|] == keys;
    if Untouched(numberInput) {
      forall k | k in ic
        ensures ic[k] == d[k]
      {
        assert ic[k] == numberInput("Initial " + k, 0.0, 1.0, d[k], 0.01);
      }
    }
  }

  /** `sum(values)`, accumulated left to right. */
  method Total(values: seq<real>) returns (total: real)
    ensures total == Sum(values)
  {
    total := 0.0;
    for i := 0 to |values|
      invariant total == SumTo(values, i)
    {
      total := total + values[i];
    }
  }

  /** Reads the horizon, one slider per default parameter and one number
      input per compartment, then sums the initial conditions and warns when
      the total is not close to 1. The values are returned as read: a total
      away from 1 is reported, never corrected. Left untouched, the widgets
      give back the model's defaults and raise no warning. */
  method RenderSidebar(m: Model, days: DaySlider, slider: Widget, numberInput: Widget)
    returns (params: Params, ic: Params, tMax: int, warned: bool)
    ensures tMax == days("Simulation Time (Days)", 10, 365, 100)
    ensures SlidersRead(params, DefaultParams(m), slider)
    ensures InputsRead(ic, DefaultInitialConditions(m), numberInput)
    ensures forall i :: 0 <= i < |Names(m)| ==> Names(m)[i] in ic
    ensures warned <==> !IsClose(Sum(ValuesIn(ic, Names(m))), 1.0)
    ensures Untouched(slider) ==> params == DefaultParams(m)
    ensures Untouched(numberInput) ==> ic == DefaultInitialConditions(m) && !warned
  {
    tMax := days("Simulation Time (Days)", 10, 365, 100);
    params := ReadParams(DefaultParams(m), ParamNames(m), slider);
    InitialConditionsKeys(m);
    ic := ReadInitialConditions(DefaultInitialConditions(m), Names(m), numberInput);
    var total := Total(ValuesIn(ic, Names(m)));
    warned := !IsClose(total, 1.0);
    if Untouched(numberInput) {
      assert total == 1.0;
      IsCloseToOne(total);
    }
  }

  /** The default initial conditions fit their number inputs: each lies
      between 0 and 1. */
  lemma {:induction false} DefaultsFitInputs(m: Model, c: string)
    requires c in DefaultInitialConditions(m)
    ensures 0.0 <= DefaultInitialConditions(m)[c] <= 1.0
  {
    var ic := DefaultInitialConditions(m);
    var names := Names(m);
    InitialConditionsKeys(m);
    var i := Position(names, c);
    EntryBelowSum(ValuesIn(ic, names), i);
  }
}
