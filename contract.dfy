/** The capability set every model of the family provides (compartment names,
    default parameters and initial conditions, R0, derivative, transitions), as
    one closed datatype that dispatches to the four variants, and the laws the
    whole family obeys. */
module Contract {
  import opened Builtins
  import opened Flows
  import Sir
  import Sird
  import Sirf
  import Sewirf

  /** The four models of the family. */
  datatype Model = SIR | SIRD | SIRF | SEWIRF

  /** The compartments in state-vector order: distinct names, S first, and
      an infectious compartment I somewhere. */
  function Names(m: Model): (ns: seq<string>)
    ensures Distinct(ns)
    ensures 3 <= |ns| && ns[0] == "S" && Infectious in ns
  {
    match m
    case SIR => Sir.NamesDistinct(); Sir.Names
    case SIRD => Sird.NamesDistinct(); Sird.Names
    case SIRF => Sirf.NamesDistinct(); Sirf.Names
    case SEWIRF => Sewirf.NamesDistinct(); Sewirf.Names
  }

  /** Default parameter values; every default rate is positive. */
  function DefaultParams(m: Model): (d: Params)
    ensures InfectionRate in d
    ensures forall k :: k in d ==> d[k] > 0.0
  {
    match m
    case SIR => Sir.DefaultParams()
    case SIRD => Sird.DefaultParams()
    case SIRF => Sirf.DefaultParams()
    case SEWIRF => Sewirf.DefaultParams()
  }

  /** The parameter names in the order the default mapping lists them: exactly
      its keys. */
  function ParamNames(m: Model): (ns: seq<string>)
    ensures forall k :: k in DefaultParams(m) <==> k in ns
  {
    match m
    case SIR => Sir.ParamNames
    case SIRD => Sird.ParamNames
    case SIRF => Sirf.ParamNames
    case SEWIRF => Sewirf.ParamNames
  }

  /** Default initial conditions: one nonnegative proportion per compartment,
      adding up to the whole population. */
  function DefaultInitialConditions(m: Model): (ic: Params)
    ensures forall i :: 0 <= i < |Names(m)| ==> Names(m)[i] in ic
    ensures forall c :: c in ic ==> ic[c] >= 0.0
    ensures Sum(ValuesIn(ic, Names(m))) == 1.0
  {
    match m
    case SIR => Sir.DefaultInitialConditions()
    case SIRD => Sird.DefaultInitialConditions()
    case SIRF => Sirf.DefaultInitialConditions()
    case SEWIRF => Sewirf.DefaultInitialConditions()
  }

  /** The transition list: every transition joins two compartments and is
      governed by a default parameter. */
  function Transitions(m: Model): (ts: seq<Transition>)
    ensures forall k :: 0 <= k < |ts| ==> ts[k].source in Names(m) && ts[k].target in Names(m)
    ensures forall k :: 0 <= k < |ts| ==> ts[k].rate in DefaultParams(m)
  {
    match m
    case SIR => Sir.TransitionsWellFormed(); Sir.Transitions()
    case SIRD => Sird.TransitionsWellFormed(); Sird.Transitions()
    case SIRF => Sirf.TransitionsWellFormed(); Sirf.Transitions()
    case SEWIRF => Sewirf.TransitionsWellFormed(); Sewirf.Transitions()
  }

  /** R0 from the parameter mapping alone: it fails on a missing beta first,
      and it is zero exactly when there is no transmission. */
  function R0(m: Model, p: Params): (r: Result<real>)
    ensures InfectionRate !in p ==> r == Err(KeyError(InfectionRate))
    ensures r.Ok? ==> InfectionRate in p && (r.value == 0.0 <==> p[InfectionRate] == 0.0)
  {
    match m
    case SIR => Sir.R0(p)
    case SIRD => Sird.R0(p)
    case SIRF => Sirf.R0(p)
    case SEWIRF => Sewirf.R0(p)
  }

  /** dy/dt at state y. It is defined exactly when the state has one entry per
      compartment, the population is nonzero and every default parameter is
      given a value; then it has one entry per compartment. */
  function Deriv(m: Model, t: real, y: seq<real>, p: Params): (r: Result<seq<real>>)
    ensures |y| != |Names(m)| ==> r == Err(UnpackError(|Names(m)|, |y|))
    ensures r.Ok? <==> |y| == |Names(m)| && Sum(y) != 0.0 && forall k :: k in DefaultParams(m) ==> k in p
    ensures r.Ok? ==> |r.value| == |Names(m)|
  {
    match m
    case SIR =>
      KeysCovered(Sir.DefaultParams(), Sir.ParamNames, p);
      Sir.ParamsPresent(p);
      Sir.Deriv(t, y, p)
    case SIRD =>
      KeysCovered(Sird.DefaultParams(), Sird.ParamNames, p);
      Sird.ParamsPresent(p);
      Sird.Deriv(t, y, p)
    case SIRF =>
      KeysCovered(Sirf.DefaultParams(), Sirf.ParamNames, p);
      Sirf.ParamsPresent(p);
      Sirf.Deriv(t, y, p)
    case SEWIRF =>
      KeysCovered(Sewirf.DefaultParams(), Sewirf.ParamNames, p);
      Sewirf.ParamsPresent(p);
      Sewirf.Deriv(t, y, p)
  }

  /** The default initial conditions name exactly the compartments. */
  lemma {:induction false} InitialConditionsKeys(m: Model)
    ensures forall c :: c in DefaultInitialConditions(m) <==> c in Names(m)
  {
    if m == SEWIRF {
      Sewirf.InitialConditionsKeys();
    }
  }

  /** A state of the right size whose parameter mapping lacks a default
      parameter makes the derivative fail with a KeyError naming a missing
      default parameter. */
  lemma {:induction false} MissingParameter(m: Model, t: real, y: seq<real>, p: Params)
    requires |y| == |Names(m)|
    requires exists k :: k in DefaultParams(m) && k !in p
    ensures Deriv(m, t, y, p).Err?
    ensures exists k :: Deriv(m, t, y, p).error == KeyError(k) && k in DefaultParams(m) && k !in p
  {
    match m
    case SIR => FetchMissing(Sir.DefaultParams(), Sir.ParamNames, p);
    case SIRD => FetchMissing(Sird.DefaultParams(), Sird.ParamNames, p);
    case SIRF => FetchMissing(Sirf.DefaultParams(), Sirf.ParamNames, p);
    case SEWIRF => FetchMissing(Sewirf.DefaultParams(), Sewirf.ParamNames, p);
  }

  /** The derivative is the signed sum of the flows the transition list names. */
  lemma {:induction false} FlowBalance(m: Model, t: real, y: seq<real>, p: Params)
    requires Deriv(m, t, y, p).Ok?
    ensures Describes(Names(m), Transitions(m), y, p)
    ensures Deriv(m, t, y, p).value == Balance(Names(m), Transitions(m), y, p)
  {
    match m
    case SIR => Sir.FlowBalance(t, y, p);
    case SIRD => Sird.FlowBalance(t, y, p);
    case SIRF => Sirf.FlowBalance(t, y, p);
    case SEWIRF => Sewirf.FlowBalance(t, y, p);
  }

  /** Population conservation: the components of every derivative add up to
      zero, so the total population is constant along a trajectory. */
  lemma {:induction false} Conservation(m: Model, t: real, y: seq<real>, p: Params)
    requires Deriv(m, t, y, p).Ok?
    ensures Sum(Deriv(m, t, y, p).value) == 0.0
  {
    FlowBalance(m, t, y, p);
    BalanceConserves(Names(m), Transitions(m), y, p);
  }

  /** Every model is autonomous: the derivative does not depend on the time. */
  lemma {:induction false} Autonomous(m: Model, t: real, u: real, y: seq<real>, p: Params)
    ensures Deriv(m, t, y, p) == Deriv(m, u, y, p)
  {
  }

  /** Neither R0 nor the derivative reads a parameter outside the defaults:
      an extra key in the mapping changes nothing. */
  lemma {:induction false} IgnoresOtherKeys(m: Model, t: real, y: seq<real>, p: Params, k: string, v: real)
    requires k !in DefaultParams(m)
    ensures R0(m, p[k := v]) == R0(m, p)
    ensures Deriv(m, t, y, p[k := v]) == Deriv(m, t, y, p)
  {
    var ns := ParamNames(m);
    assert forall i :: 0 <= i < |ns| ==> ns[i] != k;
    match m
    case SIR => Sir.IgnoresOtherKeys(t, y, p, k, v);
    case SIRD => Sird.IgnoresOtherKeys(t, y, p, k, v);
    case SIRF => Sirf.IgnoresOtherKeys(t, y, p, k, v);
    case SEWIRF => Sewirf.IgnoresOtherKeys(t, y, p, k, v);
  }

  /** Every rate in `p` is nonnegative. */
  predicate NonnegativeRates(p: Params) {
    forall k :: k in p ==> p[k] >= 0.0
  }

  /** Every compartment of `y` holds a nonnegative amount. */
  predicate NonnegativeState(y: seq<real>) {
    forall i :: 0 <= i < |y| ==> y[i] >= 0.0
  }

  /** S never grows on a nonnegative state with nonnegative rates. */
  ghost predicate SusceptiblesNeverGrow(m: Model) {
    forall t, y, p | Deriv(m, t, y, p).Ok? && NonnegativeRates(p) && NonnegativeState(y) && Sum(y) > 0.0 ::
      Deriv(m, t, y, p).value[0] <= 0.0
  }

  /** Susceptibles only ever leave, except in SEWIR-F, where the waning loop
      R -> W -> S returns mass to S. */
  lemma {:induction false} SusceptiblesMonotone(m: Model)
    ensures SusceptiblesNeverGrow(m) <==> m != SEWIRF
  {
    if m == SEWIRF {
      SusceptiblesCanGrow();
    } else {
      forall t, y, p | Deriv(m, t, y, p).Ok? && NonnegativeRates(p) && NonnegativeState(y) && Sum(y) > 0.0
        ensures Deriv(m, t, y, p).value[0] <= 0.0
      {
        SusceptiblesLeave(m, t, y, p);
      }
    }
  }

  lemma {:induction false} SusceptiblesLeave(m: Model, t: real, y: seq<real>, p: Params)
    requires m != SEWIRF
    requires Deriv(m, t, y, p).Ok? && NonnegativeRates(p) && NonnegativeState(y) && Sum(y) > 0.0
    ensures Deriv(m, t, y, p).value[0] <= 0.0
  {
    match m
    case SIR => Sir.Signs(t, y, p);
    case SIRD => Sird.Signs(t, y, p);
    case SIRF => Sirf.Signs(t, y, p);
  }

  lemma {:induction false} SusceptiblesCanGrow()
    ensures !SusceptiblesNeverGrow(SEWIRF)
  {
    Sewirf.SusceptiblesCanGrow();
    var y: seq<real> :| && |y| == |Sewirf.Names| && (forall i :: 0 <= i < |y| ==> y[i] >= 0.0) && Sum(y) > 0.0
      && Sewirf.Deriv(0.0, y, Sewirf.DefaultParams()).Ok? && Sewirf.Deriv(0.0, y, Sewirf.DefaultParams()).value[0] > 0.0;
    var p := DefaultParams(SEWIRF);
    assert NonnegativeRates(p);
    DispatchesToSewirf(0.0, y, p);
    GrowthWitness(SEWIRF, 0.0, y, p);
  }

  lemma {:induction false} DispatchesToSewirf(t: real, y: seq<real>, p: Params)
    ensures DefaultParams(SEWIRF) == Sewirf.DefaultParams()
    ensures Deriv(SEWIRF, t, y, p) == Sewirf.Deriv(t, y, p)
  {
  }

  /** One state on which S grows refutes SusceptiblesNeverGrow. */
  lemma {:induction false} GrowthWitness(m: Model, t: real, y: seq<real>, p: Params)
    requires Deriv(m, t, y, p).Ok? && NonnegativeRates(p) && NonnegativeState(y) && Sum(y) > 0.0
    requires Deriv(m, t, y, p).value[0] > 0.0
    ensures !SusceptiblesNeverGrow(m)
  {
  }

  /** In every model with a death compartment, D is the last compartment and
      never decreases on a nonnegative state with nonnegative rates. */
  lemma {:induction false} DeathsAccumulate(m: Model, t: real, y: seq<real>, p: Params)
    requires m != SIR
    requires Deriv(m, t, y, p).Ok? && NonnegativeRates(p) && NonnegativeState(y) && Sum(y) > 0.0
    ensures IndexOf(Names(m), "D") == Ok(|Names(m)| - 1)
    ensures Deriv(m, t, y, p).value[|Names(m)| - 1] >= 0.0
  {
    match m
    case SIRD => Sird.Signs(t, y, p);
    case SIRF => Sirf.Signs(t, y, p);
    case SEWIRF => Sewirf.DeathsAccumulate(t, y, p);
  }

  /** S is always the first column; I is the second, except in SEWIR-F, where
      E and W come before it. */
  lemma {:induction false} NamedColumns(m: Model)
    ensures IndexOf(Names(m), "S") == Ok(0)
    ensures IndexOf(Names(m), Infectious) == Ok(if m == SEWIRF then 3 else 1)
  {
    assert Names(m)[0] == "S";
    if m == SEWIRF {
      assert Names(m)[3] == Infectious;
    } else {
      assert Names(m)[1] == Infectious;
    }
  }

  /** The examples in the interface's documentation. */
  const DocumentedNames: seq<string> := ["S", "I", "R"]
  const DocumentedParams: Params := map["beta" := 0.3, "gamma" := 0.1]
  const DocumentedInitialConditions: Params := map["S" := 0.99, "I" := 0.01, "R" := 0.0]
  const DocumentedTransitions: seq<Transition> := [Transition("S", "I", "beta"), Transition("I", "R", "gamma")]

  /** The documented names and transitions are those of SIR and of no other
      model. */
  lemma {:induction false} DocumentedExamplesAreSir(m: Model)
    ensures Names(m) == DocumentedNames <==> m == SIR
    ensures Transitions(m) == DocumentedTransitions <==> m == SIR
  {
    assert |Names(m)| == 3 <==> m == SIR;
    assert |Transitions(m)| == 2 <==> m == SIR;
  }

  /** SIR's default initial conditions are the documented ones; the documented
      parameters have SIR's keys but not its default infection rate. */
  lemma {:induction false} DocumentedDefaults()
    ensures DefaultInitialConditions(SIR) == DocumentedInitialConditions
    ensures DefaultParams(SIR).Keys == DocumentedParams.Keys
    ensures DefaultParams(SIR)["beta"] != DocumentedParams["beta"]
  {
  }
}
