/** SIR-D: SIR with the removed compartment split into Recovered and Deceased. */
module Sird {
  import opened Builtins
  import opened Flows
  import Sir

  /** The compartments, in state-vector order. */
  const Names: seq<string> := ["S", "I", "R", "D"]

  /** The parameters, in the order the derivative reads them. */
  const ParamNames: seq<string> := ["beta", "gamma", "mu"]

  function DefaultParams(): (d: Params)
    ensures HasParams(d)
    ensures forall k :: k in d ==> k in ParamNames && d[k] > 0.0
    ensures forall k :: k in d <==> k in ParamNames
  {
    map["beta" := 0.5, "gamma" := 0.1, "mu" := 0.05]
  }

  function DefaultInitialConditions(): (ic: Params)
    ensures forall c :: c in ic <==> c in Names
    ensures forall c :: c in ic ==> ic[c] >= 0.0
    ensures Sum(ValuesIn(ic, Names)) == 1.0
  {
    var ic := map["S" := 0.99, "I" := 0.01, "R" := 0.0, "D" := 0.0];
    SumOf4(ValuesIn(ic, Names));
    ic
  }

  /** Infection S -> I (beta), recovery I -> R (gamma), death I -> D (mu). */
  function Transitions(): (ts: seq<Transition>)
    ensures forall k :: 0 <= k < |ts| ==> ts[k].source in Names && ts[k].target in Names && ts[k].source != ts[k].target
    ensures forall k :: 0 <= k < |ts| ==> ts[k].rate in ParamNames
  {
    [Transition("S", "I", "beta"), Transition("I", "R", "gamma"), Transition("I", "D", "mu")]
  }

  /** R0 = beta / (gamma + mu): the infectious period ends by recovery or death. */
  function R0(p: Params): (r: Result<real>)
    ensures "beta" !in p ==> r == Err(KeyError("beta"))
    ensures "beta" in p && "gamma" !in p ==> r == Err(KeyError("gamma"))
    ensures "beta" in p && "gamma" in p && "mu" !in p ==> r == Err(KeyError("mu"))
    ensures "beta" in p && "gamma" in p && "mu" in p && p["gamma"] + p["mu"] == 0.0 ==> r == Err(ZeroDivision)
    ensures r.Ok? <==> "beta" in p && "gamma" in p && "mu" in p && p["gamma"] + p["mu"] != 0.0
    ensures r.Ok? ==> r.value * (p["gamma"] + p["mu"]) == p["beta"]
  {
    var beta :- Get(p, "beta");
    var gamma :- Get(p, "gamma");
    var mu :- Get(p, "mu");
    if gamma + mu == 0.0 then Err(ZeroDivision) else Ok(beta / (gamma + mu))
  }

  /** Every parameter the derivative reads is present. */
  predicate HasParams(p: Params) {
    "beta" in p && "gamma" in p && "mu" in p
  }

  lemma {:induction false} ParamsPresent(p: Params)
    ensures HasParams(p) <==> forall i :: 0 <= i < |ParamNames| ==> ParamNames[i] in p
  {
    assert ParamNames[0] == "beta" && ParamNames[1] == "gamma" && ParamNames[2] == "mu";
  }

  /** R0 and the derivative read only the parameters in ParamNames: an entry
      under any other key changes neither. */
  lemma {:induction false} IgnoresOtherKeys(t: real, y: seq<real>, p: Params, k: string, v: real)
    requires forall i :: 0 <= i < |ParamNames| ==> ParamNames[i] != k
    ensures R0(p[k := v]) == R0(p)
    ensures Deriv(t, y, p[k := v]) == Deriv(t, y, p)
  {
    assert ParamNames[0] != k && ParamNames[1] != k && ParamNames[2] != k;
    FetchIgnores(p, ParamNames, k, v);
  }

  /** The rates in the order the derivative reads them. */
  function Rates(p: Params): seq<real>
    requires HasParams(p)
  {
    [p["beta"], p["gamma"], p["mu"]]
  }

  /** Reading the parameters in order yields Rates(p) when all are present. */
  lemma {:induction false} FetchRates(p: Params)
    requires HasParams(p)
    ensures Fetch(p, ParamNames) == Ok(Rates(p))
  {
    var r := Fetch(p, ParamNames).value;
    assert r[0] == p["beta"] && r[1] == p["gamma"] && r[2] == p["mu"];
    assert r == Rates(p);
  }

  /** The right-hand side on the unpacked state y = (S, I, R, D) and the rates
      r = (beta, gamma, mu). */
  function Field(y: seq<real>, r: seq<real>): (d: seq<real>)
    requires |y| == |Names| && |r| == |ParamNames| && Sum(y) != 0.0
    ensures |d| == |Names|
  {
    SumOf4(y);
    var S, I, R, D := y[0], y[1], y[2], y[3];
    var beta, gamma, mu := r[0], r[1], r[2];
    var N := S + I + R + D;
    var dS := -Incidence(beta, S, I, N);
    var dI := Incidence(beta, S, I, N) - (gamma * I) - (mu * I);
    var dR := gamma * I;
    var dD := mu * I;
    [dS, dI, dR, dD]
  }

  /** dy/dt at state y: the state is unpacked first, then the rates are read in
      order, then the total N divides the force of infection. */
  function Deriv(t: real, y: seq<real>, p: Params): (r: Result<seq<real>>)
    ensures |y| != 4 ==> r == Err(UnpackError(4, |y|))
    ensures |y| == 4 && Fetch(p, ParamNames).Err? ==> r == Err(Fetch(p, ParamNames).error)
    ensures r.Ok? <==> |y| == 4 && HasParams(p) && Sum(y) != 0.0
    ensures r.Ok? ==> |r.value| == |Names|
  {
    if |y| != 4 then Err(UnpackError(4, |y|))
    else
      ParamsPresent(p);
      var rates :- Fetch(p, ParamNames);
      if Sum(y) == 0.0 then Err(NonFinite) else Ok(Field(y, rates))
  }

  /** The flows of Transitions(), in order: infection, recovery, death. */
  function TransitionFlows(y: seq<real>, r: seq<real>): seq<real>
    requires |y| == |Names| && |r| == |ParamNames| && Sum(y) != 0.0
  {
    [Incidence(r[0], y[0], y[1], Sum(y)), r[1] * y[1], r[2] * y[1]]
  }

  /** Per compartment, inflows minus outflows of the three flows. */
  function Signed(x: seq<real>): seq<real>
    requires |x| == 3
  {
    [-x[0], x[0] - x[1] - x[2], x[1], x[2]]
  }

  /** The derivative is the signed sum of the three listed flows; I has two
      outflows, gamma*I to R and mu*I to D. */
  lemma {:induction false} FlowBalance(t: real, y: seq<real>, p: Params)
    requires Deriv(t, y, p).Ok?
    ensures Describes(Names, Transitions(), y, p)
    ensures Deriv(t, y, p).value == Balance(Names, Transitions(), y, p)
  {
    FetchRates(p);
    FieldIsSigned(y, Rates(p));
    BalanceValue(y, p);
  }

  lemma {:induction false} FieldIsSigned(y: seq<real>, r: seq<real>)
    requires |y| == |Names| && |r| == |ParamNames| && Sum(y) != 0.0
    ensures Field(y, r) == Signed(TransitionFlows(y, r))
  {
    SumOf4(y);
    var x, d := TransitionFlows(y, r), Field(y, r);
    assert d[3] == x[2] && d[2] == x[1] && d[1] == x[0] - x[1] - x[2] && d[0] == -x[0];
  }

  /** Transitions() with S, I, R, D resolved to positions 0 to 3. */
  const Edges: seq<Edge> := [Edge(0, 1, "beta"), Edge(1, 2, "gamma"), Edge(1, 3, "mu")]

  /** No compartment name occurs twice. */
  lemma {:induction false} NamesDistinct()
    ensures Distinct(Names)
  {
  }

  lemma {:induction false} Resolved()
    ensures Resolvable(Names, Transitions())
    ensures Resolve(Names, Transitions()) == Edges
    ensures Position(Names, Infectious) == 1
  {
    NamesDistinct();
    var ts := Transitions();
    forall k | 0 <= k < |ts|
      ensures Matches(Names, ts[k], Edges[k])
    {
      if k == 0 {} else if k == 1 {} else {}
    }
    ResolveByIndex(Names, ts, Edges);
    assert Names[1] == Infectious;
  }

  /** Every transition joins two compartments and is governed by a default
      parameter. */
  lemma {:induction false} TransitionsWellFormed()
    ensures forall k :: 0 <= k < |Transitions()| ==> Transitions()[k].source in Names && Transitions()[k].target in Names
    ensures forall k :: 0 <= k < |Transitions()| ==> Transitions()[k].rate in DefaultParams()
  {
    Resolved();
    var d := DefaultParams();
    forall k | 0 <= k < |Edges|
      ensures Edges[k].rate in d
    {
      if k == 0 {} else if k == 1 {} else {}
    }
  }

  lemma {:induction false} Admits(y: seq<real>, p: Params)
    requires |y| == |Names| && Sum(y) != 0.0 && HasParams(p)
    ensures Admissible(Edges, 1, y, p)
  {
    forall k | 0 <= k < |Edges|
      ensures Edges[k].source < |y| && Edges[k].target < |y| && Edges[k].rate in p
    {
      if k == 0 {} else if k == 1 {} else {}
    }
  }

  lemma {:induction false} EdgeBalanceValue(y: seq<real>, p: Params)
    requires |y| == |Names| && Sum(y) != 0.0 && HasParams(p)
    ensures Admissible(Edges, 1, y, p)
    ensures EdgeBalance(Edges, 1, y, p) == Signed(TransitionFlows(y, Rates(p)))
  {
    var x := TransitionFlows(y, Rates(p));
    Admits(y, p);
    assert FlowOf(Edges[0], 1, y, p) == x[0] && FlowOf(Edges[1], 1, y, p) == x[1];
    assert FlowOf(Edges[2], 1, y, p) == x[2];
    assert BalanceFrom(Edges, 1, 3, y, p) == [0.0, 0.0, 0.0, 0.0];
    assert BalanceFrom(Edges, 1, 2, y, p) == [0.0, -x[2], 0.0, x[2]];
    assert BalanceFrom(Edges, 1, 1, y, p) == [0.0, -x[2] - x[1], x[1], x[2]];
  }

  lemma {:induction false} BalanceValue(y: seq<real>, p: Params)
    requires |y| == |Names| && Sum(y) != 0.0 && HasParams(p)
    ensures Describes(Names, Transitions(), y, p)
    ensures Balance(Names, Transitions(), y, p) == Signed(TransitionFlows(y, Rates(p)))
  {
    Resolved();
    EdgeBalanceValue(y, p);
    BalanceOfResolved(Names, Transitions(), Edges, 1, y, p);
  }

  /** The derivative in terms of the flows, for the lemmas below. */
  lemma {:induction false} DerivValue(t: real, y: seq<real>, p: Params)
    requires Deriv(t, y, p).Ok?
    ensures Deriv(t, y, p).value == Signed(TransitionFlows(y, Rates(p)))
  {
    FetchRates(p);
    FieldIsSigned(y, Rates(p));
  }

  /** With nonnegative rates and state and a positive total: S never grows,
      R grows at gamma*I and D at mu*I. */
  lemma {:induction false} Signs(t: real, y: seq<real>, p: Params)
    requires Deriv(t, y, p).Ok?
    requires p["beta"] >= 0.0 && p["gamma"] >= 0.0 && p["mu"] >= 0.0
    requires y[0] >= 0.0 && y[1] >= 0.0 && Sum(y) > 0.0
    ensures Deriv(t, y, p).value[0] <= 0.0
    ensures Deriv(t, y, p).value[2] == p["gamma"] * y[1] >= 0.0
    ensures Deriv(t, y, p).value[3] == p["mu"] * y[1] >= 0.0
  {
    DerivValue(t, y, p);
    IncidenceNonnegative(p["beta"], y[0], y[1], Sum(y));
  }

  /** Without mortality SIR-D is SIR: on (S, I, R, D) it moves S, I and R as SIR
      does on (S, I, R + D), and D stays constant. */
  lemma {:induction false} NoMortalityIsSir(t: real, y: seq<real>, p: Params)
    requires Deriv(t, y, p).Ok? && p["mu"] == 0.0
    ensures Sir.Deriv(t, [y[0], y[1], y[2] + y[3]], p).Ok?
    ensures Deriv(t, y, p).value == Sir.Deriv(t, [y[0], y[1], y[2] + y[3]], p).value + [0.0]
  {
    var z := [y[0], y[1], y[2] + y[3]];
    SumOf4(y);
    SumOf3(z);
    assert Sir.HasParams(p);
    DerivValue(t, y, p);
    Sir.DerivValue(t, z, p);
    var x, w := TransitionFlows(y, Rates(p)), Sir.TransitionFlows(z, Sir.Rates(p));
    assert x[0] == w[0] && x[1] == w[1] && x[2] == 0.0;
  }

  /** R0 for beta = 0.5, gamma = 0.1 and mu = 0.1 is 2.5. */
  lemma {:induction false} R0Example()
    ensures R0(map["beta" := 0.5, "gamma" := 0.1, "mu" := 0.1]) == Ok(2.5)
  {
  }
}
