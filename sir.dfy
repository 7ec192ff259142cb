/** The classic SIR model: Susceptible -> Infectious -> Recovered. */
module Sir {
  import opened Builtins
  import opened Flows

  /** The compartments, in state-vector order. */
  const Names: seq<string> := ["S", "I", "R"]

  /** The parameters, in the order the derivative reads them. */
  const ParamNames: seq<string> := ["beta", "gamma"]

  function DefaultParams(): (d: Params)
    ensures HasParams(d)
    ensures forall k :: k in d ==> k in ParamNames && d[k] > 0.0
    ensures forall k :: k in d <==> k in ParamNames
  {
    map["beta" := 0.5, "gamma" := 0.1]
  }

  /** Proportions of a population in which 1% is infectious. */
  function DefaultInitialConditions(): (ic: Params)
    ensures forall c :: c in ic <==> c in Names
    ensures forall c :: c in ic ==> ic[c] >= 0.0
    ensures Sum(ValuesIn(ic, Names)) == 1.0
  {
    var ic := map["S" := 0.99, "I" := 0.01, "R" := 0.0];
    SumOf3(ValuesIn(ic, Names));
    ic
  }

  /** Infection S -> I at rate beta, recovery I -> R at rate gamma. */
  function Transitions(): (ts: seq<Transition>)
    ensures forall k :: 0 <= k < |ts| ==> ts[k].source in Names && ts[k].target in Names && ts[k].source != ts[k].target
    ensures forall k :: 0 <= k < |ts| ==> ts[k].rate in ParamNames
  {
    [Transition("S", "I", "beta"), Transition("I", "R", "gamma")]
  }

  /** R0 = beta / gamma: infections per case over a mean infectious period 1/gamma. */
  function R0(p: Params): (r: Result<real>)
    ensures "beta" !in p ==> r == Err(KeyError("beta"))
    ensures "beta" in p && "gamma" !in p ==> r == Err(KeyError("gamma"))
    ensures "beta" in p && "gamma" in p && p["gamma"] == 0.0 ==> r == Err(ZeroDivision)
    ensures r.Ok? <==> "beta" in p && "gamma" in p && p["gamma"] != 0.0
    ensures r.Ok? ==> r.value * p["gamma"] == p["beta"]
  {
    var beta :- Get(p, "beta");
    var gamma :- Get(p, "gamma");
    if gamma == 0.0 then Err(ZeroDivision) else Ok(beta / gamma)
  }

  /** Every parameter the derivative reads is present. */
  predicate HasParams(p: Params) {
    "beta" in p && "gamma" in p
  }

  lemma {:induction false} ParamsPresent(p: Params)
    ensures HasParams(p) <==> forall i :: 0 <= i < |ParamNames| ==> ParamNames[i] in p
  {
    assert ParamNames[0] == "beta" && ParamNames[1] == "gamma";
  }

  /** R0 and the derivative read only the parameters in ParamNames: an entry
      under any other key changes neither. */
  lemma {:induction false} IgnoresOtherKeys(t: real, y: seq<real>, p: Params, k: string, v: real)
    requires forall i :: 0 <= i < |ParamNames| ==> ParamNames[i] != k
    ensures R0(p[k := v]) == R0(p)
    ensures Deriv(t, y, p[k := v]) == Deriv(t, y, p)
  {
    assert ParamNames[0] != k && ParamNames[1] != k;
    FetchIgnores(p, ParamNames, k, v);
  }

  /** The rates in the order the derivative reads them. */
  function Rates(p: Params): seq<real>
    requires HasParams(p)
  {
    [p["beta"], p["gamma"]]
  }

  /** Reading the parameters in order yields Rates(p) when all are present. */
  lemma {:induction false} FetchRates(p: Params)
    requires HasParams(p)
    ensures Fetch(p, ParamNames) == Ok(Rates(p))
  {
    var r := Fetch(p, ParamNames).value;
    assert r[0] == p["beta"] && r[1] == p["gamma"];
    assert r == Rates(p);
  }

  /** The right-hand side on the unpacked state y = (S, I, R) and the rates
      r = (beta, gamma); the force of infection uses the live total N. */
  function Field(y: seq<real>, r: seq<real>): (d: seq<real>)
    requires |y| == |Names| && |r| == |ParamNames| && Sum(y) != 0.0
    ensures |d| == |Names|
  {
    SumOf3(y);
    var S, I, R := y[0], y[1], y[2];
    var beta, gamma := r[0], r[1];
    var N := S + I + R;
    var dS := -Incidence(beta, S, I, N);
    var dI := Incidence(beta, S, I, N) - (gamma * I);
    var dR := gamma * I;
    [dS, dI, dR]
  }

  /** dy/dt at state y: the state is unpacked first, then the rates are read in
      order, then the total N divides the force of infection. */
  function Deriv(t: real, y: seq<real>, p: Params): (r: Result<seq<real>>)
    ensures |y| != 3 ==> r == Err(UnpackError(3, |y|))
    ensures |y| == 3 && Fetch(p, ParamNames).Err? ==> r == Err(Fetch(p, ParamNames).error)
    ensures r.Ok? <==> |y| == 3 && HasParams(p) && Sum(y) != 0.0
    ensures r.Ok? ==> |r.value| == |Names|
  {
    if |y| != 3 then Err(UnpackError(3, |y|))
    else
      ParamsPresent(p);
      var rates :- Fetch(p, ParamNames);
      if Sum(y) == 0.0 then Err(NonFinite) else Ok(Field(y, rates))
  }

  /** The flows of Transitions(), in order: infection and recovery. */
  function TransitionFlows(y: seq<real>, r: seq<real>): seq<real>
    requires |y| == |Names| && |r| == |ParamNames| && Sum(y) != 0.0
  {
    [Incidence(r[0], y[0], y[1], Sum(y)), r[1] * y[1]]
  }

  /** Per compartment, inflows minus outflows of the two flows. */
  function Signed(x: seq<real>): seq<real>
    requires |x| == 2
  {
    [-x[0], x[0] - x[1], x[1]]
  }

  /** The derivative is exactly the signed sum of the two listed flows:
      beta*S*I/N from S to I and gamma*I from I to R. */
  lemma {:induction false} FlowBalance(t: real, y: seq<real>, p: Params)
    requires Deriv(t, y, p).Ok?
    ensures Describes(Names, Transitions(), y, p)
    ensures Deriv(t, y, p).value == Balance(Names, Transitions(), y, p)
  {
    FetchRates(p);
    FieldIsSigned(y, Rates(p));
    BalanceValue(y, p);
  }

  lemma {:induction false} FieldIsSigned(y: seq<real>, r: seq<real>)
    requires |y| == |Names| && |r| == |ParamNames| && Sum(y) != 0.0
    ensures Field(y, r) == Signed(TransitionFlows(y, r))
  {
    SumOf3(y);
    var x, d := TransitionFlows(y, r), Field(y, r);
    assert d[2] == x[1] && d[1] == x[0] - x[1] && d[0] == -x[0];
  }

  /** Transitions() with S, I, R resolved to positions 0, 1, 2. */
  const Edges: seq<Edge> := [Edge(0, 1, "beta"), Edge(1, 2, "gamma")]

  /** No compartment name occurs twice. */
  lemma {:induction false} NamesDistinct()
    ensures Distinct(Names)
  {
  }

  lemma {:induction false} Resolved()
    ensures Resolvable(Names, Transitions())
    ensures Resolve(Names, Transitions()) == Edges
    ensures Position(Names, Infectious) == 1
  {
    NamesDistinct();
    var ts := Transitions();
    forall k | 0 <= k < |ts|
      ensures Matches(Names, ts[k], Edges[k])
    {
      if k == 0 {} else {}
    }
    ResolveByIndex(Names, ts, Edges);
    assert Names[1] == Infectious;
  }

  /** Every transition joins two compartments and is governed by a default
      parameter. */
  lemma {:induction false} TransitionsWellFormed()
    ensures forall k :: 0 <= k < |Transitions()| ==> Transitions()[k].source in Names && Transitions()[k].target in Names
    ensures forall k :: 0 <= k < |Transitions()| ==> Transitions()[k].rate in DefaultParams()
  {
    Resolved();
    var d := DefaultParams();
    forall k | 0 <= k < |Edges|
      ensures Edges[k].rate in d
    {
      if k == 0 {} else {}
    }
  }

  lemma {:induction false} Admits(y: seq<real>, p: Params)
    requires |y| == |Names| && Sum(y) != 0.0 && HasParams(p)
    ensures Admissible(Edges, 1, y, p)
  {
    forall k | 0 <= k < |Edges|
      ensures Edges[k].source < |y| && Edges[k].target < |y| && Edges[k].rate in p
    {
      if k == 0 {} else {}
    }
  }

  lemma {:induction false} EdgeBalanceValue(y: seq<real>, p: Params)
    requires |y| == |Names| && Sum(y) != 0.0 && HasParams(p)
    ensures Admissible(Edges, 1, y, p)
    ensures EdgeBalance(Edges, 1, y, p) == Signed(TransitionFlows(y, Rates(p)))
  {
    var x := TransitionFlows(y, Rates(p));
    Admits(y, p);
    assert FlowOf(Edges[0], 1, y, p) == x[0] && FlowOf(Edges[1], 1, y, p) == x[1];
    assert BalanceFrom(Edges, 1, 2, y, p) == [0.0, 0.0, 0.0];
    assert BalanceFrom(Edges, 1, 1, y, p) == [0.0, -x[1], x[1]];
  }

  lemma {:induction false} BalanceValue(y: seq<real>, p: Params)
    requires |y| == |Names| && Sum(y) != 0.0 && HasParams(p)
    ensures Describes(Names, Transitions(), y, p)
    ensures Balance(Names, Transitions(), y, p) == Signed(TransitionFlows(y, Rates(p)))
  {
    Resolved();
    EdgeBalanceValue(y, p);
    BalanceOfResolved(Names, Transitions(), Edges, 1, y, p);
  }

  /** The derivative in terms of the flows, for the lemmas below. */
  lemma {:induction false} DerivValue(t: real, y: seq<real>, p: Params)
    requires Deriv(t, y, p).Ok?
    ensures Deriv(t, y, p).value == Signed(TransitionFlows(y, Rates(p)))
  {
    FetchRates(p);
    FieldIsSigned(y, Rates(p));
  }

  /** With nonnegative rates and state and a positive total, S never grows,
      R grows at gamma*I, and nothing moves once I is zero. */
  lemma {:induction false} Signs(t: real, y: seq<real>, p: Params)
    requires Deriv(t, y, p).Ok?
    requires p["beta"] >= 0.0 && p["gamma"] >= 0.0
    requires y[0] >= 0.0 && y[1] >= 0.0 && Sum(y) > 0.0
    ensures Deriv(t, y, p).value[0] <= 0.0
    ensures Deriv(t, y, p).value[2] == p["gamma"] * y[1] >= 0.0
    ensures y[1] == 0.0 ==> Deriv(t, y, p).value == [0.0, 0.0, 0.0]
  {
    DerivValue(t, y, p);
    IncidenceNonnegative(p["beta"], y[0], y[1], Sum(y));
  }

  /** R0 for beta = 0.5 and gamma = 0.1 is 5. */
  lemma {:induction false} R0Example()
    ensures R0(map["beta" := 0.5, "gamma" := 0.1]) == Ok(5.0)
  {
  }

  /** A parameter mapping without gamma makes the derivative fail on gamma. */
  lemma {:induction false} MissingGamma(t: real, y: seq<real>)
    requires |y| == 3
    ensures Deriv(t, y, map["beta" := 0.5]) == Err(KeyError("gamma"))
  {
  }
}
