/** SIR-F: SIR with a compartment F of severe or isolated cases, which do not
    transmit, recover into R or die into D. */
module Sirf {
  import opened Builtins
  import opened Flows

  /** The compartments, in state-vector order. */
  const Names: seq<string> := ["S", "I", "R", "F", "D"]

  /** The parameters, in the order the derivative reads them. */
  const ParamNames: seq<string> := ["beta", "gamma_i", "alpha", "gamma_f", "mu"]

  function DefaultParams(): (d: Params)
    ensures HasParams(d)
    ensures forall k :: k in d ==> k in ParamNames && d[k] > 0.0
    ensures forall k :: k in d <==> k in ParamNames
  {
    map["beta" := 0.4, "gamma_i" := 0.1, "alpha" := 0.05, "gamma_f" := 0.05, "mu" := 0.02]
  }

  function DefaultInitialConditions(): (ic: Params)
    ensures forall c :: c in ic <==> c in Names
    ensures forall c :: c in ic ==> ic[c] >= 0.0
    ensures Sum(ValuesIn(ic, Names)) == 1.0
  {
    var ic := map["S" := 0.99, "I" := 0.01, "R" := 0.0, "F" := 0.0, "D" := 0.0];
    SumOf5(ValuesIn(ic, Names));
    ic
  }

  /** S -> I (beta), I -> R (gamma_i), I -> F (alpha), F -> R (gamma_f), F -> D (mu). */
  function Transitions(): (ts: seq<Transition>)
    ensures forall k :: 0 <= k < |ts| ==> ts[k].source in Names && ts[k].target in Names && ts[k].source != ts[k].target
    ensures forall k :: 0 <= k < |ts| ==> ts[k].rate in ParamNames
  {
    [ Transition("S", "I", "beta"), Transition("I", "R", "gamma_i"), Transition("I", "F", "alpha"),
      Transition("F", "R", "gamma_f"), Transition("F", "D", "mu") ]
  }

  /** R0 = beta / (gamma_i + alpha): an infectious case stops transmitting when it
      recovers or moves to F. */
  function R0(p: Params): (r: Result<real>)
    ensures "beta" !in p ==> r == Err(KeyError("beta"))
    ensures "beta" in p && "gamma_i" !in p ==> r == Err(KeyError("gamma_i"))
    ensures "beta" in p && "gamma_i" in p && "alpha" !in p ==> r == Err(KeyError("alpha"))
    ensures "beta" in p && "gamma_i" in p && "alpha" in p && p["gamma_i"] + p["alpha"] == 0.0 ==> r == Err(ZeroDivision)
    ensures r.Ok? <==> "beta" in p && "gamma_i" in p && "alpha" in p && p["gamma_i"] + p["alpha"] != 0.0
    ensures r.Ok? ==> r.value * (p["gamma_i"] + p["alpha"]) == p["beta"]
  {
    var beta :- Get(p, "beta");
    var gammaI :- Get(p, "gamma_i");
    var alpha :- Get(p, "alpha");
    if gammaI + alpha == 0.0 then Err(ZeroDivision) else Ok(beta / (gammaI + alpha))
  }

  /** Every parameter the derivative reads is present. */
  predicate HasParams(p: Params) {
    "beta" in p && "gamma_i" in p && "alpha" in p && "gamma_f" in p && "mu" in p
  }

  lemma {:induction false} ParamsPresent(p: Params)
    ensures HasParams(p) <==> forall i :: 0 <= i < |ParamNames| ==> ParamNames[i] in p
  {
    assert ParamNames[0] == "beta" && ParamNames[1] == "gamma_i" && ParamNames[2] == "alpha" && ParamNames[3] == "gamma_f" && ParamNames[4] == "mu";
  }

  /** R0 and the derivative read only the parameters in ParamNames: an entry
      under any other key changes neither. */
  lemma {:induction false} IgnoresOtherKeys(t: real, y: seq<real>, p: Params, k: string, v: real)
    requires forall i :: 0 <= i < |ParamNames| ==> ParamNames[i] != k
    ensures R0(p[k := v]) == R0(p)
    ensures Deriv(t, y, p[k := v]) == Deriv(t, y, p)
  {
    assert ParamNames[0] != k && ParamNames[1] != k && ParamNames[2] != k && ParamNames[3] != k && ParamNames[4] != k;
    FetchIgnores(p, ParamNames, k, v);
  }

  /** The rates in the order the derivative reads them. */
  function Rates(p: Params): seq<real>
    requires HasParams(p)
  {
    [p["beta"], p["gamma_i"], p["alpha"], p["gamma_f"], p["mu"]]
  }

  /** Reading the parameters in order yields Rates(p) when all are present. */
  lemma {:induction false} FetchRates(p: Params)
    requires HasParams(p)
    ensures Fetch(p, ParamNames) == Ok(Rates(p))
  {
    var r := Fetch(p, ParamNames).value;
    assert r[0] == p["beta"] && r[1] == p["gamma_i"] && r[2] == p["alpha"];
    assert r[3] == p["gamma_f"] && r[4] == p["mu"];
    assert r == Rates(p);
  }

  /** The right-hand side on the unpacked state y = (S, I, R, F, D) and the
      rates r = (beta, gamma_i, alpha, gamma_f, mu). */
  function Field(y: seq<real>, r: seq<real>): (d: seq<real>)
    requires |y| == |Names| && |r| == |ParamNames| && Sum(y) != 0.0
    ensures |d| == |Names|
  {
    SumOf5(y);
    var S, I, R, F, D := y[0], y[1], y[2], y[3], y[4];
    var beta, gammaI, alpha, gammaF, mu := r[0], r[1], r[2], r[3], r[4];
    var N := S + I + R + F + D;
    var dS := -Incidence(beta, S, I, N);
    var dI := Incidence(beta, S, I, N) - (gammaI * I) - (alpha * I);
    var dR := (gammaI * I) + (gammaF * F);
    var dF := (alpha * I) - (gammaF * F) - (mu * F);
    var dD := mu * F;
    [dS, dI, dR, dF, dD]
  }

  /** dy/dt at state y: the state is unpacked first, then the rates are read in
      order, then the total N divides the force of infection. */
  function Deriv(t: real, y: seq<real>, p: Params): (r: Result<seq<real>>)
    ensures |y| != 5 ==> r == Err(UnpackError(5, |y|))
    ensures |y| == 5 && Fetch(p, ParamNames).Err? ==> r == Err(Fetch(p, ParamNames).error)
    ensures r.Ok? <==> |y| == 5 && HasParams(p) && Sum(y) != 0.0
    ensures r.Ok? ==> |r.value| == |Names|
  {
    if |y| != 5 then Err(UnpackError(5, |y|))
    else
      ParamsPresent(p);
      var rates :- Fetch(p, ParamNames);
      if Sum(y) == 0.0 then Err(NonFinite) else Ok(Field(y, rates))
  }

  /** The flows of Transitions(), in order: infection, recovery from I,
      progression to F, recovery from F, death from F. */
  function TransitionFlows(y: seq<real>, r: seq<real>): seq<real>
    requires |y| == |Names| && |r| == |ParamNames| && Sum(y) != 0.0
  {
    [Incidence(r[0], y[0], y[1], Sum(y)), r[1] * y[1], r[2] * y[1], r[3] * y[3], r[4] * y[3]]
  }

  /** Per compartment, inflows minus outflows of the five flows. */
  function Signed(x: seq<real>): seq<real>
    requires |x| == 5
  {
    [-x[0], x[0] - x[1] - x[2], x[1] + x[3], x[2] - x[3] - x[4], x[4]]
  }

  /** The derivative is the signed sum of the five listed flows: F gains alpha*I
      and loses gamma_f*F to R and mu*F to D. */
  lemma {:induction false} FlowBalance(t: real, y: seq<real>, p: Params)
    requires Deriv(t, y, p).Ok?
    ensures Describes(Names, Transitions(), y, p)
    ensures Deriv(t, y, p).value == Balance(Names, Transitions(), y, p)
  {
    FetchRates(p);
    FieldIsSigned(y, Rates(p));
    BalanceValue(y, p);
  }

  lemma {:induction false} FieldIsSigned(y: seq<real>, r: seq<real>)
    requires |y| == |Names| && |r| == |ParamNames| && Sum(y) != 0.0
    ensures Field(y, r) == Signed(TransitionFlows(y, r))
  {
    SumOf5(y);
    var x, d := TransitionFlows(y, r), Field(y, r);
    assert d[4] == x[4] && d[3] == x[2] - x[3] - x[4] && d[2] == x[1] + x[3];
    assert d[1] == x[0] - x[1] - x[2] && d[0] == -x[0];
  }

  /** Transitions() with S, I, R, F, D resolved to positions 0 to 4. */
  const Edges: seq<Edge> :=
    [Edge(0, 1, "beta"), Edge(1, 2, "gamma_i"), Edge(1, 3, "alpha"), Edge(3, 2, "gamma_f"), Edge(3, 4, "mu")]

  /** No compartment name occurs twice. */
  lemma {:induction false} NamesDistinct()
    ensures Distinct(Names)
  {
  }

  lemma {:induction false} Resolved()
    ensures Resolvable(Names, Transitions())
    ensures Resolve(Names, Transitions()) == Edges
    ensures Position(Names, Infectious) == 1
  {
    NamesDistinct();
    var ts := Transitions();
    forall k | 0 <= k < |ts|
      ensures Matches(Names, ts[k], Edges[k])
    {
      if k == 0 {} else if k == 1 {} else if k == 2 {} else if k == 3 {} else {}
    }
    ResolveByIndex(Names, ts, Edges);
    assert Names[1] == Infectious;
  }

  /** Every transition joins two compartments and is governed by a default
      parameter. */
  lemma {:induction false} TransitionsWellFormed()
    ensures forall k :: 0 <= k < |Transitions()| ==> Transitions()[k].source in Names && Transitions()[k].target in Names
    ensures forall k :: 0 <= k < |Transitions()| ==> Transitions()[k].rate in DefaultParams()
  {
    Resolved();
    var d := DefaultParams();
    forall k | 0 <= k < |Edges|
      ensures Edges[k].rate in d
    {
      if k < 2 {
        if k == 0 {} else {}
      } else {
        if k == 2 {} else if k == 3 {} else {}
      }
    }
  }

  lemma {:induction false} Admits(y: seq<real>, p: Params)
    requires |y| == |Names| && Sum(y) != 0.0 && HasParams(p)
    ensures Admissible(Edges, 1, y, p)
  {
    forall k | 0 <= k < |Edges|
      ensures Edges[k].source < |y| && Edges[k].target < |y| && Edges[k].rate in p
    {
      if k == 0 {} else if k == 1 {} else if k == 2 {} else if k == 3 {} else {}
    }
  }

  /** The flow of each edge is the matching entry of TransitionFlows. */
  lemma {:induction false} EdgeFlows(y: seq<real>, p: Params)
    requires |y| == |Names| && Sum(y) != 0.0 && HasParams(p)
    ensures Admissible(Edges, 1, y, p)
    ensures forall k :: 0 <= k < |Edges| ==> FlowOf(Edges[k], 1, y, p) == TransitionFlows(y, Rates(p))[k]
  {
    Admits(y, p);
    var x := TransitionFlows(y, Rates(p));
    forall k | 0 <= k < |Edges|
      ensures FlowOf(Edges[k], 1, y, p) == x[k]
    {
      if k == 0 {} else if k == 1 {} else if k == 2 {} else if k == 3 {} else {}
    }
  }

  /** The balance of the exits from F. */
  lemma {:induction false} BalanceFrom3(y: seq<real>, p: Params)
    requires |y| == |Names| && Sum(y) != 0.0 && HasParams(p)
    ensures Admissible(Edges, 1, y, p)
    ensures var x := TransitionFlows(y, Rates(p));
            BalanceFrom(Edges, 1, 3, y, p) == [0.0, 0.0, x[3], -x[4] - x[3], x[4]]
  {
    var x := TransitionFlows(y, Rates(p));
    EdgeFlows(y, p);
    assert BalanceFrom(Edges, 1, 5, y, p) == [0.0, 0.0, 0.0, 0.0, 0.0];
    assert BalanceFrom(Edges, 1, 4, y, p) == [0.0, 0.0, 0.0, -x[4], x[4]];
  }

  lemma {:induction false} EdgeBalanceValue(y: seq<real>, p: Params)
    requires |y| == |Names| && Sum(y) != 0.0 && HasParams(p)
    ensures Admissible(Edges, 1, y, p)
    ensures EdgeBalance(Edges, 1, y, p) == Signed(TransitionFlows(y, Rates(p)))
  {
    var x := TransitionFlows(y, Rates(p));
    BalanceFrom3(y, p);
    EdgeFlows(y, p);
    assert BalanceFrom(Edges, 1, 2, y, p) == [0.0, -x[2], x[3], -x[4] - x[3] + x[2], x[4]];
    assert BalanceFrom(Edges, 1, 1, y, p) == [0.0, -x[2] - x[1], x[3] + x[1], -x[4] - x[3] + x[2], x[4]];
  }

  lemma {:induction false} BalanceValue(y: seq<real>, p: Params)
    requires |y| == |Names| && Sum(y) != 0.0 && HasParams(p)
    ensures Describes(Names, Transitions(), y, p)
    ensures Balance(Names, Transitions(), y, p) == Signed(TransitionFlows(y, Rates(p)))
  {
    Resolved();
    EdgeBalanceValue(y, p);
    BalanceOfResolved(Names, Transitions(), Edges, 1, y, p);
  }

  /** The derivative in terms of the flows, for the lemmas below. */
  lemma {:induction false} DerivValue(t: real, y: seq<real>, p: Params)
    requires Deriv(t, y, p).Ok?
    ensures Deriv(t, y, p).value == Signed(TransitionFlows(y, Rates(p)))
  {
    FetchRates(p);
    FieldIsSigned(y, Rates(p));
  }

  /** With nonnegative rates and state and a positive total, S never grows and
      D grows at mu*F; and F does not transmit: with no one in I, S and I stand
      still whatever F holds. */
  lemma {:induction false} Signs(t: real, y: seq<real>, p: Params)
    requires Deriv(t, y, p).Ok?
    requires p["beta"] >= 0.0 && p["mu"] >= 0.0
    requires y[0] >= 0.0 && y[1] >= 0.0 && y[3] >= 0.0 && Sum(y) > 0.0
    ensures Deriv(t, y, p).value[0] <= 0.0
    ensures Deriv(t, y, p).value[4] == p["mu"] * y[3] >= 0.0
    ensures y[1] == 0.0 ==> Deriv(t, y, p).value[0] == 0.0 && Deriv(t, y, p).value[1] == 0.0
  {
    DerivValue(t, y, p);
    IncidenceNonnegative(p["beta"], y[0], y[1], Sum(y));
  }

  /** R0 reads beta, gamma_i and alpha only: changing or dropping gamma_f and mu
      leaves it as it was. */
  lemma {:induction false} R0IgnoresSevereRates(p: Params, gammaF: real, mu: real)
    ensures R0(p["gamma_f" := gammaF]["mu" := mu]) == R0(p)
    ensures R0(p - {"gamma_f", "mu"}) == R0(p)
  {
    var q, q' := p["gamma_f" := gammaF]["mu" := mu], p - {"gamma_f", "mu"};
    assert forall k :: k in ["beta", "gamma_i", "alpha"] ==> (k in q <==> k in p) && (k in q' <==> k in p);
    assert forall k :: k in ["beta", "gamma_i", "alpha"] && k in p ==> q[k] == p[k] && q'[k] == p[k];
  }

  /** R0 for beta = 0.4 and gamma_i = alpha = 0.1 is 2. */
  lemma {:induction false} R0Example()
    ensures R0(map["beta" := 0.4, "gamma_i" := 0.1, "alpha" := 0.1, "gamma_f" := 0.1, "mu" := 0.1]) == Ok(2.0)
  {
  }
}

/** SEWIR-F: exposed (latent) cases E, severe cases F, and waning immunity that
    returns recovered people to S through W. */
module Sewirf {
  import opened Builtins
  import opened Flows

  /** The compartments, in state-vector order: I sits at index 3. */
  const Names: seq<string> := ["S", "E", "W", "I", "R", "F", "D"]

  /** The parameters, in the order the derivative reads them. */
  const ParamNames: seq<string> := ["beta", "sigma", "gamma_i", "alpha", "gamma_f", "mu", "omega", "rho"]

  function DefaultParams(): (d: Params)
    ensures HasParams(d)
    ensures forall k :: k in d ==> k in ParamNames && d[k] > 0.0
    ensures forall k :: k in d <==> k in ParamNames
  {
    map["beta" := 0.5, "sigma" := 0.2, "gamma_i" := 0.1, "alpha" := 0.05, "gamma_f" := 0.05,
        "mu" := 0.02, "omega" := 0.001, "rho" := 0.1]
  }

  function DefaultInitialConditions(): (ic: Params)
    ensures forall c :: c in ic ==> ic[c] >= 0.0
    ensures forall i :: 0 <= i < |Names| ==> Names[i] in ic
    ensures Sum(ValuesIn(ic, Names)) == 1.0
  {
    var ic := map["S" := 0.99, "E" := 0.0, "W" := 0.0, "I" := 0.01, "R" := 0.0, "F" := 0.0, "D" := 0.0];
    SumOf7(ValuesIn(ic, Names));
    ic
  }

  /** The default initial conditions name exactly the compartments. */
  lemma {:induction false} InitialConditionsKeys()
    ensures forall c :: c in DefaultInitialConditions() <==> c in Names
  {
  }

  /** S -> E (beta), E -> I (sigma), I -> R (gamma_i), I -> F (alpha),
      F -> R (gamma_f), F -> D (mu), R -> W (omega), W -> S (rho). */
  function Transitions(): (ts: seq<Transition>)
    ensures forall k :: 0 <= k < |ts| ==> ts[k].source in Names && ts[k].target in Names && ts[k].source != ts[k].target
    ensures forall k :: 0 <= k < |ts| ==> ts[k].rate in ParamNames
  {
    [ Transition("S", "E", "beta"), Transition("E", "I", "sigma"), Transition("I", "R", "gamma_i"),
      Transition("I", "F", "alpha"), Transition("F", "R", "gamma_f"), Transition("F", "D", "mu"),
      Transition("R", "W", "omega"), Transition("W", "S", "rho") ]
  }

  /** R0 = beta / (gamma_i + alpha); the latent stage E does not change it. */
  function R0(p: Params): (r: Result<real>)
    ensures "beta" !in p ==> r == Err(KeyError("beta"))
    ensures "beta" in p && "gamma_i" !in p ==> r == Err(KeyError("gamma_i"))
    ensures "beta" in p && "gamma_i" in p && "alpha" !in p ==> r == Err(KeyError("alpha"))
    ensures "beta" in p && "gamma_i" in p && "alpha" in p && p["gamma_i"] + p["alpha"] == 0.0 ==> r == Err(ZeroDivision)
    ensures r.Ok? <==> "beta" in p && "gamma_i" in p && "alpha" in p && p["gamma_i"] + p["alpha"] != 0.0
    ensures r.Ok? ==> r.value * (p["gamma_i"] + p["alpha"]) == p["beta"]
  {
    var beta :- Get(p, "beta");
    var gammaI :- Get(p, "gamma_i");
    var alpha :- Get(p, "alpha");
    if gammaI + alpha == 0.0 then Err(ZeroDivision) else Ok(beta / (gammaI + alpha))
  }

  /** Every parameter the derivative reads is present. */
  predicate HasParams(p: Params) {
    "beta" in p && "sigma" in p && "gamma_i" in p && "alpha" in p && "gamma_f" in p && "mu" in p && "omega" in p && "rho" in p
  }

  lemma {:induction false} ParamsPresent(p: Params)
    ensures HasParams(p) <==> forall i :: 0 <= i < |ParamNames| ==> ParamNames[i] in p
  {
    assert ParamNames[0] == "beta" && ParamNames[1] == "sigma" && ParamNames[2] == "gamma_i" && ParamNames[3] == "alpha" && ParamNames[4] == "gamma_f" && ParamNames[5] == "mu" && ParamNames[6] == "omega" && ParamNames[7] == "rho";
  }

  /** R0 and the derivative read only the parameters in ParamNames: an entry
      under any other key changes neither. */
  lemma {:induction false} IgnoresOtherKeys(t: real, y: seq<real>, p: Params, k: string, v: real)
    requires forall i :: 0 <= i < |ParamNames| ==> ParamNames[i] != k
    ensures R0(p[k := v]) == R0(p)
    ensures Deriv(t, y, p[k := v]) == Deriv(t, y, p)
  {
    assert ParamNames[0] != k && ParamNames[1] != k && ParamNames[2] != k && ParamNames[3] != k && ParamNames[4] != k && ParamNames[5] != k && ParamNames[6] != k && ParamNames[7] != k;
    FetchIgnores(p, ParamNames, k, v);
  }

  /** The rates in the order the derivative reads them. */
  function Rates(p: Params): seq<real>
    requires HasParams(p)
  {
    [p["beta"], p["sigma"], p["gamma_i"], p["alpha"], p["gamma_f"], p["mu"], p["omega"], p["rho"]]
  }

  lemma {:induction false} RatesAt(p: Params)
    requires HasParams(p)
    ensures var r := Rates(p); r[0] == p["beta"] && r[1] == p["sigma"] && r[2] == p["gamma_i"] && r[3] == p["alpha"]
    ensures var r := Rates(p); r[4] == p["gamma_f"] && r[5] == p["mu"] && r[6] == p["omega"] && r[7] == p["rho"]
  {
  }

  /** Reading the parameters in order yields Rates(p) when all are present. */
  lemma {:induction false} FetchRates(p: Params)
    requires HasParams(p)
    ensures Fetch(p, ParamNames) == Ok(Rates(p))
  {
    var r := Fetch(p, ParamNames).value;
    assert r[0] == p["beta"] && r[1] == p["sigma"] && r[2] == p["gamma_i"] && r[3] == p["alpha"];
    assert r[4] == p["gamma_f"] && r[5] == p["mu"] && r[6] == p["omega"] && r[7] == p["rho"];
    assert r == Rates(p);
  }

  /** The right-hand side on the unpacked state y = (S, E, W, I, R, F, D) and
      the rates r = (beta, sigma, gamma_i, alpha, gamma_f, mu, omega, rho). */
  function Field(y: seq<real>, r: seq<real>): (d: seq<real>)
    requires |y| == |Names| && |r| == |ParamNames| && Sum(y) != 0.0
    ensures |d| == |Names|
  {
    SumOf7(y);
    var S, E, W, I, R, F, D := y[0], y[1], y[2], y[3], y[4], y[5], y[6];
    var beta, sigma, gammaI, alpha := r[0], r[1], r[2], r[3];
    var gammaF, mu, omega, rho := r[4], r[5], r[6], r[7];
    var N := S + E + W + I + R + F + D;
    var dS := -Incidence(beta, S, I, N) + rho * W;
    var dE := Incidence(beta, S, I, N) - (sigma * E);
    var dW := (omega * R) - (rho * W);
    var dI := (sigma * E) - (gammaI * I) - (alpha * I);
    var dR := (gammaI * I) + (gammaF * F) - (omega * R);
    var dF := (alpha * I) - (gammaF * F) - (mu * F);
    var dD := mu * F;
    [dS, dE, dW, dI, dR, dF, dD]
  }

  /** dy/dt at state y: the state is unpacked first, then the rates are read in
      order, then the total N divides the force of infection. */
  function Deriv(t: real, y: seq<real>, p: Params): (r: Result<seq<real>>)
    ensures |y| != 7 ==> r == Err(UnpackError(7, |y|))
    ensures |y| == 7 && Fetch(p, ParamNames).Err? ==> r == Err(Fetch(p, ParamNames).error)
    ensures r.Ok? <==> |y| == 7 && HasParams(p) && Sum(y) != 0.0
    ensures r.Ok? ==> |r.value| == |Names|
  {
    if |y| != 7 then Err(UnpackError(7, |y|))
    else
      ParamsPresent(p);
      var rates :- Fetch(p, ParamNames);
      if Sum(y) == 0.0 then Err(NonFinite) else Ok(Field(y, rates))
  }

  /** The flows of Transitions(), in order. */
  function TransitionFlows(y: seq<real>, r: seq<real>): seq<real>
    requires |y| == |Names| && |r| == |ParamNames| && Sum(y) != 0.0
  {
    [ Incidence(r[0], y[0], y[3], Sum(y)), r[1] * y[1], r[2] * y[3], r[3] * y[3],
      r[4] * y[5], r[5] * y[5], r[6] * y[4], r[7] * y[2] ]
  }

  /** Per compartment, inflows minus outflows of the eight flows. */
  function Signed(x: seq<real>): seq<real>
    requires |x| == 8
  {
    [x[7] - x[0], x[0] - x[1], x[6] - x[7], x[1] - x[2] - x[3], x[2] + x[4] - x[6], x[3] - x[4] - x[5], x[5]]
  }

  /** The derivative is the signed sum of the eight listed flows: infection moves
      mass from S to E (not to I), and R returns to S through W. */
  lemma {:induction false} FlowBalance(t: real, y: seq<real>, p: Params)
    requires Deriv(t, y, p).Ok?
    ensures Describes(Names, Transitions(), y, p)
    ensures Deriv(t, y, p).value == Balance(Names, Transitions(), y, p)
  {
    FetchRates(p);
    FieldIsSigned(y, Rates(p));
    BalanceValue(y, p);
  }

  lemma {:induction false} FieldIsSigned(y: seq<real>, r: seq<real>)
    requires |y| == |Names| && |r| == |ParamNames| && Sum(y) != 0.0
    ensures Field(y, r) == Signed(TransitionFlows(y, r))
  {
    SumOf7(y);
    var x, d := TransitionFlows(y, r), Field(y, r);
    assert d[6] == x[5] && d[5] == x[3] - x[4] - x[5] && d[4] == x[2] + x[4] - x[6];
    assert d[3] == x[1] - x[2] - x[3] && d[2] == x[6] - x[7];
    assert d[1] == x[0] - x[1] && d[0] == x[7] - x[0];
  }

  /** Transitions() with S, E, W, I, R, F, D resolved to positions 0 to 6. */
  const Edges: seq<Edge> :=
    [ Edge(0, 1, "beta"), Edge(1, 3, "sigma"), Edge(3, 4, "gamma_i"), Edge(3, 5, "alpha"),
      Edge(5, 4, "gamma_f"), Edge(5, 6, "mu"), Edge(4, 2, "omega"), Edge(2, 0, "rho") ]

  /** No compartment name occurs twice. */
  lemma {:induction false} NamesDistinct()
    ensures Distinct(Names)
  {
  }

  lemma {:induction false} Resolved()
    ensures Resolvable(Names, Transitions())
    ensures Resolve(Names, Transitions()) == Edges
    ensures Position(Names, Infectious) == 3
  {
    NamesDistinct();
    var ts := Transitions();
    forall k | 0 <= k < |ts|
      ensures Matches(Names, ts[k], Edges[k])
    {
      if k < 4 {
        if k == 0 {} else if k == 1 {} else if k == 2 {} else {}
      } else {
        if k == 4 {} else if k == 5 {} else if k == 6 {} else {}
      }
    }
    ResolveByIndex(Names, ts, Edges);
    assert Names[3] == Infectious;
  }

  /** Every transition joins two compartments and is governed by a default
      parameter. */
  lemma {:induction false} TransitionsWellFormed()
    ensures forall k :: 0 <= k < |Transitions()| ==> Transitions()[k].source in Names && Transitions()[k].target in Names
    ensures forall k :: 0 <= k < |Transitions()| ==> Transitions()[k].rate in DefaultParams()
  {
    Resolved();
    var d := DefaultParams();
    forall k | 0 <= k < |Edges|
      ensures Edges[k].rate in d
    {
      if k < 4 {
        if k == 0 {} else if k == 1 {} else if k == 2 {} else {}
      } else {
        if k == 4 {} else if k == 5 {} else if k == 6 {} else {}
      }
    }
  }

  lemma {:induction false} Admits(y: seq<real>, p: Params)
    requires |y| == |Names| && Sum(y) != 0.0 && HasParams(p)
    ensures Admissible(Edges, 3, y, p)
  {
    forall k | 0 <= k < |Edges|
      ensures Edges[k].source < |y| && Edges[k].target < |y| && Edges[k].rate in p
    {
      if k < 4 {
        if k == 0 {} else if k == 1 {} else if k == 2 {} else {}
      } else {
        if k == 4 {} else if k == 5 {} else if k == 6 {} else {}
      }
    }
  }

  /** The flow of each edge is the matching entry of TransitionFlows. */
  lemma {:induction false} EdgeFlows(y: seq<real>, p: Params)
    requires |y| == |Names| && Sum(y) != 0.0 && HasParams(p)
    ensures Admissible(Edges, 3, y, p)
    ensures forall k :: 0 <= k < |Edges| ==> FlowOf(Edges[k], 3, y, p) == TransitionFlows(y, Rates(p))[k]
  {
    Admits(y, p);
    RatesAt(p);
    var x := TransitionFlows(y, Rates(p));
    forall k | 0 <= k < |Edges|
      ensures FlowOf(Edges[k], 3, y, p) == x[k]
    {
      if k < 4 {
        if k == 0 {} else if k == 1 {} else if k == 2 {} else {}
      } else {
        if k == 4 {} else if k == 5 {} else if k == 6 {} else {}
      }
    }
  }

  /** The balance of the last four edges: the exits from F and the waning loop. */
  lemma {:induction false} BalanceFrom4(y: seq<real>, p: Params)
    requires |y| == |Names| && Sum(y) != 0.0 && HasParams(p)
    ensures Admissible(Edges, 3, y, p)
    ensures var x := TransitionFlows(y, Rates(p));
            BalanceFrom(Edges, 3, 4, y, p) == [x[7], 0.0, x[6] - x[7], 0.0, x[4] - x[6], -x[5] - x[4], x[5]]
  {
    var x := TransitionFlows(y, Rates(p));
    EdgeFlows(y, p);
    assert BalanceFrom(Edges, 3, 8, y, p) == [0.0, 0.0, 0.0, 0.0, 0.0, 0.0, 0.0];
    assert BalanceFrom(Edges, 3, 7, y, p) == [x[7], 0.0, -x[7], 0.0, 0.0, 0.0, 0.0];
    assert BalanceFrom(Edges, 3, 6, y, p) == [x[7], 0.0, x[6] - x[7], 0.0, -x[6], 0.0, 0.0];
    assert BalanceFrom(Edges, 3, 5, y, p) == [x[7], 0.0, x[6] - x[7], 0.0, -x[6], -x[5], x[5]];
  }

  /** Adding the exits from I. */
  lemma {:induction false} BalanceFrom2(y: seq<real>, p: Params)
    requires |y| == |Names| && Sum(y) != 0.0 && HasParams(p)
    ensures Admissible(Edges, 3, y, p)
    ensures var x := TransitionFlows(y, Rates(p));
            BalanceFrom(Edges, 3, 2, y, p) == [x[7], 0.0, x[6] - x[7], -x[3] - x[2], x[2] + x[4] - x[6], x[3] - x[5] - x[4], x[5]]
  {
    var x := TransitionFlows(y, Rates(p));
    BalanceFrom4(y, p);
    EdgeFlows(y, p);
    assert BalanceFrom(Edges, 3, 3, y, p) == [x[7], 0.0, x[6] - x[7], -x[3], x[4] - x[6], x[3] - x[5] - x[4], x[5]];
  }

  lemma {:induction false} EdgeBalanceValue(y: seq<real>, p: Params)
    requires |y| == |Names| && Sum(y) != 0.0 && HasParams(p)
    ensures Admissible(Edges, 3, y, p)
    ensures EdgeBalance(Edges, 3, y, p) == Signed(TransitionFlows(y, Rates(p)))
  {
    BalanceFrom1(y, p);
    EdgeFlows(y, p);
  }

  /** Adding the onset of infectiousness. */
  lemma {:induction false} BalanceFrom1(y: seq<real>, p: Params)
    requires |y| == |Names| && Sum(y) != 0.0 && HasParams(p)
    ensures Admissible(Edges, 3, y, p)
    ensures var x := TransitionFlows(y, Rates(p));
            BalanceFrom(Edges, 3, 1, y, p) == [x[7], -x[1], x[6] - x[7], x[1] - x[3] - x[2], x[2] + x[4] - x[6], x[3] - x[5] - x[4], x[5]]
  {
    BalanceFrom2(y, p);
    EdgeFlows(y, p);
  }

  lemma {:induction false} BalanceValue(y: seq<real>, p: Params)
    requires |y| == |Names| && Sum(y) != 0.0 && HasParams(p)
    ensures Describes(Names, Transitions(), y, p)
    ensures Balance(Names, Transitions(), y, p) == Signed(TransitionFlows(y, Rates(p)))
  {
    Resolved();
    EdgeBalanceValue(y, p);
    BalanceOfResolved(Names, Transitions(), Edges, 3, y, p);
  }

  /** The derivative in terms of the flows, for the lemmas below. */
  lemma {:induction false} DerivValue(t: real, y: seq<real>, p: Params)
    requires Deriv(t, y, p).Ok?
    ensures Deriv(t, y, p).value == Signed(TransitionFlows(y, Rates(p)))
  {
    FetchRates(p);
    FieldIsSigned(y, Rates(p));
  }

  /** Susceptibles are not monotone here: S grows exactly when the return flow
      rho*W from W exceeds the infection flow. */
  lemma {:induction false} SusceptibleGrowth(t: real, y: seq<real>, p: Params)
    requires Deriv(t, y, p).Ok?
    ensures Deriv(t, y, p).value[0] > 0.0 <==> p["rho"] * y[2] > Incidence(p["beta"], y[0], y[3], Sum(y))
  {
    DerivValue(t, y, p);
    SignedGrowth(y, p, Deriv(t, y, p).value);
  }

  lemma {:induction false} SignedGrowth(y: seq<real>, p: Params, d: seq<real>)
    requires |y| == |Names| && Sum(y) != 0.0 && HasParams(p)
    requires d == Signed(TransitionFlows(y, Rates(p)))
    ensures d[0] > 0.0 <==> p["rho"] * y[2] > Incidence(p["beta"], y[0], y[3], Sum(y))
  {
    RatesAt(p);
  }

  /** Without infectious mass, S grows as soon as W holds mass that returns
      at a positive rate rho. */
  lemma {:induction false} GrowsWithoutInfection(t: real, y: seq<real>, p: Params)
    requires Deriv(t, y, p).Ok?
    requires y[3] == 0.0 && y[2] > 0.0 && p["rho"] > 0.0
    ensures Deriv(t, y, p).value[0] > 0.0
  {
    SusceptibleGrowth(t, y, p);
  }

  /** Half the population susceptible, half waning, nobody infectious. */
  const GrowthState: seq<real> := [0.5, 0.0, 0.5, 0.0, 0.0, 0.0, 0.0]

  lemma {:induction false} GrowthStateValid()
    ensures |GrowthState| == |Names| && GrowthState[2] == 0.5 && GrowthState[3] == 0.0
    ensures forall i :: 0 <= i < |GrowthState| ==> GrowthState[i] >= 0.0
    ensures Sum(GrowthState) == 1.0
  {
    var y := GrowthState;
    forall i | 0 <= i < |y|
      ensures y[i] >= 0.0
    {
      if i == 0 {} else if i == 1 {} else if i == 2 {} else if i == 3 {} else if i == 4 {} else if i == 5 {} else {}
    }
    SumOf7(y);
  }

  /** Under the default parameters S grows on any such state. */
  lemma {:induction false} GrowsUnderDefaults(y: seq<real>)
    requires |y| == |Names| && y[2] == 0.5 && y[3] == 0.0 && Sum(y) == 1.0
    ensures Deriv(0.0, y, DefaultParams()).Ok? && Deriv(0.0, y, DefaultParams()).value[0] > 0.0
  {
    var p := DefaultParams();
    assert "rho" in p;
    GrowsWithoutInfection(0.0, y, p);
  }

  /** Some nonnegative state with a positive total makes S grow under the
      default parameters. */
  lemma {:induction false} SusceptiblesCanGrow()
    ensures exists y: seq<real> ::
      && |y| == |Names| && (forall i :: 0 <= i < |y| ==> y[i] >= 0.0) && Sum(y) > 0.0
      && Deriv(0.0, y, DefaultParams()).Ok? && Deriv(0.0, y, DefaultParams()).value[0] > 0.0
  {
    GrowthStateValid();
    GrowsUnderDefaults(GrowthState);
  }

  /** Deaths only accumulate: dD/dt = mu*F >= 0. */
  lemma {:induction false} DeathsAccumulate(t: real, y: seq<real>, p: Params)
    requires Deriv(t, y, p).Ok?
    requires p["mu"] >= 0.0 && y[5] >= 0.0
    ensures Deriv(t, y, p).value[6] == p["mu"] * y[5] >= 0.0
  {
    DerivValue(t, y, p);
    SignedDeaths(y, p, Deriv(t, y, p).value);
  }

  lemma {:induction false} SignedDeaths(y: seq<real>, p: Params, d: seq<real>)
    requires |y| == |Names| && Sum(y) != 0.0 && HasParams(p)
    requires d == Signed(TransitionFlows(y, Rates(p)))
    requires p["mu"] >= 0.0 && y[5] >= 0.0
    ensures d[6] == p["mu"] * y[5] >= 0.0
  {
    RatesAt(p);
  }

  /** R0 for beta = 0.6 and gamma_i = alpha = 0.1 is 3. */
  lemma {:induction false} R0Example()
    ensures R0(map["beta" := 0.6, "sigma" := 0.2, "gamma_i" := 0.1, "alpha" := 0.1, "gamma_f" := 0.1,
                   "mu" := 0.1, "omega" := 0.01, "rho" := 0.1]) == Ok(3.0)
  {
    var p := map["beta" := 0.6, "sigma" := 0.2, "gamma_i" := 0.1, "alpha" := 0.1, "gamma_f" := 0.1,
                 "mu" := 0.1, "omega" := 0.01, "rho" := 0.1];
    assert p["beta"] == 0.6 && p["gamma_i"] == 0.1 && p["alpha"] == 0.1;
  }
}
