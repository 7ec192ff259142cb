/** What a transition list means as mass-action flows.

    A transition (source, target, rate) moves mass out of `source` into `target`
    at the rate `rate * source`, except the infection edge, the one governed by
    `beta`, which moves `beta * source * I / N` with N the live total of the state.
    Balance adds these flows up per compartment: this is the derivative that a
    model's transition list promises, and it is the reference each variant's
    derivative is proved equal to. The transitions name their compartments;
    Resolve turns the names into positions in the state vector first. */
module Flows {
  import opened Builtins

  /** (source compartment, target compartment, rate parameter name). */
  datatype Transition = Transition(source: string, target: string, rate: string)

  /** A transition with its compartments resolved to state-vector positions. */
  datatype Edge = Edge(source: nat, target: nat, rate: string)

  /** The parameter that governs the infection edge. */
  const InfectionRate: string := "beta"

  /** The compartment whose size drives the force of infection. */
  const Infectious: string := "I"

  /** The force-of-infection term beta * S * I / N: the mass that moves out of
      the susceptible compartment per unit time, with N the live total. */
  function Incidence(beta: real, s: real, i: real, n: real): real
    requires n != 0.0
  {
    beta * s * i / n
  }

  /** With a nonnegative rate, susceptible and infectious mass and a positive
      total, infection only ever removes susceptibles. */
  lemma {:induction false} IncidenceNonnegative(beta: real, s: real, i: real, n: real)
    requires beta >= 0.0 && s >= 0.0 && i >= 0.0 && n > 0.0
    ensures Incidence(beta, s, i, n) >= 0.0
  {
    assert beta * s >= 0.0;
    assert beta * s * i >= 0.0;
  }

  /** Every endpoint of `ts`, and the infectious compartment, is a compartment. */
  predicate Resolvable(names: seq<string>, ts: seq<Transition>) {
    && Infectious in names
    && forall k :: 0 <= k < |ts| ==> ts[k].source in names && ts[k].target in names
  }

  /** The transitions with their endpoints replaced by positions in `names`. */
  function Resolve(names: seq<string>, ts: seq<Transition>): (es: seq<Edge>)
    requires Resolvable(names, ts)
    ensures |es| == |ts|
    ensures forall k :: 0 <= k < |ts| ==> es[k].rate == ts[k].rate
    ensures forall k :: 0 <= k < |ts| ==> es[k].source < |names| && names[es[k].source] == ts[k].source
    ensures forall k :: 0 <= k < |ts| ==> es[k].target < |names| && names[es[k].target] == ts[k].target
  {
    seq(|ts|, k requires 0 <= k < |ts| => Edge(Position(names, ts[k].source), Position(names, ts[k].target), ts[k].rate))
  }

  /** Edge `e` is transition `t` with its endpoints at their positions in `names`. */
  predicate Matches(names: seq<string>, t: Transition, e: Edge) {
    && e.source < |names| && names[e.source] == t.source
    && e.target < |names| && names[e.target] == t.target
    && e.rate == t.rate
  }

  /** Over distinct names, edges that match the transitions one by one are
      their resolution. */
  lemma {:induction false} ResolveByIndex(names: seq<string>, ts: seq<Transition>, es: seq<Edge>)
    requires Distinct(names) && Infectious in names && |es| == |ts|
    requires forall k :: 0 <= k < |ts| ==> Matches(names, ts[k], es[k])
    ensures Resolvable(names, ts) && Resolve(names, ts) == es
  {
    assert Resolvable(names, ts);
    var rs := Resolve(names, ts);
    forall k | 0 <= k < |ts|
      ensures rs[k] == es[k]
    {
      assert names[rs[k].source] == names[es[k].source];
      assert names[rs[k].target] == names[es[k].target];
    }
  }

  /** Every flow of the edges `es` can be evaluated on state `y` with parameters
      `p`, the infectious compartment sitting at position `inf`. */
  predicate Admissible(es: seq<Edge>, inf: nat, y: seq<real>, p: Params) {
    && inf < |y|
    && Sum(y) != 0.0
    && forall k :: 0 <= k < |es| ==> es[k].source < |y| && es[k].target < |y| && es[k].rate in p
  }

  /** The mass per unit time carried by one edge. */
  function FlowOf(e: Edge, inf: nat, y: seq<real>, p: Params): real
    requires e.source < |y| && inf < |y| && Sum(y) != 0.0 && e.rate in p
  {
    var mass := y[e.source];
    if e.rate == InfectionRate then Incidence(p[e.rate], mass, y[inf], Sum(y))
    else p[e.rate] * mass
  }

  /** Moves mass `f` per unit time from entry `i` to entry `j`. */
  function Move(d: seq<real>, i: nat, j: nat, f: real): (e: seq<real>)
    requires i < |d| && j < |d|
    ensures |e| == |d|
  {
    var e := d[i := d[i] - f];
    e[j := e[j] + f]
  }

  /** The derivative the edges describe: starting from zero, every edge takes
      its flow from its source and gives it to its target. */
  function EdgeBalance(es: seq<Edge>, inf: nat, y: seq<real>, p: Params): (d: seq<real>)
    requires Admissible(es, inf, y, p)
    ensures |d| == |y|
  {
    BalanceFrom(es, inf, 0, y, p)
  }

  /** The flows of the edges from index `k` on. */
  function BalanceFrom(es: seq<Edge>, inf: nat, k: nat, y: seq<real>, p: Params): (d: seq<real>)
    requires Admissible(es, inf, y, p) && k <= |es|
    ensures |d| == |y|
    decreases |es| - k
  {
    if k == |es| then seq(|y|, _ => 0.0)
    else Move(BalanceFrom(es, inf, k + 1, y, p), es[k].source, es[k].target, FlowOf(es[k], inf, y, p))
  }

  /** The transition list `ts` over compartments `names` can be evaluated on
      state `y` with parameters `p`. */
  predicate Describes(names: seq<string>, ts: seq<Transition>, y: seq<real>, p: Params) {
    && Resolvable(names, ts)
    && |y| == |names|
    && Sum(y) != 0.0
    && forall k :: 0 <= k < |ts| ==> ts[k].rate in p
  }

  /** The derivative the transition list `ts` over compartments `names` promises. */
  function Balance(names: seq<string>, ts: seq<Transition>, y: seq<real>, p: Params): (d: seq<real>)
    requires Describes(names, ts, y, p)
    ensures |d| == |names|
  {
    var es := Resolve(names, ts);
    EdgeBalance(es, Position(names, Infectious), y, p)
  }

  /** Once `ts` is known to resolve to `es`, its balance is that of `es`. */
  lemma {:induction false} BalanceOfResolved(names: seq<string>, ts: seq<Transition>, es: seq<Edge>, inf: nat, y: seq<real>, p: Params)
    requires Resolvable(names, ts) && Resolve(names, ts) == es && Position(names, Infectious) == inf
    requires |y| == |names| && Admissible(es, inf, y, p)
    ensures Describes(names, ts, y, p)
    ensures Balance(names, ts, y, p) == EdgeBalance(es, inf, y, p)
  {
    assert forall k :: 0 <= k < |ts| ==> ts[k].rate == es[k].rate;
  }

  /** Every edge is an internal transfer, so the flows of any edge list
      cancel: the total population does not change. */
  lemma {:induction false} EdgeBalanceConserves(es: seq<Edge>, inf: nat, y: seq<real>, p: Params)
    requires Admissible(es, inf, y, p)
    ensures Sum(EdgeBalance(es, inf, y, p)) == 0.0
  {
    BalanceFromConserves(es, inf, 0, y, p);
  }

  lemma {:induction false} BalanceFromConserves(es: seq<Edge>, inf: nat, k: nat, y: seq<real>, p: Params)
    requires Admissible(es, inf, y, p) && k <= |es|
    ensures Sum(BalanceFrom(es, inf, k, y, p)) == 0.0
    decreases |es| - k
  {
    if k == |es| {
      SumZeros(|y|);
    } else {
      BalanceFromConserves(es, inf, k + 1, y, p);
      MoveConserves(BalanceFrom(es, inf, k + 1, y, p), es[k].source, es[k].target, FlowOf(es[k], inf, y, p));
    }
  }

  lemma {:induction false} MoveConserves(d: seq<real>, i: nat, j: nat, f: real)
    requires i < |d| && j < |d|
    ensures Sum(Move(d, i, j, f)) == Sum(d)
  {
    var e := d[i := d[i] - f];
    assert Move(d, i, j, f) == e[j := e[j] + f];
    SumUpdate(d, i, d[i] - f);
    SumUpdate(e, j, e[j] + f);
  }

  /** The derivative any transition list promises conserves the population. */
  lemma {:induction false} BalanceConserves(names: seq<string>, ts: seq<Transition>, y: seq<real>, p: Params)
    requires Describes(names, ts, y, p)
    ensures Sum(Balance(names, ts, y, p)) == 0.0
  {
    EdgeBalanceConserves(Resolve(names, ts), Position(names, Infectious), y, p);
  }

  /** A position that no edge touches has a zero rate of change: only the
      listed flows appear in the derivative. */
  lemma {:induction false} BalanceFromUntouched(es: seq<Edge>, inf: nat, k: nat, y: seq<real>, p: Params, c: nat)
    requires Admissible(es, inf, y, p) && c < |y| && k <= |es|
    requires forall m :: 0 <= m < |es| ==> es[m].source != c && es[m].target != c
    ensures BalanceFrom(es, inf, k, y, p)[c] == 0.0
    decreases |es| - k
  {
    if k < |es| {
      BalanceFromUntouched(es, inf, k + 1, y, p, c);
    }
  }

  /** A compartment that no transition names has a zero rate of change. */
  lemma {:induction false} BalanceUntouched(names: seq<string>, ts: seq<Transition>, y: seq<real>, p: Params, c: nat)
    requires Describes(names, ts, y, p) && c < |names|
    requires forall k :: 0 <= k < |ts| ==> ts[k].source != names[c] && ts[k].target != names[c]
    ensures Balance(names, ts, y, p)[c] == 0.0
  {
    var es := Resolve(names, ts);
    assert forall m :: 0 <= m < |es| ==> es[m].source != c && es[m].target != c;
    BalanceFromUntouched(es, Position(names, Infectious), 0, y, p, c);
  }
}
