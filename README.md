# Compartmental epidemic models: a verified model in Dafny

This project models the core of a small epidemic simulation lab. The lab has four
compartmental ODE models:

- SIR: Susceptible, Infectious, Recovered.
- SIR-D: adds Deceased.
- SIR-F: adds a severe compartment F with deaths D.
- SEWIR-F: adds Exposed, Waning immunity and the loop R -> W -> S.

The project also models the set-up the ODE solver does around its integrator and the
arithmetic of the dashboard that shows a run.

Each model fixes the following:

- an ordered list of compartments, which also fixes the state-vector order;
- default parameters and default initial conditions, as string-keyed mappings;
- a list of transitions, each a (source, target, rate parameter) triple;
- a closed-form R0;
- a derivative function.

The models are a closed datatype `Contract.Model` that dispatches to one module per
variant: `Sir`, `Sird`, and `Sirf` and `Sewirf` in `extensions.dfy`.

Module `Flows` gives a transition list its meaning:

- every transition moves `rate * source` per unit time;
- the infection transition, governed by `beta`, moves `beta * S * I / N`, where N is
  the live total of the state;
- `Balance` adds these flows up per compartment.

Each variant's derivative is proved equal to the `Balance` of its own transition list,
and population conservation follows from that. The sign facts are proved from each
variant's closed-form derivative, and each R0 formula is proved on its own.

Python's failure modes are values of `Builtins.Result`:

- a missing dictionary key (`KeyError`);
- a state vector of the wrong length (tuple unpacking, `UnpackError`);
- a float division by zero in R0 (`ZeroDivision`);
- `list.index` of an absent name (`NotInList`);
- `argmax` of an empty column (`EmptyArgmax`);
- a negative sample count in `linspace` (`NegativeSampleCount`).

The derivative divides by N on numpy floats. With N = 0 it gives inf or nan rather than
raising. Such a value is not a real number, so the model reports it as `NonFinite`.

The solver builds the following:

- the time grid `linspace(0, t_max, steps)`;
- the initial state, read from the initial-condition mapping in compartment order;
- the callback handed to the integrator, which is the derivative with its first two
  arguments swapped.

The integrator (`odeint`) is a function parameter. Its only assumed promise is the
shape of its output: one row per time point and one column per state entry.

The dashboard computes:

- the first index of the peak of the I column, with the day and value at that index;
- the series Rt = R0 * S, and its last value;
- the slider ranges;
- the warning raised when the initial conditions do not sum to about 1.

The sidebar is a method with loops. Its widgets are function parameters.

Failures are Python's own exceptions. A missing parameter is a `KeyError` naming the
first missing key in the order the code reads the keys, and a wrong-length state is a
tuple-unpacking failure.

`Contract.Conservation` holds wherever N != 0.

The docstring example in base.py uses `beta` 0.3, while SIR's default is 0.5
(`Contract.DocumentedDefaults`).

## Model

| member | source | states |
|---|---|---|
| Builtins.Get | src/models/sir.py:51-52 | `params[key]` yields the value exactly when the key is present, else a KeyError naming that key |
| Builtins.Fetch | src/models/extensions.py:173-180 | reading keys in order succeeds iff all are present, yields their values in that order, and otherwise fails with a KeyError for the first missing key |
| Builtins.FetchIgnores | src/solvers/ode_solver.py:35 | an entry under a key that is not read never changes the outcome |
| Builtins.IndexOf | src/ui/layout.py:75 | `names.index(c)` is the first position of c, and fails exactly when c is absent |
| Builtins.Sum | src/ui/layout.py:37 | `sum(...)` of nonnegative numbers is nonnegative |
| Builtins.ValuesIn | src/ui/layout.py:37 | `d.values()` lists the value of each key, in key order |
| Builtins.EntryBelowSum | src/ui/layout.py:33 | an entry of a list of nonnegative numbers is at most their total, so a proportion of a whole is at most 1 |
| Flows.IncidenceNonnegative | src/models/sir.py:58 | with nonnegative beta, S and I and a positive N, the force of infection beta*S*I/N is nonnegative |
| Flows.Resolve | src/models/base.py:77-83 | a transition list whose endpoints are compartments resolves to edges of the same length, with the same rates, whose positions name the same compartments |
| Flows.ResolveByIndex | src/models/base.py:77-83 | over distinct compartment names, edges matching the transitions one by one are their resolution |
| Flows.BalanceConserves | src/models/base.py:77-83 | the derivative that any transition list describes has components summing to 0 |
| Flows.EdgeBalanceConserves | src/models/base.py:77-83 | the balance of any edge list sums to 0 |
| Flows.BalanceFromConserves | src/models/base.py:77-83 | each suffix of the edge list sums to 0, proved by induction over the edges |
| Flows.MoveConserves | src/models/base.py:77-83 | moving mass from one compartment to another keeps the total |
| Flows.BalanceUntouched | src/models/base.py:77-83 | a compartment that no transition names has rate of change 0 |
| Flows.BalanceFromUntouched | src/models/base.py:77-83 | the same for every suffix of an edge list, by induction |
| Sir.DefaultParams | src/models/sir.py:24-28 | the defaults are exactly beta and gamma, all positive |
| Sir.DefaultInitialConditions | src/models/sir.py:39-44 | keyed exactly by S, I, R, nonnegative, summing to 1 |
| Sir.R0 | src/models/sir.py:36-37 | KeyError on missing beta, then on missing gamma; ZeroDivision when gamma = 0; otherwise R0 * gamma = beta |
| Sir.R0Example | tests/test_metrics.py:7-11 | beta 0.5 and gamma 0.1 give R0 = 5 |
| Sir.Deriv | src/models/sir.py:46-62 | wrong state length gives an unpacking error; then a missing rate gives its KeyError; it is defined iff the state has 3 entries, both rates are present and N != 0; one entry per compartment |
| Sir.FetchRates | src/models/sir.py:51-52 | with both rates present, reading them in order yields (beta, gamma) |
| Sir.MissingGamma | src/models/sir.py:52 | a mapping without gamma makes the derivative fail with KeyError("gamma") |
| Sir.IgnoresOtherKeys | src/models/sir.py:51-52 | keys other than beta and gamma change neither R0 nor the derivative |
| Sir.FieldIsSigned | src/models/sir.py:58-60 | dS, dI, dR are the inflows minus outflows of the flows beta*S*I/N and gamma*I |
| Sir.FlowBalance | src/models/sir.py:58-68 | the derivative equals the balance of the transition list S->I (beta), I->R (gamma) |
| Sir.BalanceValue | src/models/sir.py:64-68 | the balance of the SIR transitions is the signed sum of the two flows |
| Sir.DerivValue | src/models/sir.py:58-60 | the derivative is the signed sum of the two flows |
| Sir.NamesDistinct | src/models/sir.py:21-22 | no compartment name repeats |
| Sir.Resolved | src/models/sir.py:64-68 | the transitions resolve to edges 0->1 and 1->2, with I at position 1 |
| Sir.Transitions | src/models/sir.py:64-68 | every transition joins two different compartments and is governed by one of the parameters the derivative reads |
| Sir.TransitionsWellFormed | src/models/sir.py:64-68 | every endpoint is a compartment and every rate is a default parameter |
| Sir.Signs | src/models/sir.py:58-60 | for nonnegative rates and state and N > 0: dS <= 0, dR = gamma*I >= 0, and the derivative is 0 when I = 0 |
| Sird.DefaultParams | src/models/sird.py:24-29 | the defaults are exactly beta, gamma and mu, all positive |
| Sird.DefaultInitialConditions | src/models/sird.py:42-48 | keyed exactly by S, I, R, D, nonnegative, summing to 1 |
| Sird.R0 | src/models/sird.py:38-40 | KeyErrors in reading order; ZeroDivision when gamma + mu = 0; otherwise R0 * (gamma + mu) = beta |
| Sird.R0Example | tests/test_metrics.py:13-17 | beta 0.5, gamma 0.1 and mu 0.1 give R0 = 2.5 |
| Sird.Deriv | src/models/sird.py:50-63 | defined iff the state has 4 entries, beta, gamma and mu are present and N != 0; otherwise the unpacking error or the first KeyError |
| Sird.IgnoresOtherKeys | src/models/sird.py:52-54 | keys other than beta, gamma and mu change neither R0 nor the derivative |
| Sird.FieldIsSigned | src/models/sird.py:58-61 | the derivative is the signed sum of beta*S*I/N, gamma*I and mu*I |
| Sird.FlowBalance | src/models/sird.py:58-70 | the derivative equals the balance of the three listed transitions |
| Sird.NamesDistinct | src/models/sird.py:21-22 | no compartment name repeats |
| Sird.Resolved | src/models/sird.py:65-70 | the transitions resolve to edges 0->1, 1->2 and 1->3 |
| Sird.Transitions | src/models/sird.py:65-70 | every transition joins two different compartments and is governed by one of the parameters the derivative reads |
| Sird.TransitionsWellFormed | src/models/sird.py:65-70 | every endpoint is a compartment and every rate is a default parameter |
| Sird.Signs | src/models/sird.py:58-61 | dS <= 0, dR = gamma*I >= 0 and dD = mu*I >= 0 for nonnegative rates and state |
| Sird.NoMortalityIsSir | src/models/sird.py:58-61 | with mu = 0, the derivative is SIR's derivative on (S, I, R + D) followed by dD = 0 |
| Sirf.DefaultParams | src/models/extensions.py:41-48 | the defaults are exactly beta, gamma_i, alpha, gamma_f and mu, all positive |
| Sirf.DefaultInitialConditions | src/models/extensions.py:64-71 | keyed exactly by S, I, R, F, D, nonnegative, summing to 1 |
| Sirf.R0 | src/models/extensions.py:59-62 | KeyErrors in reading order; ZeroDivision when gamma_i + alpha = 0; otherwise R0 * (gamma_i + alpha) = beta |
| Sirf.R0IgnoresSevereRates | src/models/extensions.py:59-62 | R0 does not depend on gamma_f or mu, whether they are changed or removed |
| Sirf.R0Example | tests/test_metrics.py:19-24 | beta 0.4, gamma_i 0.1 and alpha 0.1 give R0 = 2 |
| Sirf.Deriv | src/models/extensions.py:73-89 | defined iff the state has 5 entries, all five rates are present and N != 0 |
| Sirf.IgnoresOtherKeys | src/models/extensions.py:75-79 | keys other than the five rates change neither R0 nor the derivative |
| Sirf.FieldIsSigned | src/models/extensions.py:83-87 | the derivative is the signed sum of the five flows |
| Sirf.FlowBalance | src/models/extensions.py:83-98 | the derivative equals the balance of the five listed transitions; F gains alpha*I and loses gamma_f*F + mu*F |
| Sirf.NamesDistinct | src/models/extensions.py:38-39 | no compartment name repeats |
| Sirf.Resolved | src/models/extensions.py:91-98 | the transitions resolve to their five edges, with I at position 1 |
| Sirf.Transitions | src/models/extensions.py:91-98 | every transition joins two different compartments and is governed by one of the parameters the derivative reads |
| Sirf.TransitionsWellFormed | src/models/extensions.py:91-98 | every endpoint is a compartment and every rate is a default parameter |
| Sirf.Signs | src/models/extensions.py:83-87 | dS <= 0 and dD = mu*F >= 0; with no infectious mass, S and I do not change |
| Sewirf.DefaultParams | src/models/extensions.py:128-139 | the defaults are exactly the eight rates, all positive |
| Sewirf.DefaultInitialConditions | src/models/extensions.py:160-169 | every compartment is a key, the values are nonnegative, and they sum to 1 |
| Sewirf.InitialConditionsKeys | src/models/extensions.py:160-169 | the keys are exactly the seven compartments |
| Sewirf.R0 | src/models/extensions.py:153-158 | KeyErrors in reading order; ZeroDivision when gamma_i + alpha = 0; otherwise R0 * (gamma_i + alpha) = beta |
| Sewirf.R0Example | tests/test_metrics.py:26-31 | beta 0.6, gamma_i 0.1 and alpha 0.1 give R0 = 3 |
| Sewirf.Deriv | src/models/extensions.py:171-195 | defined iff the state has 7 entries, all eight rates are present and N != 0 |
| Sewirf.IgnoresOtherKeys | src/models/extensions.py:173-180 | keys other than the eight rates change neither R0 nor the derivative |
| Sewirf.FieldIsSigned | src/models/extensions.py:187-193 | the derivative is the signed sum of the eight flows |
| Sewirf.FlowBalance | src/models/extensions.py:187-207 | the derivative equals the balance of the eight listed transitions, with infection S->E and the loop R->W->S |
| Sewirf.NamesDistinct | src/models/extensions.py:125-126 | no compartment name repeats |
| Sewirf.Resolved | src/models/extensions.py:197-207 | the transitions resolve to their eight edges, with I at position 3 |
| Sewirf.Transitions | src/models/extensions.py:197-207 | every transition joins two different compartments and is governed by one of the parameters the derivative reads |
| Sewirf.TransitionsWellFormed | src/models/extensions.py:197-207 | every endpoint is a compartment and every rate is a default parameter |
| Sewirf.SusceptibleGrowth | src/models/extensions.py:187 | dS > 0 exactly when rho*W exceeds beta*S*I/N |
| Sewirf.GrowsWithoutInfection | src/models/extensions.py:187 | with I = 0, W > 0 and rho > 0, S grows |
| Sewirf.SusceptiblesCanGrow | src/models/extensions.py:187 | some nonnegative state with a positive total makes S grow under the default parameters |
| Sewirf.DeathsAccumulate | src/models/extensions.py:193 | dD = mu*F >= 0 |
| Contract.Names | src/models/base.py:23-29 | distinct names, at least three, with S first and I present |
| Contract.DefaultParams | src/models/base.py:31-37 | beta is a default and every default rate is positive |
| Contract.ParamNames | src/models/base.py:31-37 | the parameter order lists exactly the default keys |
| Contract.DefaultInitialConditions | src/models/base.py:54-60 | every compartment has a nonnegative value, and the values sum to 1 |
| Contract.InitialConditionsKeys | src/models/base.py:54-60 | the default initial conditions are keyed exactly by the compartment names |
| Contract.Transitions | src/models/base.py:77-83 | every transition joins two compartments and names a default parameter |
| Contract.R0 | src/models/base.py:47-52 | a missing beta is the first failure; when defined, R0 = 0 exactly when beta = 0 |
| Contract.Deriv | src/models/base.py:62-75 | defined iff the state has one entry per compartment, N != 0 and every default parameter is given; a wrong length is an unpacking error; one entry per compartment |
| Contract.MissingParameter | src/models/base.py:62-75 | a mapping that lacks a default parameter makes the derivative fail with a KeyError naming one of the missing defaults |
| Contract.IgnoresOtherKeys | src/models/base.py:47-52 | a key outside the defaults changes neither R0 nor the derivative: both depend on the parameter mapping alone |
| Contract.Autonomous | src/models/base.py:62-75 | the derivative does not depend on t |
| Contract.FlowBalance | src/models/base.py:77-83 | in every model the derivative is the balance of its own transition list |
| Contract.Conservation | src/models/base.py:62-75 | in every model the derivative sums to 0 wherever it is defined |
| Contract.SusceptiblesMonotone | src/models/extensions.py:187 | S never grows on nonnegative inputs exactly in the models other than SEWIR-F |
| Contract.SusceptiblesLeave | src/models/sir.py:58 | in SIR, SIR-D and SIR-F, dS <= 0 on nonnegative inputs |
| Contract.SusceptiblesCanGrow | src/models/extensions.py:187 | in SEWIR-F, S can grow on nonnegative inputs |
| Contract.DeathsAccumulate | src/models/extensions.py:193 | in every model with D, D is the last compartment and dD >= 0 on nonnegative inputs |
| Contract.NamedColumns | src/ui/layout.py:75-82 | S is column 0 in every model; I is column 1, or column 3 in SEWIR-F |
| Contract.DocumentedExamplesAreSir | src/models/base.py:82 | the documented names and transitions are SIR's and no other model's |
| Contract.DocumentedDefaults | src/models/base.py:35-58 | the documented initial conditions are SIR's; the documented parameters have SIR's keys but a different beta |
| Solver.Linspace | src/solvers/ode_solver.py:31 | num points; fails iff num < 0; starts at 0; for num >= 2 ends at stop with equal steps stop/(num-1) |
| Solver.GridStep | src/solvers/ode_solver.py:31 | consecutive grid points k and k+1 differ by one step |
| Solver.InitialState | src/solvers/ode_solver.py:34-35 | y0[i] is the value of the i-th compartment; fails iff a compartment is missing, with a KeyError for the first missing one |
| Solver.InitialStateIgnoresExtraKeys | src/solvers/ode_solver.py:35 | a key that names no compartment is ignored |
| Solver.InitialStateByCompartment | src/solvers/ode_solver.py:34-35 | two mappings that agree on the compartments give the same y0 or the same failure |
| Solver.Wrapper | src/solvers/ode_solver.py:40-41 | the callback at (y, t, p) is the model's derivative at (t, y, p), so it is defined exactly where the derivative is, and then keeps the state's length and conserves the total |
| Solver.ODESolver.Solve | src/solvers/ode_solver.py:15-46 | fails on a negative step count, then on a missing initial value; otherwise returns the grid and the integrator's output for the callback, the initial state, that grid and the parameters, of shape (steps, N) |
| Solver.DefaultGrid | src/solvers/ode_solver.py:15 | by default there are 100 rows, from time 0 to t_max |
| Solver.SirdDimensions | tests/test_models.py:22-29 | SIR-D with its defaults and 50 steps gives a (50, 4) solution |
| Dashboard.ArgMax | src/ui/layout.py:75 | fails iff the column is empty; otherwise the first index of the maximum |
| Dashboard.ArgMaxOf | src/ui/layout.py:75 | the running best over a prefix is its first maximum, proved from the recursive call's contract |
| Dashboard.FirstMaxUnique | src/ui/layout.py:75 | the first index of the maximum is unique |
| Dashboard.Column | src/ui/layout.py:75-77 | `solution[:, c]` has one entry per row, the c-th entry of that row |
| Dashboard.ComputeMetrics | src/ui/layout.py:74-87 | I then S are looked up by name; the peak is the first maximum of the I column, with the day t[idx] and the value solution[idx][I]; rt[k] = r0 * S[k]; "Rt @ End" is the last entry; the failure cases in source order |
| Dashboard.PeakBoundsColumn | src/ui/layout.py:77 | the peak value is at least every sample of I |
| Dashboard.DashboardMetrics | src/ui/layout.py:74-87 | R0 fails first; otherwise the metrics are defined iff there is at least one sample, with S at column 0 |
| Dashboard.SolvedMetrics | src/ui/layout.py:54-77 | with every default rate given, R0 defined and every compartment given an initial value, the callback odeint calls is defined on every full-length state with a nonzero total, the default solve succeeds and the metrics are defined |
| Dashboard.IsClose | src/ui/layout.py:38 | `np.isclose(a, b)` with numpy's default tolerances, abs(a - b) <= 1e-08 + 1e-05 * abs(b); every value is close to itself, and against b = 0 only the absolute tolerance applies |
| Dashboard.IsCloseToOne | src/ui/layout.py:38 | `isclose(total, 1.0)` holds iff the total lies within 1.001e-5 of 1 |
| Dashboard.SliderMax | src/ui/layout.py:24 | the slider's upper end is max(1, 2 * default): at least 1 and at least twice the default, and equal to one of them |
| Dashboard.SliderStep | src/ui/layout.py:25 | the step is 0.001 exactly when the default is below 0.1, and 0.01 exactly when it is at least 0.1 |
| Dashboard.DefaultsFitSliders | src/ui/layout.py:24-27 | every default parameter lies within its slider's range |
| Dashboard.DefaultsFitInputs | src/ui/layout.py:33 | every default initial condition lies within [0, 1] |
| Dashboard.ReadParams | src/ui/layout.py:21-27 | one slider per default key; the result has exactly those keys; left untouched, it gives the defaults |
| Dashboard.ReadInitialConditions | src/ui/layout.py:31-33 | one number input per compartment key; left untouched, it gives the defaults |
| Dashboard.Total | src/ui/layout.py:37 | the loop's total is the sum of the values |
| Dashboard.RenderSidebar | src/ui/layout.py:8-41 | returns what the widgets gave; warns iff the total is not close to 1, and never corrects the values; left untouched, it returns the defaults with no warning |

## Left out

- `scipy.integrate.odeint` is a foreign, adaptive floating-point integrator. It is a
  function parameter whose only assumed property is the shape of its output. Trajectory
  conservation under integration is a numerical fact about it. Only the
  derivative-sums-to-zero law that underlies it is proved.
- Solver.ODESolver.Solve: does not model an exception raised inside the callback during
  integration, because the integrator, which would propagate it, is abstract.
- Floating point in general. All arithmetic is on exact reals, so rounding,
  `assertAlmostEqual` and overflow do not arise. The one tolerance the code uses,
  `np.isclose`, is written out with its default tolerances.
- Sir.Deriv: a zero total N gives `NonFinite` instead of numpy's inf/nan array with a
  runtime warning, because reals cannot carry inf or nan. The same holds for every
  variant's Deriv.
- Streamlit rendering in src/ui/layout.py: titles, markdown, columns, charts, metric
  formatting and the raw-data expander. The widgets themselves are function
  parameters, so a widget's own clamping to its range is not modelled.
- The `name` and `description` properties and `get_parameter_descriptions`. They are
  documentation strings, and the tooltips they feed (layout.py line 26) are
  presentation only.
- src/visualization/charts.py and src/visualization/dag.py are not part of this model
  (Plotly and Graphviz rendering).
- The particle simulation game in src/simulation_game/ is not part of this model. It is
  random-driven and event-loop based, and independent of the ODE models.
- src/scenarios/data.py is not part of this model. It is a static table of constants.
- main.py (model selection in the UI) is not part of this model.
- Solver.Linspace: `t_max` is converted to a real exactly. numpy's float grid can differ
  from k*t_max/(steps-1) in the last bits, and the model does not capture that.
