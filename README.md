# H-cell electrolyzer and ORR catalyst simulator — Dafny model

This project models the calculation engine of a small simulator for a water electrolysis
cell (an "H-cell") and for oxygen-reduction (ORR) catalysts, and proves properties of that
model.

The cell side computes the voltage at a current density i as a sum of four terms:

- the ideal (Nernst) voltage;
- the Tafel activation losses of the anode and the cathode;
- the ohmic loss of membrane, contacts and electrolyte;
- the concentration loss near the limiting current.

Every temperature-dependent parameter (exchange currents, conductivity, limiting current) is
scaled with the Arrhenius law. A traced evaluator repeats the same computation and records
every equation it applies, with the values it substituted.

The catalyst side computes:

- free energies of the adsorbed intermediates O* and OH*, with the potential term and the
  computational-hydrogen-electrode pH term;
- the barriers of the dissociative and associative pathways;
- the O2 dissociation barrier;
- the dominant (lowest-barrier) pathway, and an activity A ∝ exp(−ΔG‡/kT).

Two thin facades bind a configuration or a catalyst. A table of defaults gives the 80 °C cell
and six metals. Three helpers of the web front end validate the current inputs, build
component ids and build a simulator for a chosen temperature and pH.

Modules (one file each): `Results` (errors as values), `Constants`, `Transcendental`,
`Models`, `Dicts` (insertion-ordered dictionaries), `Electrochemistry`, `Detail`, `Orr`,
`Simulation`, `Data`, `App`.

Modelling conventions:

- A Python exception is an `Err` of `Results.Result`. The error *kind* is modelled: a
  non-positive current, a non-positive exchange current (with the electrode's name, which the
  engine's message carries), a
  non-positive conductivity, the limiting current exceeded, an invalid temperature, a missing
  intermediate (with its name), a logarithm of a non-positive number, and a division by zero.
  The message text is not modelled.
- Python floats are Dafny `real`s. `math.exp`, `math.log` and `math.sqrt` are passed in as a
  `Transcendental.Funcs` value. Every property that depends on them assumes only the laws in
  `Funcs.Lawful`: exp is positive and increasing with exp 0 = 1; ln is increasing on the
  positives with ln 1 = 0; sqrt is positive and increasing with sqrt 1 = 1.
- Every engine function takes the constants table with the default `CONSTANTS`, as the source
  does. The table is a subset type whose entries are all positive.
- The dictionaries the traced evaluator builds are `seq<(string, real)>` in insertion order.
  `Dicts.Update` has the semantics of `dict.update`. The catalyst catalogue and the
  intermediate table are `map`s, since their order is never observed by the core.
- The pure modules are functions and lemmas. The traced evaluator is imperative, with
  methods for `evaluate_point`, `_activation_step`, `detailed_curve` and `table_row`.

## Model

| member | source | states |
|---|---|---|
| Constants.PhysicalConstants.JouleToEv | simulador/constants.py:20-26 | the eV-per-joule factor is the inverse of the joule-per-eV factor (the electron charge) and is positive |
| Constants.DefaultConstantsPositive | simulador/constants.py:14-29 | the single default table has all entries positive, and its two conversion factors multiply to 1 |
| Models.ThermoModel.StandardPotential | simulador/models.py:33-41 | fails with a division by zero exactly when n = 0; otherwise V°·nF = ΔH_ref − T·ΔS_ref |
| Models.StandardPotentialDecreasing | simulador/models.py:27-41 | with ΔS_ref > 0 and n > 0, V°(T) is strictly decreasing in T |
| Models.RecordDefaults | simulador/models.py:12-100 | unit pressures and water activity with pH 0; 2 electrons and T_ref 298.15 K for the thermodynamics and the kinetics; a catalyst starts with no intermediates and no associative coefficients |
| Electrochemistry.Arrhenius | simulador/electrochemistry.py:19-32 | without Ea the reference value is returned unchanged; it fails (division by zero) exactly when Ea is given and T or T_ref is 0 |
| Electrochemistry.ArrheniusKeepsSign | simulador/electrochemistry.py:28-32 | the scaled value has the same sign as the reference value (positive, negative or zero) |
| Electrochemistry.ArrheniusAtReference | simulador/electrochemistry.py:28-32 | at T = T_ref the scaled value equals the reference value |
| Electrochemistry.ArrheniusGrowsAboveReference | simulador/electrochemistry.py:30-32 | with Ea > 0 and T > T_ref > 0 a positive value grows strictly above its reference value |
| Electrochemistry.NernstPotential | simulador/electrochemistry.py:35-54 | n = 0 fails with a division by zero; otherwise it fails exactly when Q ≤ 0, with a log-domain error |
| Electrochemistry.NernstQuotientSign | simulador/electrochemistry.py:43-47 | Q = p_H2·sqrt(max(p_O2, 1e-12))/max(a_H2O, 1e-12) is positive exactly when p_H2 > 0 |
| Electrochemistry.NernstAtUnitActivities | simulador/electrochemistry.py:42-54 | with unit p_H2, p_O2 and a_H2O the ideal voltage equals the standard potential, including its failures |
| Electrochemistry.NernstOrderedByQuotient | simulador/electrochemistry.py:48-54 | at one positive T, a larger positive Q never gives a lower ideal voltage |
| Electrochemistry.NernstMonotone | simulador/electrochemistry.py:42-54 | raising p_H2 or p_O2, or lowering a_H2O, never lowers the ideal voltage |
| Electrochemistry.QuotientOrdered | simulador/electrochemistry.py:43-47 | the quotient is monotone in p_H2 and p_O2 and antitone in a_H2O, floors included |
| Electrochemistry.ActivationEta | simulador/electrochemistry.py:57-81 | checks i ≤ 0 first, then an Arrhenius failure, then i0 ≤ 0 (named after the electrode); Ok exactly when i > 0, i0 > 0 and α·n ≠ 0 |
| Electrochemistry.ActivationEtaIncreasing | simulador/electrochemistry.py:76-81 | with α·n > 0 and T > 0 the electrode loss is strictly increasing in i |
| Electrochemistry.ActivationEtaSign | simulador/electrochemistry.py:76-81 | with α·n > 0 and T > 0 the electrode loss is positive exactly when i > i0 |
| Electrochemistry.ActivationOverpotential | simulador/electrochemistry.py:84-95 | the sum of anode and cathode losses; the anode's error wins, then the cathode's |
| Electrochemistry.ActivationOverpotentialIncreasing | simulador/electrochemistry.py:84-95 | the total activation loss is strictly increasing in i |
| Electrochemistry.OhmicOverpotential | simulador/electrochemistry.py:98-120 | fails exactly when κ(T) is undefined or ≤ 0; the current may have any sign |
| Electrochemistry.OhmicLinear | simulador/electrochemistry.py:116-120 | whether it fails does not depend on i, and η(s·i + j) = s·η(i) + η(j) |
| Electrochemistry.ConcentrationOverpotential | simulador/electrochemistry.py:123-148 | i ≥ i_lim fails with the limiting-current error; Ok exactly when i < i_lim, i_lim > 0 and n ≠ 0 |
| Electrochemistry.ConcentrationPositive | simulador/electrochemistry.py:139-148 | for 0 < i < i_lim the concentration loss is defined and positive |
| Electrochemistry.ConcentrationIncreasing | simulador/electrochemistry.py:139-148 | below a positive i_lim the concentration loss is strictly increasing in i |
| Electrochemistry.CellVoltage | simulador/electrochemistry.py:151-179 | Ok exactly when all four terms are Ok, and then the voltage is their sum |
| Electrochemistry.CellVoltageFirstFailure | simulador/electrochemistry.py:158-178 | the error is the one of the first failing term, in the order Nernst, activation, ohmic, concentration |
| Electrochemistry.CellVoltageRejectsNonPositiveCurrent | simulador/electrochemistry.py:158-165 | i ≤ 0 always fails, with the non-positive-current error unless the Nernst term fails first |
| Electrochemistry.PolarizationCurve | simulador/electrochemistry.py:182-189 | Ok exactly when every point is Ok; then it has the same length and order, point k being V(i_k); otherwise the error is that of the first failing point |
| Results.MapAllSpec | simulador/electrochemistry.py:189 | a list comprehension over a fallible function: all-or-first-error, length and order kept |
| Dicts.GetUpdate | simulador/detail.py:46 | after `d.update(e)` a key of `e` has its value in `e`, and every other key keeps its value in `d` |
| Dicts.KeysUpdateFresh | simulador/detail.py:46 | updating with fresh keys appends them, in order, after the existing keys |
| Detail.EquationStep.ToDict | simulador/detail.py:23-29 | a four-entry dict: name, expression, values, result, in that order |
| Detail.PointDetail.TableRow | simulador/detail.py:41-47 | current and voltage first, overridden by any same-named contribution; with fresh contribution keys the row's keys are current, voltage, then the contributions in order |
| Detail.PointDetail.ToDict | simulador/detail.py:49-55 | a four-entry dict: current density, voltage, contributions and the step dicts |
| Detail.NumbersRoundTrip | simulador/detail.py:27 | reading back a dict of numbers gives the original entries |
| Detail.StepRoundTrip | simulador/detail.py:23-29 | reading back a step's dict gives the original step |
| Detail.StepsRoundTrip | simulador/detail.py:54 | reading back the list of step dicts gives the original steps |
| Detail.PointRoundTrip | simulador/detail.py:49-55 | reading back a point's dict gives the original point |
| Detail.ExchangeCurrentDetail | simulador/detail.py:58-86 | the i0 step is Ok exactly when the engine's i0(T) is, with the same error; it records the engine's value, labelled with the electrode's name, with formula "i0 = i0_ref" and values {i0_ref} without Ea, else the Arrhenius formula with i0_ref, Ea, R, T, Tref and the exponent (IsExchangeCurrentStep) |
| Detail.ActivationStep | simulador/detail.py:89-124 | for i > 0, fails exactly as the engine's electrode loss, with the same error kind; for i ≤ 0 it fails in the logarithm; on success it gives the i0 step, then the loss step with the Tafel formula, the values R, T, alpha, n, F, i, the engine's i0 and RT/(αnF), and the engine's value (IsActivationStep) |
| Detail.IdealVoltageStep | simulador/detail.py:145-168 | the "Voltaje ideal" step fails exactly as the Nernst potential, with the same error; otherwise it records the Nernst formula, the values Vstd = V°(T), R, T, n, F, Q, ln Q and RT/(nF), and the Nernst value (IsIdealVoltageStep) |
| Detail.OhmicStep | simulador/detail.py:190-216 | the "Perdida ohmica" step fails exactly as the ohmic loss, with the same error; otherwise it records its formula, the values i, t_mem, κ(T), R_contact, R_electrolito and R_total = t_mem/κ + R_contact + R_electrolito, and the engine's loss (IsOhmicStep) |
| Detail.ConcentrationStep | simulador/detail.py:218-244 | the "Perdida por concentracion" step fails exactly as the concentration loss, with the same error; otherwise it records its formula, the values R, T, n, F, i_lim(T), i and RT/(nF), and the engine's loss (IsConcentrationStep) |
| Detail.ExchangeCurrentStepReproduces | simulador/detail.py:63-80 | a recorded i0 step's result is i0_ref, or i0_ref·exp(exponent) with exponent = (−Ea/R)·(1/T − 1/Tref), all read from its own values |
| Detail.ActivationStepReproduces | simulador/detail.py:101-106 | a recorded Tafel step's result is prefactor·ln(i/i0) with prefactor = R·T/(α·n·F) and i0 > 0, all read from its own values |
| Detail.IdealVoltageStepReproduces | simulador/detail.py:145-151 | a recorded Nernst step's result is Vstd + prefactor·ln Q with Q > 0 and prefactor = R·T/(n·F), all read from its own values |
| Detail.OhmicStepReproduces | simulador/detail.py:199-201 | a recorded ohmic step's result is i·R_total with R_total = t_mem/κ + R_contact + R_electrolito and κ > 0, all read from its own values |
| Detail.ConcentrationStepReproduces | simulador/detail.py:227-228 | a recorded concentration step's result is prefactor·ln(i_lim/(i_lim − i)) with i < i_lim and prefactor = R·T/(n·F), all read from its own values |
| Detail.ActivationFailureAgrees | simulador/electrochemistry.py:93-94 | once the Nernst term is Ok, a failing anode, or else a failing cathode, decides the cell-voltage error |
| Detail.EvaluatePoint | simulador/detail.py:127-274 | i ≤ 0 fails first; otherwise Ok exactly when the cell voltage is, with the same error; a success is a trace of that point (IsTraceOf): every step records its formula, its operands and the engine's value, and the two sums record their operands |
| Detail.AssembledIsTrace | simulador/detail.py:176-274 | the nine steps, in order, with the two sums and the six contributions, assembled from the stage results, form a trace of the point |
| Detail.DetailedCurve | simulador/detail.py:277-284 | Ok exactly when every current is positive with a defined voltage; point k is a trace of current k; otherwise the first failing current decides the error |
| Detail.TraceRowKeys | simulador/detail.py:261-268 | the trace's contribution keys are distinct and fresh, so its table row has keys current, voltage, V_ideal, eta_act_an, eta_act_cat, eta_act_total, eta_ohm, eta_conc |
| Detail.TraceTotals | simulador/detail.py:180-268 | the total activation loss is the sum of the electrodes'; the point voltage is the last step's result and the sum of the ideal voltage and the three losses |
| Orr.ThermalEnergyEv | simulador/orr.py:17-20 | k_B·T in eV is positive exactly when T > 0, and zero exactly when T = 0 |
| Orr.FreeEnergy | simulador/orr.py:23-40 | fails exactly when the intermediate has no data, with its name |
| Orr.FreeEnergyAtPhZero | simulador/orr.py:36-40 | at pH 0, ΔG = ΔE + ΔZPE − T·ΔS + n_e·U |
| Orr.FreeEnergyPotentialShift | simulador/orr.py:38 | raising U by δ raises ΔG by n_e·δ |
| Orr.FreeEnergyPhShift | simulador/orr.py:39 | raising the pH by δ raises ΔG by n_H·k_B·T·ln 10·δ |
| Orr.FreeEnergyIncreasingInPh | simulador/orr.py:39 | at T > 0 an intermediate with protons has a strictly higher ΔG at a higher pH |
| Orr.ScaleBarrier | simulador/orr.py:43-48 | the barrier moves one-for-one with U − U_ref and is unchanged at U_ref |
| Orr.DissociativePathway | simulador/orr.py:51-71 | with no data it uses the two scaled barriers; with data it fails exactly when O* or OH* is missing (O* reported first), and ΔG1 = G(OH*) − G(O*), ΔG2 = 2.46 − G(OH*); limiting is the larger step |
| Orr.FallbackLimitingShift | simulador/orr.py:66-70 | without DFT data the limiting step is the larger tabulated barrier plus U − 1.23 |
| Orr.AssociativeSlope | simulador/orr.py:81-85 | the catalyst's coefficient when given, 0.65 otherwise |
| Orr.AssociativeIntercept | simulador/orr.py:86-90 | the catalyst's intercept when given, 0.25 otherwise |
| Orr.AssociativeBarrier | simulador/orr.py:74-93 | the barrier is b0 + s·abs(ΔE_O − 1.6) + (U − U_ref), with the catalyst's own slope s and intercept b0 when given and 0.65 and 0.25 otherwise |
| Orr.AssociativeDependsOnDistance | simulador/orr.py:91-92 | the barrier depends on ΔE_O only through its distance from 1.6 eV |
| Orr.AssociativeSabatier | simulador/orr.py:91-92 | with a positive slope, binding further from the optimum gives a strictly higher barrier |
| Orr.FirstMinIndex | simulador/orr.py:112 | the index of the first smallest candidate, as Python's `min` |
| Orr.DominantPathway | simulador/orr.py:96-118 | fails exactly when the dissociative pathway does; the chosen barrier is at most each of the three candidates and equals the chosen one; ties go to the earlier candidate |
| Orr.Activity | simulador/orr.py:121-135 | a pathway error comes first; then it fails exactly when T ≤ 0 (invalid temperature); a result is exp(−ΔG‡/kT) of the dominant barrier at kT = k_B·T > 0, and positive |
| Orr.BoltzmannFactorDecreasing | simulador/orr.py:135 | at a fixed kT > 0 a lower barrier gives a strictly larger exp(−ΔG‡/kT) |
| Orr.ActivityDecreasingInBarrier | simulador/orr.py:130-135 | under the same conditions, the catalyst with the lower dominant barrier is strictly more active |
| Orr.BoltzmannFactorAtLeastOne | simulador/orr.py:135 | at kT > 0 a barrier at or below zero gives exp(−ΔG‡/kT) ≥ 1 |
| Orr.ActivityAtLeastOne | simulador/orr.py:130-135 | a dominant barrier at or below zero gives an activity of at least 1 at any T > 0 |
| Simulation.ElectrolyzerSimulator.Voltage | simulador/simulation.py:20-21 | exactly the engine's cell voltage of the bound configuration and constants, result or error: Ok exactly when the cell voltage is, the sum of the four terms, and always an error for i ≤ 0 |
| Simulation.ElectrolyzerSimulator.VoltageBreakdown | simulador/simulation.py:23-49 | fails exactly when `Voltage` fails, with the same error; each entry is its engine term (Nernst voltage, total activation, ohmic and concentration losses); V_total is their sum and equals `Voltage` |
| Simulation.ElectrolyzerSimulator.PolarizationCurve | simulador/simulation.py:51-52 | exactly the engine's polarization curve of the bound configuration: same length and order as the currents, point k being `Voltage(i_k)`; Ok exactly when every point is, and otherwise the error of the first failing point |
| Simulation.CatalystAnalyzer.FreeEnergy | simulador/simulation.py:64-67 | exactly the engine's free energy at the bound T, pH and constants; fails exactly when the intermediate is missing; at a bound pH 0 it is ΔE + ΔZPE − T·ΔS + n_e·U |
| Simulation.CatalystAnalyzer.LimitingBarriers | simulador/simulation.py:69-72 | exactly the engine's dominant-pathway decision at the bound T and pH; Ok exactly when that dissociative pathway is, with a barrier at most each candidate |
| Simulation.CatalystAnalyzer.Activity | simulador/simulation.py:74-77 | exactly the engine's activity at the bound T, pH and constants; Ok exactly when `LimitingBarriers` is Ok and the bound T > 0; positive |
| Simulation.CatalystAnalyzer.ActivityProfile | simulador/simulation.py:79-80 | same length and order as the potentials, element k being `Activity(U_k)`; Ok exactly when every element is, and otherwise the error of the first failing potential |
| Simulation.AnalyzerDefaults | simulador/simulation.py:59-62 | a fresh analyzer works at 298.15 K and pH 0 with the default constants |
| Data.DefaultIdealVoltage | simulador/data.py:18-27 | the default ideal voltage is the standard potential at 353.15 K: defined, with V·2F = 285830 − 353.15·163 |
| Data.DefaultDerivedPositive | simulador/data.py:29-56 | at any T ≠ 0 the default i0 (both electrodes), κ and i_lim are defined and positive |
| Data.DefaultLimitingCurrentAboveReference | simulador/data.py:53-56 | the default i_lim at 353.15 K exceeds 5.0, so every i in (0, 5] has a defined, positive concentration loss |
| Data.DefaultCellVoltageDefined | simulador/data.py:58-65 | with the default configuration every i in (0, 5] has a defined cell voltage |
| Data.CatalogKeys | simulador/data.py:74-124 | the catalogue's keys are exactly Pt, Pd, Au, Ni, Ir and Rh, each record named as its key |
| Data.OnlyPtHasIntermediates | simulador/data.py:69-124 | only Pt has intermediates, with both O* and OH*, so its DFT pathway never fails; the others take the fallback barriers |
| Data.PtDominantBarrierNonPositive | simulador/data.py:75-83 | Pt's zero dissociation barrier keeps its dominant barrier ≤ 0 |
| Data.PtActivityAtLeastOne | simulador/data.py:75-83 | at any T > 0 Pt's activity is defined and at least 1 |
| App.BuildConfig | interfaz_usuario/app.py:25-31 | only the temperature and pH of the default conditions change; every other sub-model and condition field equals the default; default constants |
| App.BuildConfigAtDefaults | interfaz_usuario/app.py:28-29 | at 353.15 K and pH 0 the built configuration is the default one |
| App.ValidateCurrents | interfaz_usuario/app.py:73-82 | the missing-value, positivity, ordering and focus messages in that order, the first failure winning; no message exactly when all three are given, 0 < min < max and the focus current is positive |
| App.ValidatedCurrentsPositive | interfaz_usuario/app.py:73-82 | after validation the focus current and every current of the range are positive, so none meets the engine's non-positive-current error |
| App.PositiveCurrentAccepted | simulador/electrochemistry.py:63-64 | a positive current never makes the cell voltage fail with the non-positive-current error |
| App.ValidatedDefaultSweepDefined | interfaz_usuario/app.py:73-82 | with the form's default temperature and pH, every validated current up to 5 A/cm² has a defined voltage |
| App.ComponentId | interfaz_usuario/app.py:107-110 | the bare suffix when the prefix is missing or empty; otherwise one character longer than prefix plus suffix |
| App.ComponentIdSplits | interfaz_usuario/app.py:107-110 | a prefixed id is the prefix, a dash and the suffix, each recoverable by position |

## Left out

- Floating point: rounding, overflow, infinities and NaN are not modelled. All arithmetic is
  exact over the reals, and `exp`, `log` and `sqrt` are constrained only by the laws in
  `Funcs.Lawful`.
- Error messages: only the kind of error is modelled, not its text. The validator's messages
  are the exception; they are modelled exactly.
- The concentration loss diverges as i approaches i_lim. The model proves only that it is
  positive and strictly increasing there, not that it is unbounded.
- `planck` belongs to the constants table but no modelled computation uses it.
- `evaluate_point` is one long function. The model splits it into stage methods
  (`IdealVoltageStep`, `ActivationStep`, `OhmicStep`, `ConcentrationStep`), the assembly
  function `AssembleTrace` and the lemma `AssembledIsTrace`. The labels, values, order and
  error checks are unchanged.
- Detail.ActivationStep: for i ≤ 0 the fault is modelled as a logarithm-domain error. The
  source would raise from `math.log`. `EvaluatePoint` rejects such currents before calling it.
- Detail.ActivationStep: a non-positive i0 gives the engine's error kind, with the electrode's
  name, although the traced evaluator's message (simulador/detail.py:99-100) does not name the
  electrode. Messages are not modelled, so both paths share the one kind.
- Electrochemistry.ConcentrationOverpotential: the source's default of two electrons is not
  carried; the parameter is always passed. Every modelled caller passes the thermodynamic
  model's electron count, as the source's callers do.
- Detail.EquationStep.ToDict: the values dictionary becomes a tree of numbers. Integer entries
  such as `n` are recorded as reals.
- `determinar_via_dominante` evaluates both pathways with the default reference potential and
  the default constants, even when `calcular_actividad` receives other constants.
  `Orr.DominantPathway` does the same.
- The catalyst catalogue is a `map`. Its insertion order only feeds the UI drop-down list, which
  is not part of this model.
- `numpy.linspace` (the sweep generator of the front end) is not modelled.
  `App.ValidatedCurrentsPositive` covers every current between the validated bounds instead.
- The Dash/Flask front end, its layouts, callbacks, figures, tooltips and the CSV export are
  UI and I/O. They are not part of this model.
- App.ComponentId: Python's truthiness of the prefix is modelled for `None` and the empty
  string, the only values the front end passes.
