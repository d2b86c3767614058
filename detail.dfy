/** The traced evaluator: it recomputes one point of the polarization curve while recording
    every equation it applies, with the values it substituted, as an `EquationStep`. */
module Detail {
  import opened Results
  import opened Constants
  import opened Models
  import opened Transcendental
  import opened Electrochemistry
  import opened Dicts

  /** The JSON-like tree that `to_dict` produces. */
  datatype Value =
    | Number(number: real)
    | Text(text: string)
    | Object(entries: seq<(string, Value)>)
    | List(items: seq<Value>)

  /** One equation: its label, its formula as text, the substituted values and the result. */
  datatype EquationStep = EquationStep(name: string, expression: string, values: seq<(string, real)>, result: real)
  {
    function ToDict(): (v: Value)
      ensures v.Object? && |v.entries| == 4
      ensures v.entries[0] == ("name", Text(name)) && v.entries[1] == ("expression", Text(expression))
      ensures v.entries[3] == ("result", Number(result))
    {
      Object([("name", Text(name)), ("expression", Text(expression)),
              ("values", Object(NumberEntries(values))), ("result", Number(result))])
    }
  }

  /** The full record of one evaluated point. */
  datatype PointDetail = PointDetail(currentDensity: real, voltage: real, contributions: seq<(string, real)>,
                                     steps: seq<EquationStep>)
  {
    /** A table row: current and voltage first, then the contributions, updated into one dict. */
    method TableRow() returns (row: seq<(string, real)>)
      ensures Distinct(Keys(contributions)) ==>
                forall k :: Get(row, k) == if k in Keys(contributions) then Get(contributions, k)
                                           else Get([("current", currentDensity), ("voltage", voltage)], k)
      ensures Distinct(Keys(contributions)) && "current" !in Keys(contributions) && "voltage" !in Keys(contributions) ==>
                Keys(row) == ["current", "voltage"] + Keys(contributions)
    {
      row := [("current", currentDensity), ("voltage", voltage)];
      ghost var base := row;
      row := Update(row, contributions);
      if Distinct(Keys(contributions)) {
        forall k ensures Get(row, k) == if k in Keys(contributions) then Get(contributions, k) else Get(base, k) {
          GetUpdate(base, contributions, k);
        }
        if "current" !in Keys(contributions) && "voltage" !in Keys(contributions) {
          assert Keys(base) == ["current", "voltage"];
          KeysUpdateFresh(base, contributions);
        }
      }
    }

    function ToDict(): (v: Value)
      ensures v.Object? && |v.entries| == 4
      ensures v.entries[0] == ("current_density", Number(currentDensity))
      ensures v.entries[1] == ("voltage", Number(voltage))
      ensures v.entries[3].0 == "steps" && v.entries[3].1.List?
    {
      Object([("current_density", Number(currentDensity)), ("voltage", Number(voltage)),
              ("contributions", Object(NumberEntries(contributions))), ("steps", List(StepDicts(steps)))])
    }
  }

  /** A dict of floats as a tree. */
  function NumberEntries(values: seq<(string, real)>): (r: seq<(string, Value)>)
    ensures |r| == |values|
    ensures forall k :: 0 <= k < |values| ==> r[k] == (values[k].0, Number(values[k].1))
    decreases |values|
  {
    if values == [] then [] else [(values[0].0, Number(values[0].1))] + NumberEntries(values[1..])
  }

  /** `[step.to_dict() for step in steps]`. */
  function StepDicts(steps: seq<EquationStep>): (r: seq<Value>)
    ensures |r| == |steps|
    ensures forall k :: 0 <= k < |steps| ==> r[k] == steps[k].ToDict()
    decreases |steps|
  {
    if steps == [] then [] else [steps[0].ToDict()] + StepDicts(steps[1..])
  }

  // ---------------------------------------------------------------------------------------
  // Reading the trees back: the inverse of `to_dict`

  function NumbersFrom(entries: seq<(string, Value)>): Option<seq<(string, real)>>
    decreases |entries|
  {
    if entries == [] then Some([])
    else if !entries[0].1.Number? then None
    else match NumbersFrom(entries[1..])
      case None => None
      case Some(rest) => Some([(entries[0].0, entries[0].1.number)] + rest)
  }

  function StepFrom(v: Value): Option<EquationStep> {
    if v.Object? && |v.entries| == 4
       && v.entries[0].0 == "name" && v.entries[0].1.Text?
       && v.entries[1].0 == "expression" && v.entries[1].1.Text?
       && v.entries[2].0 == "values" && v.entries[2].1.Object?
       && v.entries[3].0 == "result" && v.entries[3].1.Number?
    then match NumbersFrom(v.entries[2].1.entries)
      case None => None
      case Some(values) => Some(EquationStep(v.entries[0].1.text, v.entries[1].1.text, values, v.entries[3].1.number))
    else None
  }

  function StepsFrom(items: seq<Value>): Option<seq<EquationStep>>
    decreases |items|
  {
    if items == [] then Some([])
    else match (StepFrom(items[0]), StepsFrom(items[1..]))
      case (Some(s), Some(rest)) => Some([s] + rest)
      case _ => None
  }

  function PointFrom(v: Value): Option<PointDetail> {
    if v.Object? && |v.entries| == 4
       && v.entries[0].0 == "current_density" && v.entries[0].1.Number?
       && v.entries[1].0 == "voltage" && v.entries[1].1.Number?
       && v.entries[2].0 == "contributions" && v.entries[2].1.Object?
       && v.entries[3].0 == "steps" && v.entries[3].1.List?
    then match (NumbersFrom(v.entries[2].1.entries), StepsFrom(v.entries[3].1.items))
      case (Some(contributions), Some(steps)) =>
        Some(PointDetail(v.entries[0].1.number, v.entries[1].1.number, contributions, steps))
      case _ => None
    else None
  }

  lemma {:induction false} NumbersRoundTrip(values: seq<(string, real)>)
    ensures NumbersFrom(NumberEntries(values)) == Some(values)
    decreases |values|
  {
    if values != [] {
      NumbersRoundTrip(values[1..]);
      NumbersFromCons(values, NumberEntries(values[1..]));
    }
  }

  /** Reading back one number in front of entries that read back as the rest of `values`. */
  lemma NumbersFromCons(values: seq<(string, real)>, rest: seq<(string, Value)>)
    requires values != [] && NumbersFrom(rest) == Some(values[1..])
    ensures NumbersFrom([(values[0].0, Number(values[0].1))] + rest) == Some(values)
  {
    var entries := [(values[0].0, Number(values[0].1))] + rest;
    assert entries[0] == (values[0].0, Number(values[0].1)) && entries[1..] == rest;
    assert [(values[0].0, values[0].1)] + values[1..] == values;
  }

  /** Every equation step is recovered from its dict. */
  lemma StepRoundTrip(step: EquationStep)
    ensures StepFrom(step.ToDict()) == Some(step)
  {
    NumbersRoundTrip(step.values);
  }

  lemma {:induction false} StepsRoundTrip(steps: seq<EquationStep>)
    ensures StepsFrom(StepDicts(steps)) == Some(steps)
    decreases |steps|
  {
    if steps != [] {
      var head, rest := steps[0].ToDict(), StepDicts(steps[1..]);
      StepRoundTrip(steps[0]);
      StepsRoundTrip(steps[1..]);
      assert StepDicts(steps) == [head] + rest;
      StepsFromCons(head, rest, steps[0], steps[1..]);
      assert [steps[0]] + steps[1..] == steps;
    }
  }

  lemma StepsFromCons(head: Value, rest: seq<Value>, step: EquationStep, tail: seq<EquationStep>)
    requires StepFrom(head) == Some(step) && StepsFrom(rest) == Some(tail)
    ensures StepsFrom([head] + rest) == Some([step] + tail)
  {
    var items := [head] + rest;
    assert items[0] == head && items[1..] == rest;
  }

  /** `to_dict` loses nothing: the point, its contributions and its steps in order come back. */
  lemma PointRoundTrip(d: PointDetail)
    ensures PointFrom(d.ToDict()) == Some(d)
  {
    NumbersRoundTrip(d.contributions);
    StepsRoundTrip(d.steps);
  }

  // ---------------------------------------------------------------------------------------
  // The traced computation

  // The formulas the evaluator records, one per kind of step.
  const I0_CONSTANT_FORMULA := "i0 = i0_ref"
  const I0_ARRHENIUS_FORMULA := "i0 = i0_ref * exp(-Ea/R * (1/T - 1/Tref))"
  const ACTIVATION_FORMULA := "eta = (RT/(alpha*nF)) * ln(i/i0)"
  const IDEAL_VOLTAGE_FORMULA := "V = Vstd + (RT/(nF)) * ln(Q)"
  const ACTIVATION_TOTAL_FORMULA := "eta_act = eta_an + eta_cat"
  const OHMIC_FORMULA := "eta_ohm = i * (t_mem/kappa + R_contact + R_electrolito)"
  const CONCENTRATION_FORMULA := "eta_conc = (RT/(nF)) * ln(i_lim / (i_lim - i))"
  const TOTAL_VOLTAGE_FORMULA := "V_total = V + eta_act + eta_ohm + eta_conc"

  /** `s` records the electrode's i0(T) as the engine computes it: without an activation energy
      the reference value alone, otherwise the Arrhenius formula with i0_ref, Ea, R, T, T_ref and
      the exponent substituted. */
  ghost predicate IsExchangeCurrentStep(s: EquationStep, kinetics: ElectrodeKinetics, temperature: real, m: Funcs,
                                        c: Constants) {
    && ExchangeCurrent(kinetics, temperature, m, c).Ok?
    && s.name == "Corriente de intercambio " + kinetics.name
    && s.result == ExchangeCurrent(kinetics, temperature, m, c).value
    && match kinetics.activationEnergy
       case None => s.expression == I0_CONSTANT_FORMULA && s.values == [("i0_ref", kinetics.i0Ref)]
       case Some(ea) =>
         && temperature != 0.0 && kinetics.referenceTemperature != 0.0
         && s.expression == I0_ARRHENIUS_FORMULA
         && s.values == [("i0_ref", kinetics.i0Ref), ("Ea", ea), ("R", c.gasConstant), ("T", temperature),
                         ("Tref", kinetics.referenceTemperature),
                         ("exponent", ArrheniusExponent(ea, temperature, kinetics.referenceTemperature, c.gasConstant))]
  }

  /** `s` records the electrode's Tafel loss at current `i`, with R, T, α, n, F, i, the engine's
      i0(T) and the prefactor RT/(αnF) substituted. */
  ghost predicate IsActivationStep(s: EquationStep, i: real, kinetics: ElectrodeKinetics, temperature: real,
                                   m: Funcs, c: Constants) {
    && ActivationEta(i, kinetics, temperature, m, c).Ok?
    && s == EquationStep("Sobrepotencial activacion " + kinetics.name, ACTIVATION_FORMULA,
                         [("R", c.gasConstant), ("T", temperature), ("alpha", kinetics.alpha),
                          ("n", kinetics.electrons as real), ("F", c.faraday), ("i", i),
                          ("i0", ExchangeCurrent(kinetics, temperature, m, c).value),
                          ("prefactor", c.gasConstant * temperature /
                                        (kinetics.alpha * kinetics.electrons as real * c.faraday))],
                         ActivationEta(i, kinetics, temperature, m, c).value)
  }

  /** `s` records the Nernst voltage, with the standard potential, R, T, n, F, the quotient Q,
      ln Q and the prefactor RT/(nF) substituted. */
  ghost predicate IsIdealVoltageStep(s: EquationStep, conds: OperatingConditions, thermo: ThermoModel, m: Funcs,
                                     c: Constants) {
    && NernstPotential(conds, thermo, m, c).Ok?
    && thermo.StandardPotential(conds.temperature, c).Ok?
    && s == EquationStep("Voltaje ideal", IDEAL_VOLTAGE_FORMULA,
                         [("Vstd", thermo.StandardPotential(conds.temperature, c).value), ("R", c.gasConstant),
                          ("T", conds.temperature), ("n", thermo.electrons as real), ("F", c.faraday),
                          ("Q", NernstQuotient(conds, m)), ("ln(Q)", m.Ln(NernstQuotient(conds, m))),
                          ("prefactor", c.gasConstant * conds.temperature / (thermo.electrons as real * c.faraday))],
                         NernstPotential(conds, thermo, m, c).value)
  }

  /** `s` records the ohmic loss at current `i`, with i, the membrane thickness, the engine's
      κ(T), both fixed resistances and the total area resistance substituted. */
  ghost predicate IsOhmicStep(s: EquationStep, i: real, ohmic: OhmicModel, temperature: real, m: Funcs,
                              c: Constants) {
    && OhmicOverpotential(i, ohmic, temperature, m, c).Ok?
    && s == EquationStep("Perdida ohmica", OHMIC_FORMULA,
                         [("i", i), ("t_mem", ohmic.membraneThicknessCm),
                          ("kappa", Conductivity(ohmic, temperature, m, c).value),
                          ("R_contact", ohmic.contactResistance), ("R_electrolito", ohmic.electrolyteResistance),
                          ("R_total", ohmic.membraneThicknessCm / Conductivity(ohmic, temperature, m, c).value
                                      + ohmic.contactResistance + ohmic.electrolyteResistance)],
                         OhmicOverpotential(i, ohmic, temperature, m, c).value)
  }

  /** `s` records the concentration loss at current `i`, with R, T, n, F, the engine's i_lim(T),
      i and the prefactor RT/(nF) substituted. */
  ghost predicate IsConcentrationStep(s: EquationStep, i: real, massTransport: MassTransportModel,
                                      temperature: real, electrons: int, m: Funcs, c: Constants) {
    && ConcentrationOverpotential(i, massTransport, temperature, electrons, m, c).Ok?
    && s == EquationStep("Perdida por concentracion", CONCENTRATION_FORMULA,
                         [("R", c.gasConstant), ("T", temperature), ("n", electrons as real), ("F", c.faraday),
                          ("i_lim", LimitingCurrent(massTransport, temperature, m, c).value), ("i", i),
                          ("prefactor", c.gasConstant * temperature / (electrons as real * c.faraday))],
                         ConcentrationOverpotential(i, massTransport, temperature, electrons, m, c).value)
  }

  /** A recorded i0 step reproduces its result from its own operands: i0_ref alone, or
      i0_ref·exp(exponent) with exponent = (−Ea/R)·(1/T − 1/T_ref). */
  lemma ExchangeCurrentStepReproduces(s: EquationStep, kinetics: ElectrodeKinetics, temperature: real, m: Funcs,
                                      c: Constants)
    requires IsExchangeCurrentStep(s, kinetics, temperature, m, c)
    ensures kinetics.activationEnergy.None? ==> |s.values| == 1 && s.result == s.values[0].1
    ensures kinetics.activationEnergy.Some? ==>
              && |s.values| == 6 && s.values[2].1 != 0.0 && s.values[3].1 != 0.0 && s.values[4].1 != 0.0
              && s.values[5].1 == (-s.values[1].1 / s.values[2].1) * (1.0 / s.values[3].1 - 1.0 / s.values[4].1)
              && s.result == s.values[0].1 * m.Exp(s.values[5].1)
  {
  }

  /** A recorded Tafel step reproduces its result from its own operands: prefactor·ln(i/i0), with
      prefactor = R·T/(α·n·F). */
  lemma ActivationStepReproduces(s: EquationStep, i: real, kinetics: ElectrodeKinetics, temperature: real,
                                 m: Funcs, c: Constants)
    requires IsActivationStep(s, i, kinetics, temperature, m, c)
    ensures |s.values| == 8 && s.values[6].1 > 0.0 && s.values[2].1 * s.values[3].1 * s.values[4].1 != 0.0
    ensures s.values[7].1 == s.values[0].1 * s.values[1].1 / (s.values[2].1 * s.values[3].1 * s.values[4].1)
    ensures s.result == s.values[7].1 * m.Ln(s.values[5].1 / s.values[6].1)
  {
    ActivationValue(i, kinetics, temperature, m, c);
    var i0 := ExchangeCurrent(kinetics, temperature, m, c).value;
    var prefactor := c.gasConstant * temperature / (kinetics.alpha * kinetics.electrons as real * c.faraday);
    var values := [("R", c.gasConstant), ("T", temperature), ("alpha", kinetics.alpha),
                   ("n", kinetics.electrons as real), ("F", c.faraday), ("i", i), ("i0", i0), ("prefactor", prefactor)];
    assert s.values == values;
    assert s.result == prefactor * m.Ln(i / i0);
  }

  /** The Tafel loss, once defined, is RT/(αnF)·ln(i/i0) with α·n ≠ 0 and i0 > 0. */
  lemma ActivationValue(i: real, kinetics: ElectrodeKinetics, temperature: real, m: Funcs, c: Constants)
    requires ActivationEta(i, kinetics, temperature, m, c).Ok?
    ensures ExchangeCurrent(kinetics, temperature, m, c).Ok? && ExchangeCurrent(kinetics, temperature, m, c).value > 0.0
    ensures kinetics.alpha * kinetics.electrons as real != 0.0
    ensures ActivationEta(i, kinetics, temperature, m, c).value ==
            c.gasConstant * temperature / (kinetics.alpha * kinetics.electrons as real * c.faraday)
            * m.Ln(i / ExchangeCurrent(kinetics, temperature, m, c).value)
  {
  }

  /** A recorded Nernst step reproduces its result from its own operands: Vstd + prefactor·ln Q,
      with prefactor = R·T/(n·F) and the recorded ln Q the logarithm of the recorded Q > 0. */
  lemma IdealVoltageStepReproduces(s: EquationStep, conds: OperatingConditions, thermo: ThermoModel, m: Funcs,
                                   c: Constants)
    requires IsIdealVoltageStep(s, conds, thermo, m, c)
    ensures |s.values| == 8 && s.values[5].1 > 0.0 && s.values[3].1 * s.values[4].1 != 0.0
    ensures s.values[6].1 == m.Ln(s.values[5].1)
    ensures s.values[7].1 == s.values[1].1 * s.values[2].1 / (s.values[3].1 * s.values[4].1)
    ensures s.result == s.values[0].1 + s.values[7].1 * s.values[6].1
  {
    NernstValue(conds, thermo, m, c);
    var q := NernstQuotient(conds, m);
    var prefactor := c.gasConstant * conds.temperature / (thermo.electrons as real * c.faraday);
    var values := [("Vstd", thermo.StandardPotential(conds.temperature, c).value), ("R", c.gasConstant),
                   ("T", conds.temperature), ("n", thermo.electrons as real), ("F", c.faraday), ("Q", q),
                   ("ln(Q)", m.Ln(q)), ("prefactor", prefactor)];
    assert s.values == values;
    assert s.result == values[0].1 + prefactor * m.Ln(q);
  }

  /** The Nernst voltage, once defined, is V°(T) + RT/(nF)·ln Q with n ≠ 0 and Q > 0. */
  lemma NernstValue(conds: OperatingConditions, thermo: ThermoModel, m: Funcs, c: Constants)
    requires NernstPotential(conds, thermo, m, c).Ok?
    ensures thermo.StandardPotential(conds.temperature, c).Ok? && thermo.electrons != 0
    ensures NernstQuotient(conds, m) > 0.0
    ensures NernstPotential(conds, thermo, m, c).value ==
            thermo.StandardPotential(conds.temperature, c).value
            + c.gasConstant * conds.temperature / (thermo.electrons as real * c.faraday) * m.Ln(NernstQuotient(conds, m))
  {
  }

  /** A recorded ohmic step reproduces its result from its own operands: i·R_total, with
      R_total = t_mem/κ + R_contact + R_electrolyte and κ > 0. */
  lemma OhmicStepReproduces(s: EquationStep, i: real, ohmic: OhmicModel, temperature: real, m: Funcs, c: Constants)
    requires IsOhmicStep(s, i, ohmic, temperature, m, c)
    ensures |s.values| == 6 && s.values[2].1 > 0.0
    ensures s.values[5].1 == s.values[1].1 / s.values[2].1 + s.values[3].1 + s.values[4].1
    ensures s.result == s.values[0].1 * s.values[5].1
  {
  }

  /** A recorded concentration step reproduces its result from its own operands:
      prefactor·ln(i_lim/(i_lim − i)), with prefactor = R·T/(n·F) and i below i_lim. */
  lemma ConcentrationStepReproduces(s: EquationStep, i: real, massTransport: MassTransportModel, temperature: real,
                                    electrons: int, m: Funcs, c: Constants)
    requires IsConcentrationStep(s, i, massTransport, temperature, electrons, m, c)
    ensures |s.values| == 7 && s.values[5].1 < s.values[4].1 && s.values[2].1 * s.values[3].1 != 0.0
    ensures s.values[6].1 == s.values[0].1 * s.values[1].1 / (s.values[2].1 * s.values[3].1)
    ensures s.result == s.values[6].1 * m.Ln(s.values[4].1 / (s.values[4].1 - s.values[5].1))
  {
    ConcentrationValue(i, massTransport, temperature, electrons, m, c);
    var iLim := LimitingCurrent(massTransport, temperature, m, c).value;
    var prefactor := c.gasConstant * temperature / (electrons as real * c.faraday);
    var values := [("R", c.gasConstant), ("T", temperature), ("n", electrons as real), ("F", c.faraday),
                   ("i_lim", iLim), ("i", i), ("prefactor", prefactor)];
    assert s.values == values;
    assert s.result == prefactor * m.Ln(iLim / (iLim - i));
  }

  /** The concentration loss, once defined, is RT/(nF)·ln(i_lim/(i_lim − i)) below i_lim. */
  lemma ConcentrationValue(i: real, massTransport: MassTransportModel, temperature: real, electrons: int, m: Funcs,
                           c: Constants)
    requires ConcentrationOverpotential(i, massTransport, temperature, electrons, m, c).Ok?
    ensures var iLim := LimitingCurrent(massTransport, temperature, m, c).value;
            && i < iLim && electrons != 0
            && ConcentrationOverpotential(i, massTransport, temperature, electrons, m, c).value ==
               c.gasConstant * temperature / (electrons as real * c.faraday) * m.Ln(iLim / (iLim - i))
  {
  }

  /** The step for i0(T): the same scaling as `Arrhenius`, written out with its inputs. */
  function ExchangeCurrentDetail(kinetics: ElectrodeKinetics, temperature: real, m: Funcs,
                                 c: Constants := CONSTANTS): (r: Result<EquationStep>)
    ensures r.Ok? <==> ExchangeCurrent(kinetics, temperature, m, c).Ok?
    ensures r.Ok? ==> IsExchangeCurrentStep(r.value, kinetics, temperature, m, c)
    ensures r.Err? ==> r.error == ExchangeCurrent(kinetics, temperature, m, c).error
  {
    match kinetics.activationEnergy
    case None =>
      Ok(EquationStep("Corriente de intercambio " + kinetics.name, I0_CONSTANT_FORMULA,
                      [("i0_ref", kinetics.i0Ref)], kinetics.i0Ref))
    case Some(ea) =>
      if temperature == 0.0 || kinetics.referenceTemperature == 0.0 then Err(ZeroDivision)
      else
        var exponent := ArrheniusExponent(ea, temperature, kinetics.referenceTemperature, c.gasConstant);
        Ok(EquationStep("Corriente de intercambio " + kinetics.name, I0_ARRHENIUS_FORMULA,
                        [("i0_ref", kinetics.i0Ref), ("Ea", ea), ("R", c.gasConstant), ("T", temperature),
                         ("Tref", kinetics.referenceTemperature), ("exponent", exponent)],
                        ArrheniusScaled(kinetics.i0Ref, ea, temperature, kinetics.referenceTemperature, c.gasConstant, m)))
  }

  /** The two steps of one electrode: its exchange current, then its Tafel overpotential.  This
      helper does not check the sign of the current itself: a non-positive current reaches the
      logarithm and fails there. */
  method ActivationStep(currentDensity: real, kinetics: ElectrodeKinetics, temperature: real, m: Funcs,
                        c: Constants := CONSTANTS) returns (r: Result<seq<EquationStep>>)
    ensures currentDensity > 0.0 ==> (r.Ok? <==> ActivationEta(currentDensity, kinetics, temperature, m, c).Ok?)
    ensures currentDensity > 0.0 && r.Err? ==> r.error == ActivationEta(currentDensity, kinetics, temperature, m, c).error
    ensures currentDensity <= 0.0 ==> r.Err?
    ensures (&& currentDensity <= 0.0 && ExchangeCurrent(kinetics, temperature, m, c).Ok?
             && ExchangeCurrent(kinetics, temperature, m, c).value > 0.0
             && kinetics.alpha * kinetics.electrons as real != 0.0) ==> r == Err(LogDomain)
    ensures r.Ok? ==> && |r.value| == 2
                      && r.value[0] == ExchangeCurrentDetail(kinetics, temperature, m, c).value
                      && IsExchangeCurrentStep(r.value[0], kinetics, temperature, m, c)
                      && IsActivationStep(r.value[1], currentDensity, kinetics, temperature, m, c)
  {
    var steps: seq<EquationStep> := [];
    var i0Step :- ExchangeCurrentDetail(kinetics, temperature, m, c);
    steps := steps + [i0Step];
    var i0 := i0Step.result;
    if i0 <= 0.0 {
      return Err(NonPositiveExchangeCurrent(kinetics.name));
    }
    var denominator := kinetics.alpha * kinetics.electrons as real * c.faraday;
    if denominator == 0.0 {
      return Err(ZeroDivision);
    }
    assert kinetics.alpha * kinetics.electrons as real != 0.0;
    var prefactor := c.gasConstant * temperature / denominator;
    var ratio := currentDensity / i0;
    if ratio <= 0.0 {
      return Err(LogDomain);
    }
    var eta := ThermalLogTerm(c.gasConstant, temperature, denominator, ratio, m);
    steps := steps + [EquationStep("Sobrepotencial activacion " + kinetics.name, ACTIVATION_FORMULA,
                                   [("R", c.gasConstant), ("T", temperature), ("alpha", kinetics.alpha),
                                    ("n", kinetics.electrons as real), ("F", c.faraday), ("i", currentDensity),
                                    ("i0", i0), ("prefactor", prefactor)],
                                   eta)];
    return Ok(steps);
  }

  /** The labels of a complete trace, in the order the evaluator appends them. */
  function TraceNames(anodeName: string, cathodeName: string): (names: seq<string>)
    ensures |names| == 9
  {
    ["Voltaje ideal",
     "Corriente de intercambio " + anodeName, "Sobrepotencial activacion " + anodeName,
     "Corriente de intercambio " + cathodeName, "Sobrepotencial activacion " + cathodeName,
     "Sobrepotencial activacion total", "Perdida ohmica", "Perdida por concentracion", "Voltaje total"]
  }

  function StepNames(steps: seq<EquationStep>): (names: seq<string>)
    ensures |names| == |steps| && forall k :: 0 <= k < |steps| ==> names[k] == steps[k].name
  {
    seq(|steps|, k requires 0 <= k < |steps| => steps[k].name)
  }

  /** The layout of a complete trace: nine steps with the fixed labels, the two sums the
      evaluator forms with their formulas and operands, the voltage taken from the last step and
      the six contributions. */
  predicate TraceShape(d: PointDetail, anodeName: string, cathodeName: string) {
    && |d.steps| == 9
    && StepNames(d.steps) == TraceNames(anodeName, cathodeName)
    && d.steps[5].expression == ACTIVATION_TOTAL_FORMULA
    && d.steps[5].values == [("eta_an", d.steps[2].result), ("eta_cat", d.steps[4].result)]
    && d.steps[5].result == d.steps[2].result + d.steps[4].result
    && d.steps[8].expression == TOTAL_VOLTAGE_FORMULA
    && d.steps[8].values == [("V", d.steps[0].result), ("eta_act", d.steps[5].result), ("eta_ohm", d.steps[6].result),
                             ("eta_conc", d.steps[7].result)]
    && d.steps[8].result == d.steps[0].result + d.steps[5].result + d.steps[6].result + d.steps[7].result
    && d.voltage == d.steps[8].result
    && d.contributions == [("V_ideal", d.steps[0].result), ("eta_act_an", d.steps[2].result),
                           ("eta_act_cat", d.steps[4].result), ("eta_act_total", d.steps[5].result),
                           ("eta_ohm", d.steps[6].result), ("eta_conc", d.steps[7].result)]
  }

  /** `d` is the trace of a successful evaluation at current density `i`: it has the layout of
      `TraceShape`, each engine step records its formula, the operands the engine uses and the
      value the engine computes, and the voltage is the cell voltage. */
  ghost predicate IsTraceOf(d: PointDetail, i: real, config: ElectrolyzerConfig, m: Funcs, c: Constants) {
    var temperature := config.conditions.temperature;
    var anode, cathode := config.kineticsAnode, config.kineticsCathode;
    && TraceShape(d, anode.name, cathode.name)
    && i > 0.0
    && d.currentDensity == i
    && CellVoltage(i, config, m, c).Ok?
    && d.voltage == CellVoltage(i, config, m, c).value
    && IsIdealVoltageStep(d.steps[0], config.conditions, config.thermo, m, c)
    && IsExchangeCurrentStep(d.steps[1], anode, temperature, m, c)
    && IsActivationStep(d.steps[2], i, anode, temperature, m, c)
    && IsExchangeCurrentStep(d.steps[3], cathode, temperature, m, c)
    && IsActivationStep(d.steps[4], i, cathode, temperature, m, c)
    && IsOhmicStep(d.steps[6], i, config.ohmic, temperature, m, c)
    && IsConcentrationStep(d.steps[7], i, config.massTransport, temperature, config.thermo.electrons, m, c)
  }

  /** The ideal-voltage block of the evaluator: the Nernst voltage with its inputs. */
  method IdealVoltageStep(conds: OperatingConditions, thermo: ThermoModel, m: Funcs, c: Constants := CONSTANTS)
    returns (r: Result<EquationStep>)
    ensures r.Ok? <==> NernstPotential(conds, thermo, m, c).Ok?
    ensures r.Err? ==> r.error == NernstPotential(conds, thermo, m, c).error
    ensures r.Ok? ==> IsIdealVoltageStep(r.value, conds, thermo, m, c)
  {
    var temperature := conds.temperature;
    var n := thermo.electrons;
    var vStd :- thermo.StandardPotential(temperature, c);
    var quotient := NernstQuotient(conds, m);
    var prefactor := c.gasConstant * temperature / (n as real * c.faraday);
    if quotient <= 0.0 {
      return Err(LogDomain);
    }
    var vIdeal := vStd + ThermalLogTerm(c.gasConstant, temperature, n as real * c.faraday, quotient, m);
    assert vIdeal == NernstPotential(conds, thermo, m, c).value;
    assert prefactor == c.gasConstant * conds.temperature / (thermo.electrons as real * c.faraday);
    return Ok(EquationStep("Voltaje ideal", IDEAL_VOLTAGE_FORMULA,
                           [("Vstd", vStd), ("R", c.gasConstant), ("T", temperature), ("n", n as real),
                            ("F", c.faraday), ("Q", quotient), ("ln(Q)", m.Ln(quotient)), ("prefactor", prefactor)],
                           vIdeal));
  }

  /** The ohmic block of the evaluator. */
  method OhmicStep(currentDensity: real, ohmic: OhmicModel, temperature: real, m: Funcs, c: Constants := CONSTANTS)
    returns (r: Result<EquationStep>)
    ensures r.Ok? <==> OhmicOverpotential(currentDensity, ohmic, temperature, m, c).Ok?
    ensures r.Err? ==> r.error == OhmicOverpotential(currentDensity, ohmic, temperature, m, c).error
    ensures r.Ok? ==> IsOhmicStep(r.value, currentDensity, ohmic, temperature, m, c)
  {
    var conductivity :- Conductivity(ohmic, temperature, m, c);
    if conductivity <= 0.0 {
      return Err(NonPositiveConductivity);
    }
    var membraneResistance := ohmic.membraneThicknessCm / conductivity;
    var totalResistance := membraneResistance + ohmic.contactResistance + ohmic.electrolyteResistance;
    var etaOhm := currentDensity * totalResistance;
    return Ok(EquationStep("Perdida ohmica", OHMIC_FORMULA,
                           [("i", currentDensity), ("t_mem", ohmic.membraneThicknessCm), ("kappa", conductivity),
                            ("R_contact", ohmic.contactResistance), ("R_electrolito", ohmic.electrolyteResistance),
                            ("R_total", totalResistance)],
                           etaOhm));
  }

  /** The concentration block of the evaluator; `electrons` is the count of the thermodynamic model. */
  method ConcentrationStep(currentDensity: real, massTransport: MassTransportModel, temperature: real,
                           electrons: int, m: Funcs, c: Constants := CONSTANTS)
    returns (r: Result<EquationStep>)
    ensures r.Ok? <==> ConcentrationOverpotential(currentDensity, massTransport, temperature, electrons, m, c).Ok?
    ensures r.Err? ==> r.error == ConcentrationOverpotential(currentDensity, massTransport, temperature, electrons, m, c).error
    ensures r.Ok? ==> IsConcentrationStep(r.value, currentDensity, massTransport, temperature, electrons, m, c)
  {
    var limitCurrent :- LimitingCurrent(massTransport, temperature, m, c);
    if currentDensity >= limitCurrent {
      return Err(LimitCurrentExceeded);
    }
    if electrons == 0 {
      return Err(ZeroDivision);
    }
    var prefactor := c.gasConstant * temperature / (electrons as real * c.faraday);
    var ratio := limitCurrent / (limitCurrent - currentDensity);
    if ratio <= 0.0 {
      return Err(LogDomain);
    }
    var etaConc := ThermalLogTerm(c.gasConstant, temperature, electrons as real * c.faraday, ratio, m);
    return Ok(EquationStep("Perdida por concentracion", CONCENTRATION_FORMULA,
                           [("R", c.gasConstant), ("T", temperature), ("n", electrons as real), ("F", c.faraday),
                            ("i_lim", limitCurrent), ("i", currentDensity), ("prefactor", prefactor)],
                           etaConc));
  }

  lemma ActivationFailureAgrees(i: real, config: ElectrolyzerConfig, m: Funcs, c: Constants)
    requires NernstPotential(config.conditions, config.thermo, m, c).Ok?
    ensures var anode := ActivationEta(i, config.kineticsAnode, config.conditions.temperature, m, c);
            anode.Err? ==> CellVoltage(i, config, m, c) == Err(anode.error)
    ensures var anode := ActivationEta(i, config.kineticsAnode, config.conditions.temperature, m, c);
            var cathode := ActivationEta(i, config.kineticsCathode, config.conditions.temperature, m, c);
            anode.Ok? && cathode.Err? ==> CellVoltage(i, config, m, c) == Err(cathode.error)
  {
    CellVoltageFirstFailure(i, config, m, c);
  }

  /** One point with its full trace.  A non-positive current is rejected before any step; after
      that the traced computation fails exactly when `CellVoltage` fails, with the same error,
      and otherwise agrees with it term by term. */
  method EvaluatePoint(currentDensity: real, config: ElectrolyzerConfig, m: Funcs, c: Constants := CONSTANTS)
    returns (r: Result<PointDetail>)
    ensures currentDensity <= 0.0 ==> r == Err(NonPositiveCurrent)
    ensures currentDensity > 0.0 ==> (r.Ok? <==> CellVoltage(currentDensity, config, m, c).Ok?)
    ensures currentDensity > 0.0 && r.Err? ==> r.error == CellVoltage(currentDensity, config, m, c).error
    ensures r.Ok? ==> IsTraceOf(r.value, currentDensity, config, m, c)
  {
    if currentDensity <= 0.0 {
      return Err(NonPositiveCurrent);
    }
    CellVoltageFirstFailure(currentDensity, config, m, c);
    var temperature := config.conditions.temperature;
    var idealStep :- IdealVoltageStep(config.conditions, config.thermo, m, c);
    ActivationFailureAgrees(currentDensity, config, m, c);
    var anodeSteps :- ActivationStep(currentDensity, config.kineticsAnode, temperature, m, c);
    var cathodeSteps :- ActivationStep(currentDensity, config.kineticsCathode, temperature, m, c);
    var ohmicStep :- OhmicStep(currentDensity, config.ohmic, temperature, m, c);
    var concentrationStep :- ConcentrationStep(currentDensity, config.massTransport, temperature,
                                               config.thermo.electrons, m, c);
    var d := AssembleTrace(currentDensity, idealStep, anodeSteps, cathodeSteps, ohmicStep, concentrationStep);
    AssembledIsTrace(currentDensity, config, m, c, idealStep, anodeSteps, cathodeSteps, ohmicStep, concentrationStep);
    return Ok(d);
  }

  /** The rest of the evaluator once every block has succeeded: the steps in order, the total
      activation step, the total-voltage step and the contributions. */
  function AssembleTrace(currentDensity: real, idealStep: EquationStep, anodeSteps: seq<EquationStep>,
                         cathodeSteps: seq<EquationStep>, ohmicStep: EquationStep,
                         concentrationStep: EquationStep): PointDetail
    requires |anodeSteps| == 2 && |cathodeSteps| == 2
  {
    var vIdeal := idealStep.result;
    var etaActAn := anodeSteps[|anodeSteps| - 1].result;
    var etaActCat := cathodeSteps[|cathodeSteps| - 1].result;
    var etaActTotal := etaActAn + etaActCat;
    var etaOhm := ohmicStep.result;
    var etaConc := concentrationStep.result;
    var totalVoltage := vIdeal + etaActTotal + etaOhm + etaConc;
    var steps := [idealStep] + anodeSteps + cathodeSteps
                 + [EquationStep("Sobrepotencial activacion total", ACTIVATION_TOTAL_FORMULA,
                                 [("eta_an", etaActAn), ("eta_cat", etaActCat)], etaActTotal)]
                 + [ohmicStep] + [concentrationStep]
                 + [EquationStep("Voltaje total", TOTAL_VOLTAGE_FORMULA,
                                 [("V", vIdeal), ("eta_act", etaActTotal), ("eta_ohm", etaOhm), ("eta_conc", etaConc)],
                                 totalVoltage)];
    var contributions := [("V_ideal", vIdeal), ("eta_act_an", etaActAn), ("eta_act_cat", etaActCat),
                          ("eta_act_total", etaActTotal), ("eta_ohm", etaOhm), ("eta_conc", etaConc)];
    PointDetail(currentDensity, totalVoltage, contributions, steps)
  }

  /** Blocks that carry the engine's values and the evaluator's labels assemble into a trace of
      the point. */
  lemma AssembledIsTrace(i: real, config: ElectrolyzerConfig, m: Funcs, c: Constants, idealStep: EquationStep,
                         anodeSteps: seq<EquationStep>, cathodeSteps: seq<EquationStep>,
                         ohmicStep: EquationStep, concentrationStep: EquationStep)
    requires i > 0.0 && |anodeSteps| == 2 && |cathodeSteps| == 2
    requires IsIdealVoltageStep(idealStep, config.conditions, config.thermo, m, c)
    requires IsExchangeCurrentStep(anodeSteps[0], config.kineticsAnode, config.conditions.temperature, m, c)
    requires IsActivationStep(anodeSteps[1], i, config.kineticsAnode, config.conditions.temperature, m, c)
    requires IsExchangeCurrentStep(cathodeSteps[0], config.kineticsCathode, config.conditions.temperature, m, c)
    requires IsActivationStep(cathodeSteps[1], i, config.kineticsCathode, config.conditions.temperature, m, c)
    requires IsOhmicStep(ohmicStep, i, config.ohmic, config.conditions.temperature, m, c)
    requires IsConcentrationStep(concentrationStep, i, config.massTransport, config.conditions.temperature,
                                 config.thermo.electrons, m, c)
    ensures IsTraceOf(AssembleTrace(i, idealStep, anodeSteps, cathodeSteps, ohmicStep, concentrationStep), i, config, m, c)
  {
    var d := AssembleTrace(i, idealStep, anodeSteps, cathodeSteps, ohmicStep, concentrationStep);
    AssembledShape(i, idealStep, anodeSteps, cathodeSteps, ohmicStep, concentrationStep,
                   config.kineticsAnode.name, config.kineticsCathode.name);
    assert CellVoltage(i, config, m, c).Ok?;
    assert d.voltage == CellVoltage(i, config, m, c).value;
  }

  /** Blocks with the evaluator's labels assemble, in order, into the layout of a trace. */
  lemma AssembledShape(i: real, idealStep: EquationStep, anodeSteps: seq<EquationStep>,
                       cathodeSteps: seq<EquationStep>, ohmicStep: EquationStep, concentrationStep: EquationStep,
                       anodeName: string, cathodeName: string)
    requires |anodeSteps| == 2 && |cathodeSteps| == 2
    requires idealStep.name == "Voltaje ideal"
    requires anodeSteps[0].name == "Corriente de intercambio " + anodeName
    requires anodeSteps[1].name == "Sobrepotencial activacion " + anodeName
    requires cathodeSteps[0].name == "Corriente de intercambio " + cathodeName
    requires cathodeSteps[1].name == "Sobrepotencial activacion " + cathodeName
    requires ohmicStep.name == "Perdida ohmica" && concentrationStep.name == "Perdida por concentracion"
    ensures var d := AssembleTrace(i, idealStep, anodeSteps, cathodeSteps, ohmicStep, concentrationStep);
            && TraceShape(d, anodeName, cathodeName) && d.currentDensity == i
            && d.steps[0] == idealStep && d.steps[1] == anodeSteps[0] && d.steps[2] == anodeSteps[1]
            && d.steps[3] == cathodeSteps[0] && d.steps[4] == cathodeSteps[1]
            && d.steps[6] == ohmicStep && d.steps[7] == concentrationStep
  {
    var d := AssembleTrace(i, idealStep, anodeSteps, cathodeSteps, ohmicStep, concentrationStep);
    assert d.steps == [idealStep, anodeSteps[0], anodeSteps[1], cathodeSteps[0], cathodeSteps[1], d.steps[5],
                       ohmicStep, concentrationStep, d.steps[8]];
    assert StepNames(d.steps) == TraceNames(anodeName, cathodeName);
  }

  /** `[evaluate_point(i) for i in currents]`: fails at the first point that fails, with that
      point's error; otherwise one trace per current, in order. */
  method DetailedCurve(currents: seq<real>, config: ElectrolyzerConfig, m: Funcs, c: Constants := CONSTANTS)
    returns (r: Result<seq<PointDetail>>)
    ensures r.Ok? <==> forall k :: 0 <= k < |currents| ==> currents[k] > 0.0 && CellVoltage(currents[k], config, m, c).Ok?
    ensures r.Ok? ==> |r.value| == |currents| &&
                      forall k :: 0 <= k < |currents| ==> IsTraceOf(r.value[k], currents[k], config, m, c)
    ensures r.Err? ==> exists k :: && 0 <= k < |currents|
                                   && (forall j :: 0 <= j < k ==> currents[j] > 0.0 && CellVoltage(currents[j], config, m, c).Ok?)
                                   && !(currents[k] > 0.0 && CellVoltage(currents[k], config, m, c).Ok?)
                                   && r.error == if currents[k] <= 0.0 then NonPositiveCurrent
                                                 else CellVoltage(currents[k], config, m, c).error
  {
    var details: seq<PointDetail> := [];
    for k := 0 to |currents|
      invariant |details| == k
      invariant forall j :: 0 <= j < k ==> currents[j] > 0.0 && CellVoltage(currents[j], config, m, c).Ok?
      invariant forall j :: 0 <= j < k ==> IsTraceOf(details[j], currents[j], config, m, c)
    {
      var point := EvaluatePoint(currents[k], config, m, c);
      if point.Err? {
        r := Err(point.error);
        assert !(currents[k] > 0.0 && CellVoltage(currents[k], config, m, c).Ok?);
        return;
      }
      TracesExtend(details, currents, point.value, config, m, c);
      details := details + [point.value];
    }
    return Ok(details);
  }

  lemma TracesExtend(details: seq<PointDetail>, currents: seq<real>, point: PointDetail, config: ElectrolyzerConfig,
                     m: Funcs, c: Constants)
    requires |details| < |currents|
    requires forall j :: 0 <= j < |details| ==> IsTraceOf(details[j], currents[j], config, m, c)
    requires IsTraceOf(point, currents[|details|], config, m, c)
    ensures forall j :: 0 <= j <= |details| ==> IsTraceOf((details + [point])[j], currents[j], config, m, c)
  {
    forall j | 0 <= j <= |details|
      ensures IsTraceOf((details + [point])[j], currents[j], config, m, c)
    {
      if j < |details| {
        assert (details + [point])[j] == details[j];
      }
    }
  }

  /** A complete trace's row has the current, the voltage and the six contributions, in order. */
  lemma TraceRowKeys(d: PointDetail, anodeName: string, cathodeName: string)
    requires TraceShape(d, anodeName, cathodeName)
    ensures Distinct(Keys(d.contributions))
    ensures "current" !in Keys(d.contributions) && "voltage" !in Keys(d.contributions)
    ensures ["current", "voltage"] + Keys(d.contributions) ==
            ["current", "voltage", "V_ideal", "eta_act_an", "eta_act_cat", "eta_act_total", "eta_ohm", "eta_conc"]
  {
    var ks := Keys(d.contributions);
    assert ks == CONTRIBUTION_KEYS;
    ContributionKeysFresh();
  }

  /** The contribution labels, in the order the evaluator records them. */
  const CONTRIBUTION_KEYS: seq<string> := ["V_ideal", "eta_act_an", "eta_act_cat", "eta_act_total", "eta_ohm", "eta_conc"]

  lemma ContributionKeysFresh()
    ensures Distinct(CONTRIBUTION_KEYS)
    ensures "current" !in CONTRIBUTION_KEYS && "voltage" !in CONTRIBUTION_KEYS
  {
  }

  /** In a complete trace the total activation loss is the sum of the two electrodes', and the
      voltage is the last step's result and the ideal voltage plus the three losses. */
  lemma TraceTotals(d: PointDetail, anodeName: string, cathodeName: string)
    requires TraceShape(d, anodeName, cathodeName)
    ensures Get(d.contributions, "eta_act_total").Some? && Get(d.contributions, "eta_act_an").Some? &&
            Get(d.contributions, "eta_act_cat").Some?
    ensures Get(d.contributions, "eta_act_total").value ==
            Get(d.contributions, "eta_act_an").value + Get(d.contributions, "eta_act_cat").value
    ensures d.voltage == d.steps[|d.steps| - 1].result
    ensures d.voltage == d.contributions[0].1 + d.contributions[3].1 + d.contributions[4].1 + d.contributions[5].1
  {
    TraceRowKeys(d, anodeName, cathodeName);
    var cs := d.contributions;
    GetAt(cs, 1);
    GetAt(cs, 2);
    GetAt(cs, 3);
  }
}
