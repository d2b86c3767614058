/** Closed-form voltage engine: the shared Arrhenius primitive, the Nernst ideal voltage,
    the three overpotentials, their sum and the polarization curve. */
module Electrochemistry {
  import opened Results
  import opened Constants
  import opened Models
  import opened Transcendental

  /** Floor applied to p_O2 and to the water activity before the square root and logarithm. */
  const ACTIVITY_FLOOR := 1e-12

  function Max(a: real, b: real): (r: real)
    ensures r >= a && r >= b && (r == a || r == b)
  {
    if a >= b then a else b
  }

  // ---------------------------------------------------------------------------------------
  // Arrhenius scaling

  /** value_ref · exp[(−Ea/R)·(1/T − 1/T_ref)], or value_ref itself when no activation energy
      is given. */
  function Arrhenius(valueRef: real, activationEnergy: Option<real>, temperature: real,
                     referenceTemperature: real, m: Funcs, c: Constants := CONSTANTS): (r: Result<real>)
    ensures activationEnergy.None? ==> r == Ok(valueRef)
    ensures r.Err? <==> activationEnergy.Some? && (temperature == 0.0 || referenceTemperature == 0.0)
    ensures r.Err? ==> r.error == ZeroDivision
  {
    match activationEnergy
    case None => Ok(valueRef)
    case Some(ea) =>
      if temperature == 0.0 || referenceTemperature == 0.0 then Err(ZeroDivision)
      else Ok(ArrheniusScaled(valueRef, ea, temperature, referenceTemperature, c.gasConstant, m))
  }

  /** The exponent (−Ea/R)·(1/T − 1/T_ref). */
  function ArrheniusExponent(ea: real, temperature: real, referenceTemperature: real, gasConstant: real): real
    requires gasConstant != 0.0 && temperature != 0.0 && referenceTemperature != 0.0
  {
    (-ea / gasConstant) * (1.0 / temperature - 1.0 / referenceTemperature)
  }

  /** value_ref · exp(exponent): the scaled value once the divisions are known to be defined. */
  function ArrheniusScaled(valueRef: real, ea: real, temperature: real, referenceTemperature: real,
                           gasConstant: real, m: Funcs): real
    requires gasConstant != 0.0 && temperature != 0.0 && referenceTemperature != 0.0
  {
    valueRef * m.Exp(ArrheniusExponent(ea, temperature, referenceTemperature, gasConstant))
  }

  /** (RT/d)·ln x, the logarithmic term shared by the Nernst, Tafel and concentration formulas. */
  function ThermalLogTerm(gasConstant: real, temperature: real, denominator: real, x: real, m: Funcs): real
    requires denominator != 0.0
  {
    gasConstant * temperature / denominator * m.Ln(x)
  }

  /** The exp factor is positive, so scaling keeps the sign of the reference value. */
  lemma ArrheniusKeepsSign(valueRef: real, activationEnergy: Option<real>, temperature: real,
                           referenceTemperature: real, m: Funcs, c: Constants)
    requires m.Lawful()
    requires Arrhenius(valueRef, activationEnergy, temperature, referenceTemperature, m, c).Ok?
    ensures var v := Arrhenius(valueRef, activationEnergy, temperature, referenceTemperature, m, c).value;
            (v > 0.0 <==> valueRef > 0.0) && (v < 0.0 <==> valueRef < 0.0) && (v == 0.0 <==> valueRef == 0.0)
  {
    if activationEnergy.Some? {
      var exponent := (-activationEnergy.value / c.gasConstant) * (1.0 / temperature - 1.0 / referenceTemperature);
      var e := m.Exp(exponent);
      assert e > 0.0;
      SignOfProduct(valueRef, e);
    }
  }

  lemma SignOfProduct(a: real, e: real)
    requires e > 0.0
    ensures (a * e > 0.0 <==> a > 0.0) && (a * e < 0.0 <==> a < 0.0) && (a * e == 0.0 <==> a == 0.0)
  {
    if a > 0.0 { assert a * e > 0.0; }
    if a < 0.0 { assert a * e < 0.0; }
  }

  /** At the reference temperature the scaled value is the reference value. */
  lemma ArrheniusAtReference(valueRef: real, activationEnergy: Option<real>, referenceTemperature: real,
                             m: Funcs, c: Constants)
    requires m.Lawful() && referenceTemperature != 0.0
    ensures Arrhenius(valueRef, activationEnergy, referenceTemperature, referenceTemperature, m, c) == Ok(valueRef)
  {
    match activationEnergy
    case None =>
    case Some(ea) =>
      var exponent := (-ea / c.gasConstant) * (1.0 / referenceTemperature - 1.0 / referenceTemperature);
      assert exponent == 0.0;
      var r := Arrhenius(valueRef, Some(ea), referenceTemperature, referenceTemperature, m, c);
      assert r.value == valueRef * m.Exp(exponent) == valueRef;
      assert r == Ok(r.value);
  }

  /** A positive activation energy raises a positive value above its reference value when the
      temperature exceeds the (positive) reference temperature. */
  lemma ArrheniusGrowsAboveReference(valueRef: real, ea: real, temperature: real,
                                     referenceTemperature: real, m: Funcs, c: Constants)
    requires m.Lawful() && valueRef > 0.0 && ea > 0.0 && temperature > referenceTemperature > 0.0
    ensures Arrhenius(valueRef, Some(ea), temperature, referenceTemperature, m, c).Ok?
    ensures Arrhenius(valueRef, Some(ea), temperature, referenceTemperature, m, c).value > valueRef
  {
    var diff := 1.0 / temperature - 1.0 / referenceTemperature;
    InverseDecreasing(referenceTemperature, temperature);
    assert diff < 0.0;
    var factor := -ea / c.gasConstant;
    assert factor < 0.0;
    var exponent := factor * diff;
    assert exponent > 0.0;
    ExpAboveOne(m, exponent);
    assert valueRef * m.Exp(exponent) > valueRef * 1.0;
  }

  lemma InverseDecreasing(a: real, b: real)
    requires 0.0 < a < b
    ensures 1.0 / b < 1.0 / a
  {
    assert a * b > 0.0;
    assert 1.0 / a - 1.0 / b == (b - a) / (a * b);
  }

  /** The derived exchange current i0(T) of an electrode. */
  function ExchangeCurrent(kinetics: ElectrodeKinetics, temperature: real, m: Funcs, c: Constants := CONSTANTS): Result<real> {
    Arrhenius(kinetics.i0Ref, kinetics.activationEnergy, temperature, kinetics.referenceTemperature, m, c)
  }

  /** The derived ionic conductivity κ(T). */
  function Conductivity(ohmic: OhmicModel, temperature: real, m: Funcs, c: Constants := CONSTANTS): Result<real> {
    Arrhenius(ohmic.conductivityRef, ohmic.activationEnergy, temperature, ohmic.referenceTemperature, m, c)
  }

  /** The derived limiting current i_lim(T). */
  function LimitingCurrent(massTransport: MassTransportModel, temperature: real, m: Funcs, c: Constants := CONSTANTS): Result<real> {
    Arrhenius(massTransport.limitCurrentRef, massTransport.activationEnergy, temperature,
              massTransport.referenceTemperature, m, c)
  }

  // ---------------------------------------------------------------------------------------
  // Ideal (Nernst) voltage

  /** Q = p_H2 · sqrt(max(p_O2, ε)) / max(a_H2O, ε). */
  function NernstQuotient(conditions: OperatingConditions, m: Funcs): real {
    conditions.pressureH2 * m.Sqrt(Max(conditions.pressureO2, ACTIVITY_FLOOR)) / Max(conditions.activityH2O, ACTIVITY_FLOOR)
  }

  /** V_std(T) + (RT/(nF))·ln Q.  Fails like the standard potential when n = 0, and with a log
      domain error when Q <= 0. */
  function NernstPotential(conditions: OperatingConditions, thermo: ThermoModel, m: Funcs,
                           c: Constants := CONSTANTS): (r: Result<real>)
    ensures thermo.electrons == 0 ==> r == Err(ZeroDivision)
    ensures thermo.electrons != 0 ==> (r.Err? <==> NernstQuotient(conditions, m) <= 0.0)
    ensures thermo.electrons != 0 && r.Err? ==> r.error == LogDomain
  {
    var vStd :- thermo.StandardPotential(conditions.temperature, c);
    var quotient := NernstQuotient(conditions, m);
    if quotient <= 0.0 then Err(LogDomain)
    else
      Ok(vStd + ThermalLogTerm(c.gasConstant, conditions.temperature, thermo.electrons as real * c.faraday, quotient, m))
  }

  /** The quotient is positive exactly when the hydrogen pressure is. */
  lemma NernstQuotientSign(conditions: OperatingConditions, m: Funcs)
    requires m.Lawful()
    ensures NernstQuotient(conditions, m) > 0.0 <==> conditions.pressureH2 > 0.0
  {
    var s := m.Sqrt(Max(conditions.pressureO2, ACTIVITY_FLOOR));
    var a := Max(conditions.activityH2O, ACTIVITY_FLOOR);
    assert s > 0.0 && a > 0.0;
    var p := conditions.pressureH2;
    SignOfProduct(p, s);
    SignOfProduct(p * s, 1.0 / a);
  }

  /** With unit pressures and unit water activity Q = 1, the Nernst term vanishes and the ideal
      voltage is the standard potential (including its failure when n = 0). */
  lemma NernstAtUnitActivities(conditions: OperatingConditions, thermo: ThermoModel, m: Funcs, c: Constants)
    requires m.Lawful()
    requires conditions.pressureH2 == 1.0 && conditions.pressureO2 == 1.0 && conditions.activityH2O == 1.0
    ensures NernstPotential(conditions, thermo, m, c) == thermo.StandardPotential(conditions.temperature, c)
  {
    assert NernstQuotient(conditions, m) == 1.0;
  }

  /** At fixed positive temperature, a larger (positive) quotient gives a larger ideal voltage. */
  lemma NernstOrderedByQuotient(cond1: OperatingConditions, cond2: OperatingConditions, thermo: ThermoModel,
                                m: Funcs, c: Constants)
    requires m.Lawful() && thermo.electrons > 0 && cond1.temperature == cond2.temperature > 0.0
    requires 0.0 < NernstQuotient(cond1, m) <= NernstQuotient(cond2, m)
    ensures NernstPotential(cond1, thermo, m, c).Ok? && NernstPotential(cond2, thermo, m, c).Ok?
    ensures NernstPotential(cond1, thermo, m, c).value <= NernstPotential(cond2, thermo, m, c).value
  {
    ThermalLogTermMonotone(c.gasConstant, cond1.temperature, thermo.electrons as real * c.faraday,
                           NernstQuotient(cond1, m), NernstQuotient(cond2, m), m);
  }

  /** For positive R, T and d the term (RT/d)·ln x is non-decreasing in x > 0. */
  lemma ThermalLogTermMonotone(gasConstant: real, temperature: real, denominator: real, x: real, y: real, m: Funcs)
    requires m.Lawful() && gasConstant > 0.0 && temperature > 0.0 && denominator > 0.0 && 0.0 < x <= y
    ensures ThermalLogTerm(gasConstant, temperature, denominator, x, m) <=
            ThermalLogTerm(gasConstant, temperature, denominator, y, m)
  {
    LnMonotone(m, x, y);
    PositiveRatio(gasConstant * temperature, denominator);
    MultiplyKeepsOrder(gasConstant * temperature / denominator, m.Ln(x), m.Ln(y));
  }

  /** For positive R, T and d the term (RT/d)·ln x is strictly increasing in x > 0. */
  lemma ThermalLogTermIncreasing(gasConstant: real, temperature: real, denominator: real, x: real, y: real, m: Funcs)
    requires m.Lawful() && gasConstant > 0.0 && temperature > 0.0 && denominator > 0.0 && 0.0 < x < y
    ensures ThermalLogTerm(gasConstant, temperature, denominator, x, m) <
            ThermalLogTerm(gasConstant, temperature, denominator, y, m)
  {
    assert m.Ln(x) < m.Ln(y);
    PositiveRatio(gasConstant * temperature, denominator);
    StrictlyScaled(gasConstant * temperature / denominator, m.Ln(x), m.Ln(y));
  }

  /** For positive R, T and d the term (RT/d)·ln x is positive exactly when x > 1. */
  lemma ThermalLogTermSign(gasConstant: real, temperature: real, denominator: real, x: real, m: Funcs)
    requires m.Lawful() && gasConstant > 0.0 && temperature > 0.0 && denominator > 0.0 && x > 0.0
    ensures ThermalLogTerm(gasConstant, temperature, denominator, x, m) > 0.0 <==> x > 1.0
  {
    var p := gasConstant * temperature / denominator;
    PositiveRatio(gasConstant * temperature, denominator);
    if x > 1.0 {
      LnPositive(m, x);
      StrictlyScaled(p, 0.0, m.Ln(x));
    } else {
      LnMonotone(m, x, 1.0);
      MultiplyKeepsOrder(p, m.Ln(x), 0.0);
    }
  }

  /** At fixed positive temperature the ideal voltage is non-decreasing in p_H2 and p_O2 and
      non-increasing in the water activity. */
  lemma NernstMonotone(cond1: OperatingConditions, cond2: OperatingConditions, thermo: ThermoModel,
                       m: Funcs, c: Constants)
    requires m.Lawful() && thermo.electrons > 0 && cond1.temperature == cond2.temperature > 0.0
    requires 0.0 < cond1.pressureH2 <= cond2.pressureH2
    requires cond1.pressureO2 <= cond2.pressureO2
    requires cond1.activityH2O >= cond2.activityH2O
    ensures NernstPotential(cond1, thermo, m, c).Ok? && NernstPotential(cond2, thermo, m, c).Ok?
    ensures NernstPotential(cond1, thermo, m, c).value <= NernstPotential(cond2, thermo, m, c).value
  {
    NernstQuotientSign(cond1, m);
    QuotientOrdered(cond1, cond2, m);
    NernstOrderedByQuotient(cond1, cond2, thermo, m, c);
  }

  lemma PositiveRatio(a: real, b: real)
    requires a > 0.0 && b > 0.0
    ensures a / b > 0.0
  {
  }

  lemma MultiplyKeepsOrder(p: real, x: real, y: real)
    requires p >= 0.0 && x <= y
    ensures p * x <= p * y
  {
  }

  lemma QuotientOrdered(cond1: OperatingConditions, cond2: OperatingConditions, m: Funcs)
    requires m.Lawful()
    requires 0.0 < cond1.pressureH2 <= cond2.pressureH2
    requires cond1.pressureO2 <= cond2.pressureO2
    requires cond1.activityH2O >= cond2.activityH2O
    ensures NernstQuotient(cond1, m) <= NernstQuotient(cond2, m)
  {
    FlooredSqrtOrdered(m, cond1.pressureO2, cond2.pressureO2);
    QuotientFromParts(cond1, cond2, m);
  }

  lemma QuotientFromParts(cond1: OperatingConditions, cond2: OperatingConditions, m: Funcs)
    requires 0.0 < cond1.pressureH2 <= cond2.pressureH2
    requires 0.0 < m.Sqrt(Max(cond1.pressureO2, ACTIVITY_FLOOR)) <= m.Sqrt(Max(cond2.pressureO2, ACTIVITY_FLOOR))
    requires cond1.activityH2O >= cond2.activityH2O
    ensures NernstQuotient(cond1, m) <= NernstQuotient(cond2, m)
  {
    QuotientMonotone(cond1.pressureH2, cond2.pressureH2,
                     m.Sqrt(Max(cond1.pressureO2, ACTIVITY_FLOOR)), m.Sqrt(Max(cond2.pressureO2, ACTIVITY_FLOOR)),
                     Max(cond1.activityH2O, ACTIVITY_FLOOR), Max(cond2.activityH2O, ACTIVITY_FLOOR));
  }

  lemma FlooredSqrtOrdered(m: Funcs, x: real, y: real)
    requires m.Lawful() && x <= y
    ensures 0.0 < m.Sqrt(Max(x, ACTIVITY_FLOOR)) <= m.Sqrt(Max(y, ACTIVITY_FLOOR))
  {
    SqrtMonotone(m, Max(x, ACTIVITY_FLOOR), Max(y, ACTIVITY_FLOOR));
  }

  lemma QuotientMonotone(p1: real, p2: real, s1: real, s2: real, a1: real, a2: real)
    requires 0.0 < p1 <= p2 && 0.0 < s1 <= s2 && a1 >= a2 > 0.0
    ensures p1 * s1 / a1 <= p2 * s2 / a2
  {
    var x, y := p1 * s1, p2 * s2;
    assert x <= p2 * s1 <= y;
    var inv1, inv2 := 1.0 / a1, 1.0 / a2;
    assert inv1 > 0.0;
    InverseDecreasingOrEqual(a2, a1);
    MultiplyKeepsOrder(inv1, x, y);
    MultiplyKeepsOrder(y, inv1, inv2);
    assert x / a1 == inv1 * x;
    assert y / a1 == inv1 * y && y * inv1 == inv1 * y;
    assert y / a2 == y * inv2;
  }

  lemma InverseDecreasingOrEqual(a: real, b: real)
    requires 0.0 < a <= b
    ensures 1.0 / b <= 1.0 / a
  {
    if a < b { InverseDecreasing(a, b); }
  }

  // ---------------------------------------------------------------------------------------
  // Activation overpotential

  /** Tafel overpotential of one electrode: (RT/(α n F))·ln(i/i0).  The current is checked
      first, then the exchange current, and only then is the logarithm taken. */
  function ActivationEta(currentDensity: real, kinetics: ElectrodeKinetics, temperature: real,
                         m: Funcs, c: Constants := CONSTANTS): (r: Result<real>)
    ensures currentDensity <= 0.0 ==> r == Err(NonPositiveCurrent)
    ensures currentDensity > 0.0 && ExchangeCurrent(kinetics, temperature, m, c).Err? ==>
              r == Err(ZeroDivision)
    ensures currentDensity > 0.0 && ExchangeCurrent(kinetics, temperature, m, c).Ok? &&
            ExchangeCurrent(kinetics, temperature, m, c).value <= 0.0 ==>
              r == Err(NonPositiveExchangeCurrent(kinetics.name))
    ensures r.Ok? <==> currentDensity > 0.0 && ExchangeCurrent(kinetics, temperature, m, c).Ok? &&
                       ExchangeCurrent(kinetics, temperature, m, c).value > 0.0 &&
                       kinetics.alpha * kinetics.electrons as real != 0.0
  {
    if currentDensity <= 0.0 then Err(NonPositiveCurrent)
    else
      var i0 :- ExchangeCurrent(kinetics, temperature, m, c);
      if i0 <= 0.0 then Err(NonPositiveExchangeCurrent(kinetics.name))
      else if kinetics.alpha * kinetics.electrons as real == 0.0 then Err(ZeroDivision)
      else
        Ok(ThermalLogTerm(c.gasConstant, temperature, kinetics.alpha * kinetics.electrons as real * c.faraday,
                          currentDensity / i0, m))
  }

  /** With α·n > 0 and T > 0 the electrode overpotential is strictly increasing in the current. */
  lemma ActivationEtaIncreasing(i1: real, i2: real, kinetics: ElectrodeKinetics, temperature: real,
                                m: Funcs, c: Constants)
    requires m.Lawful() && temperature > 0.0 && kinetics.alpha * kinetics.electrons as real > 0.0
    requires 0.0 < i1 < i2 && ActivationEta(i1, kinetics, temperature, m, c).Ok?
    ensures ActivationEta(i2, kinetics, temperature, m, c).Ok?
    ensures ActivationEta(i1, kinetics, temperature, m, c).value < ActivationEta(i2, kinetics, temperature, m, c).value
  {
    var i0 := ExchangeCurrent(kinetics, temperature, m, c).value;
    DivideKeepsOrder(i1, i2, i0);
    ThermalLogTermIncreasing(c.gasConstant, temperature, kinetics.alpha * kinetics.electrons as real * c.faraday,
                             i1 / i0, i2 / i0, m);
  }

  lemma DivideKeepsOrder(a: real, b: real, d: real)
    requires 0.0 < a < b && d > 0.0
    ensures 0.0 < a / d < b / d
  {
    assert a / d == a * (1.0 / d);
    assert b / d == b * (1.0 / d);
  }

  /** With α·n > 0 and T > 0 the electrode overpotential is positive exactly when the current
      exceeds the exchange current. */
  lemma ActivationEtaSign(i: real, kinetics: ElectrodeKinetics, temperature: real, m: Funcs, c: Constants)
    requires m.Lawful() && temperature > 0.0 && kinetics.alpha * kinetics.electrons as real > 0.0
    requires ActivationEta(i, kinetics, temperature, m, c).Ok?
    ensures ActivationEta(i, kinetics, temperature, m, c).value > 0.0 <==> i > ExchangeCurrent(kinetics, temperature, m, c).value
  {
    var i0 := ExchangeCurrent(kinetics, temperature, m, c).value;
    PositiveRatio(i, i0);
    ThermalLogTermSign(c.gasConstant, temperature, kinetics.alpha * kinetics.electrons as real * c.faraday, i / i0, m);
    RatioAboveOneIff(i, i0);
  }

  lemma RatioAboveOneIff(a: real, b: real)
    requires a > 0.0 && b > 0.0
    ensures a / b > 1.0 <==> a > b
  {
    if a > b { DivideKeepsOrder(b, a, b); assert b / b == 1.0; }
    if a <= b { assert a / b <= b / b by { assert a / b == a * (1.0 / b); assert b / b == b * (1.0 / b); } }
  }

  /** Sum of the anode and cathode overpotentials (anode evaluated first). */
  function ActivationOverpotential(currentDensity: real, kineticsAnode: ElectrodeKinetics,
                                   kineticsCathode: ElectrodeKinetics, temperature: real,
                                   m: Funcs, c: Constants := CONSTANTS): (r: Result<real>)
    ensures r.Ok? <==> ActivationEta(currentDensity, kineticsAnode, temperature, m, c).Ok? &&
                       ActivationEta(currentDensity, kineticsCathode, temperature, m, c).Ok?
    ensures r.Ok? ==> r.value == ActivationEta(currentDensity, kineticsAnode, temperature, m, c).value +
                                 ActivationEta(currentDensity, kineticsCathode, temperature, m, c).value
    ensures ActivationEta(currentDensity, kineticsAnode, temperature, m, c).Err? ==>
              r == Err(ActivationEta(currentDensity, kineticsAnode, temperature, m, c).error)
    ensures ActivationEta(currentDensity, kineticsAnode, temperature, m, c).Ok? &&
            ActivationEta(currentDensity, kineticsCathode, temperature, m, c).Err? ==>
              r == Err(ActivationEta(currentDensity, kineticsCathode, temperature, m, c).error)
  {
    var etaAn :- ActivationEta(currentDensity, kineticsAnode, temperature, m, c);
    var etaCat :- ActivationEta(currentDensity, kineticsCathode, temperature, m, c);
    Ok(etaAn + etaCat)
  }

  /** With α·n > 0 at both electrodes and T > 0 the total activation overpotential is strictly
      increasing in the current. */
  lemma ActivationOverpotentialIncreasing(i1: real, i2: real, kineticsAnode: ElectrodeKinetics,
                                          kineticsCathode: ElectrodeKinetics, temperature: real,
                                          m: Funcs, c: Constants)
    requires m.Lawful() && temperature > 0.0
    requires kineticsAnode.alpha * kineticsAnode.electrons as real > 0.0
    requires kineticsCathode.alpha * kineticsCathode.electrons as real > 0.0
    requires 0.0 < i1 < i2 && ActivationOverpotential(i1, kineticsAnode, kineticsCathode, temperature, m, c).Ok?
    ensures ActivationOverpotential(i2, kineticsAnode, kineticsCathode, temperature, m, c).Ok?
    ensures ActivationOverpotential(i1, kineticsAnode, kineticsCathode, temperature, m, c).value <
            ActivationOverpotential(i2, kineticsAnode, kineticsCathode, temperature, m, c).value
  {
    ActivationEtaIncreasing(i1, i2, kineticsAnode, temperature, m, c);
    ActivationEtaIncreasing(i1, i2, kineticsCathode, temperature, m, c);
  }

  // ---------------------------------------------------------------------------------------
  // Ohmic overpotential

  /** i · (t/κ + R_contact + R_electrolyte).  Only a non-positive conductivity is rejected;
      the current may have any sign. */
  function OhmicOverpotential(currentDensity: real, ohmic: OhmicModel, temperature: real,
                              m: Funcs, c: Constants := CONSTANTS): (r: Result<real>)
    ensures Conductivity(ohmic, temperature, m, c).Err? ==> r == Err(ZeroDivision)
    ensures Conductivity(ohmic, temperature, m, c).Ok? && Conductivity(ohmic, temperature, m, c).value <= 0.0 ==>
              r == Err(NonPositiveConductivity)
    ensures r.Ok? <==> Conductivity(ohmic, temperature, m, c).Ok? && Conductivity(ohmic, temperature, m, c).value > 0.0
  {
    var conductivity :- Conductivity(ohmic, temperature, m, c);
    if conductivity <= 0.0 then Err(NonPositiveConductivity)
    else
      var membraneResistance := ohmic.membraneThicknessCm / conductivity;
      var totalResistance := membraneResistance + ohmic.contactResistance + ohmic.electrolyteResistance;
      Ok(currentDensity * totalResistance)
  }

  /** The ohmic loss is linear in the current: whether it fails does not depend on the current,
      and it maps s·i + j to s·η(i) + η(j). */
  lemma OhmicLinear(i: real, j: real, s: real, ohmic: OhmicModel, temperature: real, m: Funcs, c: Constants)
    ensures OhmicOverpotential(i, ohmic, temperature, m, c).Ok? == OhmicOverpotential(j, ohmic, temperature, m, c).Ok?
    ensures OhmicOverpotential(i, ohmic, temperature, m, c).Ok? ==>
              OhmicOverpotential(s * i + j, ohmic, temperature, m, c).value ==
              s * OhmicOverpotential(i, ohmic, temperature, m, c).value + OhmicOverpotential(j, ohmic, temperature, m, c).value
  {
    if OhmicOverpotential(i, ohmic, temperature, m, c).Ok? {
      var k := Conductivity(ohmic, temperature, m, c).value;
      var rt := ohmic.membraneThicknessCm / k + ohmic.contactResistance + ohmic.electrolyteResistance;
      assert (s * i + j) * rt == s * (i * rt) + j * rt;
    }
  }

  // ---------------------------------------------------------------------------------------
  // Concentration overpotential

  /** (RT/(nF))·ln(i_lim/(i_lim − i)); fails when the current reaches the limiting current. */
  function ConcentrationOverpotential(currentDensity: real, massTransport: MassTransportModel,
                                      temperature: real, electrons: int, m: Funcs,
                                      c: Constants := CONSTANTS): (r: Result<real>)
    ensures LimitingCurrent(massTransport, temperature, m, c).Err? ==> r == Err(ZeroDivision)
    ensures LimitingCurrent(massTransport, temperature, m, c).Ok? &&
            currentDensity >= LimitingCurrent(massTransport, temperature, m, c).value ==>
              r == Err(LimitCurrentExceeded)
    ensures r.Ok? <==> LimitingCurrent(massTransport, temperature, m, c).Ok? &&
                       currentDensity < LimitingCurrent(massTransport, temperature, m, c).value &&
                       LimitingCurrent(massTransport, temperature, m, c).value > 0.0 && electrons != 0
  {
    var iLim :- LimitingCurrent(massTransport, temperature, m, c);
    if currentDensity >= iLim then Err(LimitCurrentExceeded)
    else if electrons == 0 then Err(ZeroDivision)
    else
      var ratio := iLim / (iLim - currentDensity);
      if ratio <= 0.0 then Err(LogDomain)
      else Ok(ThermalLogTerm(c.gasConstant, temperature, electrons as real * c.faraday, ratio, m))
  }

  /** For 0 < i < i_lim (and n, T > 0) the concentration loss is positive. */
  lemma ConcentrationPositive(i: real, massTransport: MassTransportModel, temperature: real, electrons: int,
                              m: Funcs, c: Constants)
    requires m.Lawful() && temperature > 0.0 && electrons > 0
    requires LimitingCurrent(massTransport, temperature, m, c).Ok?
    requires 0.0 < i < LimitingCurrent(massTransport, temperature, m, c).value
    ensures ConcentrationOverpotential(i, massTransport, temperature, electrons, m, c).Ok?
    ensures ConcentrationOverpotential(i, massTransport, temperature, electrons, m, c).value > 0.0
  {
    var iLim := LimitingCurrent(massTransport, temperature, m, c).value;
    RatioAboveOne(iLim, i);
    ThermalLogTermSign(c.gasConstant, temperature, electrons as real * c.faraday, iLim / (iLim - i), m);
  }

  lemma RatioAboveOne(iLim: real, i: real)
    requires 0.0 < i < iLim
    ensures iLim / (iLim - i) > 1.0
  {
    var d := iLim - i;
    assert 0.0 < d < iLim;
    DivideKeepsOrder(d, iLim, d);
    assert d / d == 1.0;
  }

  /** Below a positive limiting current the concentration loss is strictly increasing in the
      current (it grows without bound towards i_lim in the true model). */
  lemma ConcentrationIncreasing(i1: real, i2: real, massTransport: MassTransportModel, temperature: real,
                                electrons: int, m: Funcs, c: Constants)
    requires m.Lawful() && temperature > 0.0 && electrons > 0
    requires LimitingCurrent(massTransport, temperature, m, c).Ok?
    requires LimitingCurrent(massTransport, temperature, m, c).value > 0.0
    requires i1 < i2 < LimitingCurrent(massTransport, temperature, m, c).value
    ensures ConcentrationOverpotential(i1, massTransport, temperature, electrons, m, c).Ok?
    ensures ConcentrationOverpotential(i2, massTransport, temperature, electrons, m, c).Ok?
    ensures ConcentrationOverpotential(i1, massTransport, temperature, electrons, m, c).value <
            ConcentrationOverpotential(i2, massTransport, temperature, electrons, m, c).value
  {
    var iLim := LimitingCurrent(massTransport, temperature, m, c).value;
    RatioIncreasing(iLim, i1, i2);
    ThermalLogTermIncreasing(c.gasConstant, temperature, electrons as real * c.faraday,
                             iLim / (iLim - i1), iLim / (iLim - i2), m);
  }

  lemma RatioIncreasing(iLim: real, i1: real, i2: real)
    requires i1 < i2 < iLim && iLim > 0.0
    ensures 0.0 < iLim / (iLim - i1) < iLim / (iLim - i2)
  {
    var d1, d2 := iLim - i1, iLim - i2;
    assert 0.0 < d2 < d1;
    InverseDecreasing(d2, d1);
    assert iLim / d1 == iLim * (1.0 / d1);
    assert iLim / d2 == iLim * (1.0 / d2);
  }

  lemma StrictlyScaled(p: real, x: real, y: real)
    requires p > 0.0 && x < y
    ensures p * x < p * y
  {
  }

  // ---------------------------------------------------------------------------------------
  // Cell voltage and polarization curve

  /** V_ideal + η_act + η_ohm + η_conc, evaluated in that order; the concentration term uses the
      electron count of the thermodynamic model. */
  function CellVoltage(currentDensity: real, config: ElectrolyzerConfig, m: Funcs,
                       c: Constants := CONSTANTS): (r: Result<real>)
    ensures r.Ok? <==>
              && NernstPotential(config.conditions, config.thermo, m, c).Ok?
              && ActivationOverpotential(currentDensity, config.kineticsAnode, config.kineticsCathode,
                                         config.conditions.temperature, m, c).Ok?
              && OhmicOverpotential(currentDensity, config.ohmic, config.conditions.temperature, m, c).Ok?
              && ConcentrationOverpotential(currentDensity, config.massTransport, config.conditions.temperature,
                                            config.thermo.electrons, m, c).Ok?
    ensures r.Ok? ==>
              r.value == NernstPotential(config.conditions, config.thermo, m, c).value
                         + ActivationOverpotential(currentDensity, config.kineticsAnode, config.kineticsCathode,
                                                   config.conditions.temperature, m, c).value
                         + OhmicOverpotential(currentDensity, config.ohmic, config.conditions.temperature, m, c).value
                         + ConcentrationOverpotential(currentDensity, config.massTransport,
                                                      config.conditions.temperature, config.thermo.electrons, m, c).value
  {
    var vIdeal :- NernstPotential(config.conditions, config.thermo, m, c);
    var etaAct :- ActivationOverpotential(currentDensity, config.kineticsAnode, config.kineticsCathode,
                                          config.conditions.temperature, m, c);
    var etaOhm :- OhmicOverpotential(currentDensity, config.ohmic, config.conditions.temperature, m, c);
    var etaConc :- ConcentrationOverpotential(currentDensity, config.massTransport, config.conditions.temperature,
                                              config.thermo.electrons, m, c);
    Ok(vIdeal + etaAct + etaOhm + etaConc)
  }

  /** The terms are evaluated in order and the first one that fails decides the error. */
  lemma CellVoltageFirstFailure(currentDensity: real, config: ElectrolyzerConfig, m: Funcs, c: Constants)
    ensures var vIdeal := NernstPotential(config.conditions, config.thermo, m, c);
            vIdeal.Err? ==> CellVoltage(currentDensity, config, m, c) == Err(vIdeal.error)
    ensures var vIdeal := NernstPotential(config.conditions, config.thermo, m, c);
            var etaAct := ActivationOverpotential(currentDensity, config.kineticsAnode, config.kineticsCathode,
                                                  config.conditions.temperature, m, c);
            vIdeal.Ok? && etaAct.Err? ==> CellVoltage(currentDensity, config, m, c) == Err(etaAct.error)
    ensures var vIdeal := NernstPotential(config.conditions, config.thermo, m, c);
            var etaAct := ActivationOverpotential(currentDensity, config.kineticsAnode, config.kineticsCathode,
                                                  config.conditions.temperature, m, c);
            var etaOhm := OhmicOverpotential(currentDensity, config.ohmic, config.conditions.temperature, m, c);
            vIdeal.Ok? && etaAct.Ok? && etaOhm.Err? ==> CellVoltage(currentDensity, config, m, c) == Err(etaOhm.error)
    ensures var vIdeal := NernstPotential(config.conditions, config.thermo, m, c);
            var etaAct := ActivationOverpotential(currentDensity, config.kineticsAnode, config.kineticsCathode,
                                                  config.conditions.temperature, m, c);
            var etaOhm := OhmicOverpotential(currentDensity, config.ohmic, config.conditions.temperature, m, c);
            var etaConc := ConcentrationOverpotential(currentDensity, config.massTransport, config.conditions.temperature,
                                                      config.thermo.electrons, m, c);
            vIdeal.Ok? && etaAct.Ok? && etaOhm.Ok? && etaConc.Err? ==>
              CellVoltage(currentDensity, config, m, c) == Err(etaConc.error)
  {
  }

  /** A non-positive current density never yields a voltage: either the ideal voltage already
      fails or the activation loss rejects the current. */
  lemma CellVoltageRejectsNonPositiveCurrent(currentDensity: real, config: ElectrolyzerConfig, m: Funcs, c: Constants)
    requires currentDensity <= 0.0
    ensures CellVoltage(currentDensity, config, m, c).Err?
    ensures NernstPotential(config.conditions, config.thermo, m, c).Ok? ==>
              CellVoltage(currentDensity, config, m, c) == Err(NonPositiveCurrent)
  {
    assert ActivationEta(currentDensity, config.kineticsAnode, config.conditions.temperature, m, c) == Err(NonPositiveCurrent);
  }

  /** `[cell_voltage(i) for i in currents]`. */
  function PolarizationCurve(currents: seq<real>, config: ElectrolyzerConfig, m: Funcs,
                             c: Constants := CONSTANTS): (r: Result<seq<real>>)
    ensures r.Ok? <==> forall k :: 0 <= k < |currents| ==> CellVoltage(currents[k], config, m, c).Ok?
    ensures r.Ok? ==> |r.value| == |currents| &&
                      forall k :: 0 <= k < |currents| ==> r.value[k] == CellVoltage(currents[k], config, m, c).value
    ensures r.Err? ==> exists k :: && 0 <= k < |currents|
                                   && (forall j :: 0 <= j < k ==> CellVoltage(currents[j], config, m, c).Ok?)
                                   && CellVoltage(currents[k], config, m, c).Err?
                                   && r.error == CellVoltage(currents[k], config, m, c).error
  {
    var f := i => CellVoltage(i, config, m, c);
    MapAllSpec(f, currents);
    MapAll(f, currents)
  }
}
