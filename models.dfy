/** Parameter records of the simulator.  Each Python dataclass becomes a datatype whose
    constructor carries the same defaults; optional activation energies are `Option<real>`. */
module Models {
  import opened Results
  import opened Constants

  const DEFAULT_REFERENCE_TEMPERATURE := 298.15  // K

  /** Thermodynamic and chemical state of the cell (pressures in bar). */
  datatype OperatingConditions = OperatingConditions(
    temperature: real,
    pressureTotal: real := 1.0,
    pressureH2: real := 1.0,
    pressureO2: real := 1.0,
    activityH2O: real := 1.0,
    pH: real := 0.0)

  /** Reference thermodynamics of the reversible potential. */
  datatype ThermoModel = ThermoModel(
    deltaHRef: real := 285_830.0,   // J/mol
    deltaSRef: real := 163.0,       // J/(mol K)
    referenceTemperature: real := 298.15,
    referencePotential: real := 1.23,
    electrons: int := 2)
  {
    /** V°(T) = ΔG(T) / (nF) with ΔG(T) = ΔH_ref − T·ΔS_ref; a zero electron count makes the
        division fail. */
    function StandardPotential(temperature: real, c: Constants := CONSTANTS): (r: Result<real>)
      ensures r.Err? <==> electrons == 0
      ensures r.Err? ==> r.error == ZeroDivision
      ensures r.Ok? ==> r.value * (electrons as real * c.faraday) == deltaHRef - temperature * deltaSRef
    {
      if electrons == 0 then Err(ZeroDivision)
      else Ok((deltaHRef - temperature * deltaSRef) / (electrons as real * c.faraday))
    }
  }

  /** Tafel/Arrhenius kinetics of one electrode. */
  datatype ElectrodeKinetics = ElectrodeKinetics(
    i0Ref: real,                       // A/cm2
    activationEnergy: Option<real>,    // J/mol
    alpha: real,
    electrons: int := 2,
    referenceTemperature: real := 298.15,
    name: string := "electrode")

  /** Simplified ohmic path: membrane plus contact and electrolyte resistances. */
  datatype OhmicModel = OhmicModel(
    conductivityRef: real,             // S/cm
    activationEnergy: Option<real>,
    membraneThicknessCm: real,
    contactResistance: real,           // Ohm cm2
    electrolyteResistance: real,       // Ohm cm2
    referenceTemperature: real := 298.15)

  /** Limiting-current parameters. */
  datatype MassTransportModel = MassTransportModel(
    limitCurrentRef: real,             // A/cm2
    activationEnergy: Option<real>,
    referenceTemperature: real := 298.15)

  /** DFT thermochemistry of one adsorbed intermediate (energies in eV, entropy in eV/K). */
  datatype IntermediateData = IntermediateData(
    deltaE: real,
    deltaZpe: real := 0.0,
    deltaS: real := 0.0,
    electrons: int := 0,
    protons: int := 0)

  /** A metal catalyst: adsorption energies, barriers at the reference potential, optional
      DFT intermediates and optional coefficients of the associative linear model. */
  datatype Catalyst = Catalyst(
    name: string,
    dEO: real,
    dEOH: real,
    deltaG1U0: real,
    deltaG2U0: real,
    dissociationBarrier: real,
    intermediates: map<string, IntermediateData> := map[],
    associativeLinearCoeff: Option<real> := None,
    associativeIntercept: Option<real> := None)

  /** Everything a cell simulation needs. */
  datatype ElectrolyzerConfig = ElectrolyzerConfig(
    thermo: ThermoModel,
    kineticsAnode: ElectrodeKinetics,
    kineticsCathode: ElectrodeKinetics,
    ohmic: OhmicModel,
    massTransport: MassTransportModel,
    conditions: OperatingConditions)

  /** ΔS_ref > 0 makes the standard potential strictly decreasing in temperature. */
  lemma StandardPotentialDecreasing(thermo: ThermoModel, t1: real, t2: real, c: Constants)
    requires thermo.deltaSRef > 0.0 && thermo.electrons > 0 && t1 < t2
    ensures thermo.StandardPotential(t1, c).Ok? && thermo.StandardPotential(t2, c).Ok?
    ensures thermo.StandardPotential(t1, c).value > thermo.StandardPotential(t2, c).value
  {
    var d := thermo.electrons as real * c.faraday;
    assert d > 0.0;
    var g1 := thermo.deltaHRef - t1 * thermo.deltaSRef;
    var g2 := thermo.deltaHRef - t2 * thermo.deltaSRef;
    assert g1 - g2 == (t2 - t1) * thermo.deltaSRef;
    assert g1 > g2;
    assert g1 / d - g2 / d == (g1 - g2) / d;
  }

  /** The dataclass defaults. */
  lemma RecordDefaults(temperature: real, name: string)
    ensures var cond := OperatingConditions(temperature);
            cond.pressureTotal == cond.pressureH2 == cond.pressureO2 == cond.activityH2O == 1.0 && cond.pH == 0.0
    ensures ThermoModel().electrons == 2 && ThermoModel().referenceTemperature == DEFAULT_REFERENCE_TEMPERATURE
    ensures ThermoModel().deltaSRef == 163.0 && ThermoModel().deltaHRef == 285_830.0
    ensures var k := ElectrodeKinetics(1.0, None, 0.5);
            k.electrons == 2 && k.referenceTemperature == DEFAULT_REFERENCE_TEMPERATURE && k.name == "electrode"
    ensures var cat := Catalyst(name, 0.0, 0.0, 0.0, 0.0, 0.0);
            cat.intermediates == map[] && cat.associativeLinearCoeff.None? && cat.associativeIntercept.None?
  {
  }
}
