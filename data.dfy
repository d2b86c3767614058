/** Example parameters: the default 80 °C cell and the catalogue of six metal catalysts, with
    the facts about them that the engine relies on. */
module Data {
  import opened Results
  import opened Constants
  import opened Models
  import opened Transcendental
  import opened Electrochemistry
  import opened Orr

  const DEFAULT_TEMPERATURE := 353.15  // K (80 °C)

  const DEFAULT_CONDITIONS := OperatingConditions(
    temperature := DEFAULT_TEMPERATURE,
    pressureTotal := 1.0,
    pressureH2 := 1.0,
    pressureO2 := 1.0,
    activityH2O := 1.0,
    pH := 0.0)

  const DEFAULT_THERMO := ThermoModel()

  const KINETICS_ANODE := ElectrodeKinetics(
    i0Ref := 1e-9,
    activationEnergy := Some(65_000.0),
    alpha := 0.5,
    electrons := 2,
    name := "anodo")

  const KINETICS_CATHODE := ElectrodeKinetics(
    i0Ref := 1e-3,
    activationEnergy := Some(35_000.0),
    alpha := 0.5,
    electrons := 2,
    name := "catodo")

  const OHMIC_MODEL := OhmicModel(
    conductivityRef := 0.1,
    activationEnergy := Some(15_000.0),
    membraneThicknessCm := 0.005,  // 50 µm
    contactResistance := 0.02,
    electrolyteResistance := 0.05)

  const MASS_TRANSPORT := MassTransportModel(
    limitCurrentRef := 5.0,
    activationEnergy := Some(12_000.0))

  const DEFAULT_CONFIG := ElectrolyzerConfig(
    thermo := DEFAULT_THERMO,
    kineticsAnode := KINETICS_ANODE,
    kineticsCathode := KINETICS_CATHODE,
    ohmic := OHMIC_MODEL,
    massTransport := MASS_TRANSPORT,
    conditions := DEFAULT_CONDITIONS)

  const PT_INTERMEDIATES: map<string, IntermediateData> := map[
    "O*" := IntermediateData(deltaE := 1.57, deltaZpe := 0.05, deltaS := 1.34e-4, electrons := 0, protons := 0),
    "OH*" := IntermediateData(deltaE := 1.05, deltaZpe := 0.35, deltaS := 2.0e-3, electrons := 1, protons := 1)]

  const PT := Catalyst(name := "Pt", dEO := 1.57, dEOH := 1.05, deltaG1U0 := 0.45, deltaG2U0 := 0.43,
                       dissociationBarrier := 0.0, intermediates := PT_INTERMEDIATES)

  /** The catalogue, keyed by symbol. */
  const CATALYSTS: map<string, Catalyst> := map[
    "Pt" := PT,
    "Pd" := Catalyst(name := "Pd", dEO := 1.53, dEOH := 0.92, deltaG1U0 := 0.36, deltaG2U0 := 0.56,
                     dissociationBarrier := 0.15),
    "Au" := Catalyst(name := "Au", dEO := 2.75, dEOH := 1.49, deltaG1U0 := -0.29, deltaG2U0 := -0.01,
                     dissociationBarrier := 2.06),
    "Ni" := Catalyst(name := "Ni", dEO := 0.34, dEOH := 0.13, deltaG1U0 := 0.76, deltaG2U0 := 1.35,
                     dissociationBarrier := 0.40),
    "Ir" := Catalyst(name := "Ir", dEO := 1.0, dEOH := 0.63, deltaG1U0 := 0.60, deltaG2U0 := 0.85,
                     dissociationBarrier := 0.20),
    "Rh" := Catalyst(name := "Rh", dEO := 0.44, dEOH := 0.34, deltaG1U0 := 0.87, deltaG2U0 := 1.14,
                     dissociationBarrier := 0.50)]

  /** Unit pressures and water activity make the default ideal voltage the standard potential
      at 353.15 K, which is defined because the default reaction moves two electrons. */
  lemma DefaultIdealVoltage(m: Funcs, c: Constants)
    requires m.Lawful()
    ensures NernstPotential(DEFAULT_CONDITIONS, DEFAULT_THERMO, m, c) == DEFAULT_THERMO.StandardPotential(353.15, c)
    ensures NernstPotential(DEFAULT_CONDITIONS, DEFAULT_THERMO, m, c).Ok?
    ensures NernstPotential(DEFAULT_CONDITIONS, DEFAULT_THERMO, m, c).value * (2.0 * c.faraday) ==
            285_830.0 - 353.15 * 163.0
  {
    NernstAtUnitActivities(DEFAULT_CONDITIONS, DEFAULT_THERMO, m, c);
  }

  /** Every default reference value is positive, so at any non-zero temperature the derived
      exchange currents, conductivity and limiting current are defined and positive. */
  lemma DefaultDerivedPositive(temperature: real, m: Funcs, c: Constants)
    requires m.Lawful() && temperature != 0.0
    ensures ExchangeCurrent(KINETICS_ANODE, temperature, m, c).Ok?
    ensures ExchangeCurrent(KINETICS_ANODE, temperature, m, c).value > 0.0
    ensures ExchangeCurrent(KINETICS_CATHODE, temperature, m, c).Ok?
    ensures ExchangeCurrent(KINETICS_CATHODE, temperature, m, c).value > 0.0
    ensures Conductivity(OHMIC_MODEL, temperature, m, c).Ok?
    ensures Conductivity(OHMIC_MODEL, temperature, m, c).value > 0.0
    ensures LimitingCurrent(MASS_TRANSPORT, temperature, m, c).Ok?
    ensures LimitingCurrent(MASS_TRANSPORT, temperature, m, c).value > 0.0
  {
    ArrheniusKeepsSign(KINETICS_ANODE.i0Ref, KINETICS_ANODE.activationEnergy, temperature,
                       KINETICS_ANODE.referenceTemperature, m, c);
    ArrheniusKeepsSign(KINETICS_CATHODE.i0Ref, KINETICS_CATHODE.activationEnergy, temperature,
                       KINETICS_CATHODE.referenceTemperature, m, c);
    ArrheniusKeepsSign(OHMIC_MODEL.conductivityRef, OHMIC_MODEL.activationEnergy, temperature,
                       OHMIC_MODEL.referenceTemperature, m, c);
    ArrheniusKeepsSign(MASS_TRANSPORT.limitCurrentRef, MASS_TRANSPORT.activationEnergy, temperature,
                       MASS_TRANSPORT.referenceTemperature, m, c);
  }

  /** With a positive activation energy and 353.15 K above the 298.15 K reference, the default
      limiting current exceeds its 5 A/cm² reference, so every current in (0, 5] passes the
      limiting-current check and has a defined, positive concentration loss. */
  lemma DefaultLimitingCurrentAboveReference(i: real, m: Funcs, c: Constants)
    requires m.Lawful()
    ensures LimitingCurrent(MASS_TRANSPORT, DEFAULT_TEMPERATURE, m, c).Ok?
    ensures LimitingCurrent(MASS_TRANSPORT, DEFAULT_TEMPERATURE, m, c).value > 5.0
    ensures 0.0 < i <= 5.0 ==>
              && ConcentrationOverpotential(i, MASS_TRANSPORT, DEFAULT_TEMPERATURE, DEFAULT_THERMO.electrons, m, c).Ok?
              && ConcentrationOverpotential(i, MASS_TRANSPORT, DEFAULT_TEMPERATURE, DEFAULT_THERMO.electrons, m, c).value > 0.0
  {
    ArrheniusGrowsAboveReference(5.0, 12_000.0, DEFAULT_TEMPERATURE, 298.15, m, c);
    if 0.0 < i <= 5.0 {
      ConcentrationPositive(i, MASS_TRANSPORT, DEFAULT_TEMPERATURE, DEFAULT_THERMO.electrons, m, c);
    }
  }

  /** Together: at the default conditions every current in (0, 5] A/cm² has a defined cell
      voltage, so the default sweep never fails. */
  lemma DefaultCellVoltageDefined(i: real, m: Funcs, c: Constants)
    requires m.Lawful() && 0.0 < i <= 5.0
    ensures CellVoltage(i, DEFAULT_CONFIG, m, c).Ok?
  {
    DefaultIdealVoltage(m, c);
    DefaultDerivedPositive(DEFAULT_TEMPERATURE, m, c);
    DefaultLimitingCurrentAboveReference(i, m, c);
  }

  /** The catalogue holds exactly the six metals, each filed under its own name. */
  lemma CatalogKeys()
    ensures CATALYSTS.Keys == {"Pt", "Pd", "Au", "Ni", "Ir", "Rh"}
    ensures forall key :: key in CATALYSTS ==> CATALYSTS[key].name == key
  {
  }

  /** Only Pt carries DFT intermediates, and it carries both that the dissociative pathway
      needs; every other metal takes the fallback barriers and Pt's DFT pathway never fails. */
  lemma OnlyPtHasIntermediates(potential: real, temperature: real, pH: real, m: Funcs)
    ensures forall key :: key in CATALYSTS ==> (CATALYSTS[key].intermediates != map[] <==> key == "Pt")
    ensures "O*" in CATALYSTS["Pt"].intermediates && "OH*" in CATALYSTS["Pt"].intermediates
    ensures DissociativePathway(CATALYSTS["Pt"], potential, temperature, pH, m).Ok?
    ensures forall key :: key in CATALYSTS && key != "Pt" ==>
              DissociativePathway(CATALYSTS[key], potential, temperature, pH, m).value.deltaG1 ==
              ScaleBarrier(CATALYSTS[key].deltaG1U0, potential)
  {
    assert "O*" in PT_INTERMEDIATES && PT_INTERMEDIATES != map[];
    forall key | key in CATALYSTS && key != "Pt"
      ensures DissociativePathway(CATALYSTS[key], potential, temperature, pH, m).value.deltaG1 ==
              ScaleBarrier(CATALYSTS[key].deltaG1U0, potential)
    {
      assert CATALYSTS[key].intermediates == map[];
    }
  }

  /** Pt's O₂ dissociation barrier is zero, so its dominant barrier never exceeds zero. */
  lemma PtDominantBarrierNonPositive(potential: real, temperature: real, pH: real, m: Funcs)
    ensures DominantPathway(CATALYSTS["Pt"], potential, temperature, pH, m).Ok?
    ensures DominantPathway(CATALYSTS["Pt"], potential, temperature, pH, m).value.barrier <= 0.0
  {
    OnlyPtHasIntermediates(potential, temperature, pH, m);
  }

  /** A non-positive barrier gives Pt an activity of at least one at every positive temperature. */
  lemma PtActivityAtLeastOne(potential: real, temperature: real, pH: real, m: Funcs, c: Constants)
    requires m.Lawful() && temperature > 0.0
    ensures Activity(CATALYSTS["Pt"], potential, temperature, pH, m, c).Ok?
    ensures Activity(CATALYSTS["Pt"], potential, temperature, pH, m, c).value >= 1.0
  {
    PtDominantBarrierNonPositive(potential, temperature, pH, m);
    ActivityAtLeastOne(CATALYSTS["Pt"], potential, temperature, pH, m, c);
  }
}
