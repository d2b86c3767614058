/** High-level facades: an electrolyzer simulator bound to one configuration and a catalyst
    analyzer bound to one catalyst, temperature and pH.  Both only delegate to the engines and
    sum their results; neither is ever updated after construction. */
module Simulation {
  import opened Results
  import opened Constants
  import opened Models
  import opened Transcendental
  import opened Electrochemistry
  import Orr

  const ANALYZER_DEFAULT_TEMPERATURE := 298.15  // K

  /** The per-term voltage breakdown, keyed in the source as V_ideal, eta_activacion,
      eta_ohmico, eta_concentracion and V_total. */
  datatype Breakdown = Breakdown(vIdeal: real, etaActivation: real, etaOhmic: real, etaConcentration: real,
                                 vTotal: real)

  datatype ElectrolyzerSimulator = ElectrolyzerSimulator(config: ElectrolyzerConfig, constants: Constants := CONSTANTS)
  {
    /** The cell voltage of the bound configuration. */
    function Voltage(currentDensity: real, m: Funcs): (r: Result<real>)
      ensures r == CellVoltage(currentDensity, config, m, constants)
      ensures currentDensity <= 0.0 ==> r.Err?
      ensures r.Ok? <==> CellVoltage(currentDensity, config, m, constants).Ok?
      ensures r.Ok? ==>
                r.value == NernstPotential(config.conditions, config.thermo, m, constants).value
                           + ActivationOverpotential(currentDensity, config.kineticsAnode, config.kineticsCathode,
                                                     config.conditions.temperature, m, constants).value
                           + OhmicOverpotential(currentDensity, config.ohmic, config.conditions.temperature, m,
                                                constants).value
                           + ConcentrationOverpotential(currentDensity, config.massTransport,
                                                        config.conditions.temperature, config.thermo.electrons, m,
                                                        constants).value
    {
      if currentDensity <= 0.0 then
        CellVoltageRejectsNonPositiveCurrent(currentDensity, config, m, constants);
        CellVoltage(currentDensity, config, m, constants)
      else CellVoltage(currentDensity, config, m, constants)
    }

    /** Each term evaluated on its own, then their sum.  The terms are evaluated in the same
        order as in the cell voltage, so the first failing term decides the error there too. */
    function VoltageBreakdown(currentDensity: real, m: Funcs): (r: Result<Breakdown>)
      ensures r.Ok? <==> Voltage(currentDensity, m).Ok?
      ensures r.Err? ==> r.error == Voltage(currentDensity, m).error
      ensures r.Ok? ==> r.value.vTotal == r.value.vIdeal + r.value.etaActivation + r.value.etaOhmic +
                                         r.value.etaConcentration
      ensures r.Ok? ==> r.value.vTotal == Voltage(currentDensity, m).value
      ensures r.Ok? ==> && r.value.vIdeal == NernstPotential(config.conditions, config.thermo, m, constants).value
                        && r.value.etaActivation ==
                           ActivationOverpotential(currentDensity, config.kineticsAnode, config.kineticsCathode,
                                                   config.conditions.temperature, m, constants).value
                        && r.value.etaOhmic ==
                           OhmicOverpotential(currentDensity, config.ohmic, config.conditions.temperature, m,
                                              constants).value
                        && r.value.etaConcentration ==
                           ConcentrationOverpotential(currentDensity, config.massTransport,
                                                      config.conditions.temperature, config.thermo.electrons, m,
                                                      constants).value
    {
      var conds := config.conditions;
      var vIdeal :- NernstPotential(conds, config.thermo, m, constants);
      var etaAct :- ActivationOverpotential(currentDensity, config.kineticsAnode, config.kineticsCathode,
                                            conds.temperature, m, constants);
      var etaOhm :- OhmicOverpotential(currentDensity, config.ohmic, conds.temperature, m, constants);
      var etaConc :- ConcentrationOverpotential(currentDensity, config.massTransport, conds.temperature,
                                                config.thermo.electrons, m, constants);
      CellVoltageFirstFailure(currentDensity, config, m, constants);
      Ok(Breakdown(vIdeal, etaAct, etaOhm, etaConc, vIdeal + etaAct + etaOhm + etaConc))
    }

    /** The voltage at every current, in order; one failing point fails the whole curve. */
    function PolarizationCurve(currents: seq<real>, m: Funcs): (r: Result<seq<real>>)
      ensures r.Ok? <==> forall k :: 0 <= k < |currents| ==> Voltage(currents[k], m).Ok?
      ensures r.Ok? ==> |r.value| == |currents| &&
                        forall k :: 0 <= k < |currents| ==> r.value[k] == Voltage(currents[k], m).value
      ensures r.Err? ==> exists k :: && 0 <= k < |currents|
                                     && (forall j :: 0 <= j < k ==> Voltage(currents[j], m).Ok?)
                                     && Voltage(currents[k], m).Err?
                                     && r.error == Voltage(currents[k], m).error
      ensures r == Electrochemistry.PolarizationCurve(currents, config, m, constants)
    {
      Electrochemistry.PolarizationCurve(currents, config, m, constants)
    }
  }

  datatype CatalystAnalyzer = CatalystAnalyzer(catalyst: Catalyst, temperature: real := ANALYZER_DEFAULT_TEMPERATURE,
                                               pH: real := 0.0, constants: Constants := CONSTANTS)
  {
    /** The free energy of an intermediate at the bound temperature and pH. */
    function FreeEnergy(potential: real, intermediate: string, m: Funcs): (r: Result<real>)
      ensures r == Orr.FreeEnergy(catalyst, intermediate, potential, pH, temperature, m, constants)
      ensures r.Err? <==> intermediate !in catalyst.intermediates
      ensures r.Err? ==> r.error == MissingIntermediate(intermediate)
      ensures r.Ok? && pH == 0.0 ==>
                var data := catalyst.intermediates[intermediate];
                r.value == data.deltaE + data.deltaZpe - temperature * data.deltaS + data.electrons as real * potential
    {
      var r := Orr.FreeEnergy(catalyst, intermediate, potential, pH, temperature, m, constants);
      if intermediate in catalyst.intermediates then
        Orr.FreeEnergyAtPhZero(catalyst, intermediate, potential, temperature, m, constants);
        r
      else r
    }

    /** The dominant-pathway decision at the bound temperature and pH. */
    function LimitingBarriers(potential: real, m: Funcs): (r: Result<Orr.Decision>)
      ensures r == Orr.DominantPathway(catalyst, potential, temperature, pH, m)
      ensures r.Ok? <==> Orr.DissociativePathway(catalyst, potential, temperature, pH, m).Ok?
      ensures r.Ok? ==> && r.value.barrier <= catalyst.dissociationBarrier
                        && r.value.barrier <= Orr.AssociativeBarrier(catalyst, potential)
                        && r.value.barrier <= Orr.DissociativePathway(catalyst, potential, temperature, pH, m).value.limiting
    {
      Orr.DominantPathway(catalyst, potential, temperature, pH, m)
    }

    /** The activity over the dominant barrier at the bound temperature and pH. */
    function Activity(potential: real, m: Funcs): (r: Result<real>)
      ensures r == Orr.Activity(catalyst, potential, temperature, pH, m, constants)
      ensures r.Ok? <==> LimitingBarriers(potential, m).Ok? && temperature > 0.0
      ensures LimitingBarriers(potential, m).Ok? && temperature <= 0.0 ==> r == Err(InvalidTemperature)
      ensures r.Ok? && m.Lawful() ==> r.value > 0.0
    {
      Orr.Activity(catalyst, potential, temperature, pH, m, constants)
    }

    /** The activity at every potential, in order; one failing potential fails the profile. */
    function ActivityProfile(potentials: seq<real>, m: Funcs): (r: Result<seq<real>>)
      ensures r.Ok? <==> forall k :: 0 <= k < |potentials| ==> Activity(potentials[k], m).Ok?
      ensures r.Ok? ==> |r.value| == |potentials| &&
                        forall k :: 0 <= k < |potentials| ==> r.value[k] == Activity(potentials[k], m).value
      ensures r.Err? ==> exists k :: && 0 <= k < |potentials|
                                     && (forall j :: 0 <= j < k ==> Activity(potentials[j], m).Ok?)
                                     && Activity(potentials[k], m).Err?
                                     && r.error == Activity(potentials[k], m).error
    {
      var f := u => Activity(u, m);
      MapAllSpec(f, potentials);
      MapAll(f, potentials)
    }
  }

  /** A fresh analyzer works at 298.15 K and pH 0 with the default constants. */
  lemma AnalyzerDefaults(catalyst: Catalyst)
    ensures CatalystAnalyzer(catalyst).temperature == 298.15
    ensures CatalystAnalyzer(catalyst).pH == 0.0
    ensures CatalystAnalyzer(catalyst).constants == CONSTANTS
  {
  }
}
