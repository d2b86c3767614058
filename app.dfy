/** The three pure helpers of the web front end that feed the engine: the current-range
    validator, the component-id builder and the simulator factory that overrides only the
    temperature and pH of the default configuration. */
module App {
  import opened Results
  import opened Constants
  import opened Models
  import opened Transcendental
  import opened Electrochemistry
  import opened Simulation
  import opened Data

  const MISSING_CURRENTS_MESSAGE := "Completa los valores de corriente para generar la simulacion."
  const NON_POSITIVE_CURRENTS_MESSAGE := "Las corrientes deben ser mayores que cero."
  const UNORDERED_CURRENTS_MESSAGE := "La corriente minima debe ser menor que la maxima."
  const NON_POSITIVE_FOCUS_MESSAGE := "La corriente de referencia debe ser mayor que cero."

  /** A copy of the default configuration with the given temperature (K) and pH, wrapped in a
      simulator with the default constants. */
  function BuildConfig(temperature: real, pH: real): (sim: ElectrolyzerSimulator)
    ensures sim.config.conditions.temperature == temperature && sim.config.conditions.pH == pH
    ensures sim.config.conditions.(temperature := DEFAULT_CONDITIONS.temperature, pH := DEFAULT_CONDITIONS.pH) ==
            DEFAULT_CONDITIONS
    ensures sim.config.(conditions := DEFAULT_CONDITIONS) == DEFAULT_CONFIG
    ensures sim.constants == CONSTANTS
  {
    var conditions := DEFAULT_CONFIG.conditions.(temperature := temperature, pH := pH);
    ElectrolyzerSimulator(DEFAULT_CONFIG.(conditions := conditions))
  }

  /** The form's defaults give back the default configuration itself. */
  lemma BuildConfigAtDefaults()
    ensures BuildConfig(DEFAULT_TEMPERATURE, 0.0).config == DEFAULT_CONFIG
  {
    var sim := BuildConfig(DEFAULT_TEMPERATURE, 0.0);
    assert sim.config.conditions == DEFAULT_CONDITIONS;
  }

  /** Checks the sweep bounds and the focus current in order; the first failing check decides
      the message, and `None` means the inputs are usable. */
  function ValidateCurrents(currentMin: Option<real>, currentMax: Option<real>, focusCurrent: Option<real>): (r: Option<string>)
    ensures r.None? <==> && currentMin.Some? && currentMax.Some? && focusCurrent.Some?
                         && 0.0 < currentMin.value < currentMax.value && focusCurrent.value > 0.0
    ensures currentMin.None? || currentMax.None? || focusCurrent.None? ==> r == Some(MISSING_CURRENTS_MESSAGE)
    ensures currentMin.Some? && currentMax.Some? && focusCurrent.Some? ==>
              && (currentMin.value <= 0.0 || currentMax.value <= 0.0 ==> r == Some(NON_POSITIVE_CURRENTS_MESSAGE))
              && (0.0 < currentMax.value <= currentMin.value ==> r == Some(UNORDERED_CURRENTS_MESSAGE))
              && (0.0 < currentMin.value < currentMax.value && focusCurrent.value <= 0.0 ==>
                    r == Some(NON_POSITIVE_FOCUS_MESSAGE))
  {
    if currentMin.None? || currentMax.None? || focusCurrent.None? then Some(MISSING_CURRENTS_MESSAGE)
    else if currentMin.value <= 0.0 || currentMax.value <= 0.0 then Some(NON_POSITIVE_CURRENTS_MESSAGE)
    else if currentMin.value >= currentMax.value then Some(UNORDERED_CURRENTS_MESSAGE)
    else if focusCurrent.value <= 0.0 then Some(NON_POSITIVE_FOCUS_MESSAGE)
    else None
  }

  /** Inputs that pass validation never reach the engine's non-positive-current error: the
      focus current and every current of the sweep range are positive. */
  lemma ValidatedCurrentsPositive(currentMin: real, currentMax: real, focusCurrent: real, i: real,
                                  config: ElectrolyzerConfig, m: Funcs, c: Constants)
    requires ValidateCurrents(Some(currentMin), Some(currentMax), Some(focusCurrent)).None?
    ensures focusCurrent > 0.0 && CellVoltage(focusCurrent, config, m, c) != Err(NonPositiveCurrent)
    ensures currentMin <= i <= currentMax ==> i > 0.0 && CellVoltage(i, config, m, c) != Err(NonPositiveCurrent)
  {
    PositiveCurrentAccepted(focusCurrent, config, m, c);
    if currentMin <= i <= currentMax {
      PositiveCurrentAccepted(i, config, m, c);
    }
  }

  /** A positive current can fail for other reasons, but never as a non-positive current. */
  lemma PositiveCurrentAccepted(i: real, config: ElectrolyzerConfig, m: Funcs, c: Constants)
    requires i > 0.0
    ensures CellVoltage(i, config, m, c) != Err(NonPositiveCurrent)
  {
    CellVoltageFirstFailure(i, config, m, c);
  }

  /** At the form's default temperature and pH, a validated sweep that stays at or below
      5 A/cm² has a defined voltage at every current of its range and at the focus current. */
  lemma ValidatedDefaultSweepDefined(currentMin: real, currentMax: real, focusCurrent: real, i: real, m: Funcs)
    requires m.Lawful()
    requires ValidateCurrents(Some(currentMin), Some(currentMax), Some(focusCurrent)).None?
    requires currentMax <= 5.0 && focusCurrent <= 5.0
    ensures BuildConfig(DEFAULT_TEMPERATURE, 0.0).Voltage(focusCurrent, m).Ok?
    ensures currentMin <= i <= currentMax ==> BuildConfig(DEFAULT_TEMPERATURE, 0.0).Voltage(i, m).Ok?
  {
    BuildConfigAtDefaults();
    DefaultCellVoltageDefined(focusCurrent, m, CONSTANTS);
    if currentMin <= i <= currentMax {
      DefaultCellVoltageDefined(i, m, CONSTANTS);
    }
  }

  /** `prefix-suffix`, or the bare suffix when the prefix is missing or empty. */
  function ComponentId(prefix: Option<string>, suffix: string): (id: string)
    ensures prefix.None? || prefix.value == "" ==> id == suffix
    ensures prefix.Some? && prefix.value != "" ==> |id| == |prefix.value| + 1 + |suffix|
  {
    if prefix.Some? && prefix.value != "" then prefix.value + "-" + suffix else suffix
  }

  /** A prefixed id splits back into its prefix, the dash and its suffix. */
  lemma ComponentIdSplits(prefix: string, suffix: string)
    requires prefix != ""
    ensures var id := ComponentId(Some(prefix), suffix);
            id[..|prefix|] == prefix && id[|prefix|] == '-' && id[|prefix| + 1..] == suffix
  {
    var id := ComponentId(Some(prefix), suffix);
    assert id == prefix + "-" + suffix;
    assert id[..|prefix|] == prefix;
    assert id[|prefix| + 1..] == suffix;
  }
}
