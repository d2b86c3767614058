/** The frozen table of physical constants (SI units) shared by every calculation. */
module Constants {

  datatype PhysicalConstants = PhysicalConstants(
    faraday: real := 96485.33212,           // C/mol
    gasConstant: real := 8.314462618,       // J/(mol K)
    boltzmann: real := 1.380649e-23,        // J/K
    electronCharge: real := 1.602176634e-19, // C
    planck: real := 6.62607015e-34)         // J s
  {
    predicate Positive() {
      faraday > 0.0 && gasConstant > 0.0 && boltzmann > 0.0 && electronCharge > 0.0 && planck > 0.0
    }

    /** Joules per electron-volt. */
    function EvToJoule(): (r: real)
      ensures r == electronCharge
    {
      electronCharge
    }

    /** Electron-volts per joule: the inverse of `EvToJoule`. */
    function JouleToEv(): (r: real)
      requires electronCharge != 0.0
      ensures r * EvToJoule() == 1.0
      ensures electronCharge > 0.0 ==> r > 0.0
    {
      1.0 / electronCharge
    }
  }

  /** Constant tables the engine accepts: every entry positive, as in the default table. */
  type Constants = c: PhysicalConstants | c.Positive() witness PhysicalConstants()

  /** The single default instance used everywhere. */
  const CONSTANTS: Constants := PhysicalConstants()

  lemma DefaultConstantsPositive()
    ensures CONSTANTS.Positive()
    ensures CONSTANTS.EvToJoule() * CONSTANTS.JouleToEv() == 1.0
  {
  }
}
