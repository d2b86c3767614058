/** Oxygen-reduction catalyst engine: free energies of the adsorbed intermediates with the
    computational-hydrogen-electrode pH correction, the dissociative and associative pathway
    barriers, the choice of the dominant pathway and the activity exp(−ΔG‡/kT). */
module Orr {
  import opened Results
  import opened Constants
  import opened Models
  import opened Transcendental
  import opened Electrochemistry

  const WATER_REFERENCE_ENERGY := 2.46          // eV, calibrated with Pt at U0
  const ASSOCIATIVE_DEFAULT_SLOPE := 0.65       // eV/eV
  const ASSOCIATIVE_DEFAULT_INTERCEPT := 0.25   // eV
  const ASSOCIATIVE_OPTIMAL_BINDING := 1.6      // eV
  const DEFAULT_REFERENCE_POTENTIAL := 1.23     // V

  /** k_B·T in electron-volts. */
  function ThermalEnergyEv(temperature: real, c: Constants := CONSTANTS): (kT: real)
    ensures kT > 0.0 <==> temperature > 0.0
    ensures kT == 0.0 <==> temperature == 0.0
  {
    ScaledByPositive(c.boltzmann, temperature, c.JouleToEv());
    c.boltzmann * temperature * c.JouleToEv()
  }

  lemma ScaledByPositive(a: real, t: real, b: real)
    requires a > 0.0 && b > 0.0
    ensures a * t * b > 0.0 <==> t > 0.0
    ensures a * t * b == 0.0 <==> t == 0.0
  {
    assert a * t * b == (a * b) * t;
    assert a * b > 0.0;
    if t < 0.0 { assert (a * b) * t < 0.0; }
  }

  /** The pH term n_H·kT·ln 10·pH of the computational hydrogen electrode. */
  function PhCorrection(protons: int, kT: real, pH: real, m: Funcs): real {
    protons as real * kT * m.Ln(10.0) * pH
  }

  /** ΔG = ΔE + ΔZPE − T·ΔS + n_e·U + n_H·kT·ln 10·pH for an intermediate of the catalyst's
      table; an intermediate without data is a lookup error. */
  function FreeEnergy(catalyst: Catalyst, intermediate: string, potential: real, pH: real, temperature: real,
                      m: Funcs, c: Constants := CONSTANTS): (r: Result<real>)
    ensures r.Err? <==> intermediate !in catalyst.intermediates
    ensures r.Err? ==> r.error == MissingIntermediate(intermediate)
  {
    if intermediate !in catalyst.intermediates then Err(MissingIntermediate(intermediate))
    else
      var data := catalyst.intermediates[intermediate];
      var deltaG := data.deltaE + data.deltaZpe - temperature * data.deltaS;
      var withPotential := deltaG + data.electrons as real * potential;
      Ok(withPotential + PhCorrection(data.protons, ThermalEnergyEv(temperature, c), pH, m))
  }

  /** At pH 0 the correction vanishes and ΔG is the potential-shifted DFT energy. */
  lemma FreeEnergyAtPhZero(catalyst: Catalyst, intermediate: string, potential: real, temperature: real,
                           m: Funcs, c: Constants)
    requires intermediate in catalyst.intermediates
    ensures var data := catalyst.intermediates[intermediate];
            && FreeEnergy(catalyst, intermediate, potential, 0.0, temperature, m, c).Ok?
            && FreeEnergy(catalyst, intermediate, potential, 0.0, temperature, m, c).value ==
               data.deltaE + data.deltaZpe - temperature * data.deltaS + data.electrons as real * potential
  {
    var data := catalyst.intermediates[intermediate];
    assert PhCorrection(data.protons, ThermalEnergyEv(temperature, c), 0.0, m) == 0.0;
  }

  /** Raising the potential by δ raises ΔG by n_e·δ: one electron-volt per transferred electron. */
  lemma FreeEnergyPotentialShift(catalyst: Catalyst, intermediate: string, u1: real, u2: real, pH: real,
                                 temperature: real, m: Funcs, c: Constants)
    requires intermediate in catalyst.intermediates
    ensures FreeEnergy(catalyst, intermediate, u2, pH, temperature, m, c).value -
            FreeEnergy(catalyst, intermediate, u1, pH, temperature, m, c).value ==
            catalyst.intermediates[intermediate].electrons as real * (u2 - u1)
  {
    var n := catalyst.intermediates[intermediate].electrons as real;
    assert n * u2 - n * u1 == n * (u2 - u1);
  }

  /** Raising the pH by δ raises ΔG by n_H·kT·ln 10·δ, the computational-hydrogen-electrode shift. */
  lemma FreeEnergyPhShift(catalyst: Catalyst, intermediate: string, potential: real, pH1: real, pH2: real,
                          temperature: real, m: Funcs, c: Constants)
    requires intermediate in catalyst.intermediates
    ensures FreeEnergy(catalyst, intermediate, potential, pH2, temperature, m, c).value -
            FreeEnergy(catalyst, intermediate, potential, pH1, temperature, m, c).value ==
            catalyst.intermediates[intermediate].protons as real * ThermalEnergyEv(temperature, c) * m.Ln(10.0) *
            (pH2 - pH1)
  {
    var data := catalyst.intermediates[intermediate];
    var k := data.protons as real * ThermalEnergyEv(temperature, c) * m.Ln(10.0);
    assert PhCorrection(data.protons, ThermalEnergyEv(temperature, c), pH2, m) == k * pH2;
    assert PhCorrection(data.protons, ThermalEnergyEv(temperature, c), pH1, m) == k * pH1;
    assert k * pH2 - k * pH1 == k * (pH2 - pH1);
  }

  /** At a positive temperature an intermediate that carries protons gets a strictly higher free
      energy in a more alkaline electrolyte. */
  lemma FreeEnergyIncreasingInPh(catalyst: Catalyst, intermediate: string, potential: real, pH1: real, pH2: real,
                                 temperature: real, m: Funcs, c: Constants)
    requires m.Lawful() && intermediate in catalyst.intermediates
    requires catalyst.intermediates[intermediate].protons > 0 && temperature > 0.0 && pH1 < pH2
    ensures FreeEnergy(catalyst, intermediate, potential, pH1, temperature, m, c).value <
            FreeEnergy(catalyst, intermediate, potential, pH2, temperature, m, c).value
  {
    FreeEnergyPhShift(catalyst, intermediate, potential, pH1, pH2, temperature, m, c);
    LnPositive(m, 10.0);
    var kT := ThermalEnergyEv(temperature, c);
    var n := catalyst.intermediates[intermediate].protons as real;
    assert n * kT > 0.0;
    assert n * kT * m.Ln(10.0) > 0.0;
    assert n * kT * m.Ln(10.0) * (pH2 - pH1) > 0.0;
  }

  /** b + (U − U_ref): one electron per step, so the barrier moves one-for-one with U. */
  function ScaleBarrier(barrierAtU0: real, potential: real, referencePotential: real := DEFAULT_REFERENCE_POTENTIAL): (b: real)
    ensures b - barrierAtU0 == potential - referencePotential
    ensures potential == referencePotential ==> b == barrierAtU0
  {
    barrierAtU0 + (potential - referencePotential)
  }

  /** The dissociative pathway: the two step energies and the larger of them. */
  datatype DissociativeDetail = DissociativeDetail(deltaG1: real, deltaG2: real, limiting: real)

  /** With DFT intermediate data, ΔG1 = G(OH*) − G(O*) and ΔG2 = 2.46 − G(OH*) (O* is looked up
      first); without any, both tabulated barriers are shifted linearly with the potential. */
  function DissociativePathway(catalyst: Catalyst, potential: real, temperature: real, pH: real, m: Funcs,
                               referencePotential: real := DEFAULT_REFERENCE_POTENTIAL,
                               c: Constants := CONSTANTS): (r: Result<DissociativeDetail>)
    ensures catalyst.intermediates == map[] ==>
              && r.Ok?
              && r.value.deltaG1 == ScaleBarrier(catalyst.deltaG1U0, potential, referencePotential)
              && r.value.deltaG2 == ScaleBarrier(catalyst.deltaG2U0, potential, referencePotential)
    ensures catalyst.intermediates != map[] ==>
              (r.Ok? <==> "O*" in catalyst.intermediates && "OH*" in catalyst.intermediates)
    ensures catalyst.intermediates != map[] && "O*" !in catalyst.intermediates ==>
              r == Err(MissingIntermediate("O*"))
    ensures catalyst.intermediates != map[] && "O*" in catalyst.intermediates && "OH*" !in catalyst.intermediates ==>
              r == Err(MissingIntermediate("OH*"))
    ensures r.Ok? && catalyst.intermediates != map[] ==>
              var gO := FreeEnergy(catalyst, "O*", potential, pH, temperature, m, c).value;
              var gOH := FreeEnergy(catalyst, "OH*", potential, pH, temperature, m, c).value;
              r.value.deltaG1 == gOH - gO && r.value.deltaG2 == WATER_REFERENCE_ENERGY - gOH
    ensures r.Ok? ==> && r.value.limiting >= r.value.deltaG1 && r.value.limiting >= r.value.deltaG2
                      && (r.value.limiting == r.value.deltaG1 || r.value.limiting == r.value.deltaG2)
  {
    if catalyst.intermediates != map[] then
      var gO :- FreeEnergy(catalyst, "O*", potential, pH, temperature, m, c);
      var gOH :- FreeEnergy(catalyst, "OH*", potential, pH, temperature, m, c);
      var deltaG1 := gOH - gO;
      var deltaG2 := WATER_REFERENCE_ENERGY - gOH;
      Ok(DissociativeDetail(deltaG1, deltaG2, Max(deltaG1, deltaG2)))
    else
      var deltaG1 := ScaleBarrier(catalyst.deltaG1U0, potential, referencePotential);
      var deltaG2 := ScaleBarrier(catalyst.deltaG2U0, potential, referencePotential);
      Ok(DissociativeDetail(deltaG1, deltaG2, Max(deltaG1, deltaG2)))
  }

  /** Without DFT data the limiting step at U_ref is the larger tabulated barrier, and it moves
      one-for-one with the potential. */
  lemma FallbackLimitingShift(catalyst: Catalyst, potential: real, temperature: real, pH: real, m: Funcs,
                              c: Constants)
    requires catalyst.intermediates == map[]
    ensures DissociativePathway(catalyst, potential, temperature, pH, m, DEFAULT_REFERENCE_POTENTIAL, c).value.limiting ==
            Max(catalyst.deltaG1U0, catalyst.deltaG2U0) + (potential - DEFAULT_REFERENCE_POTENTIAL)
  {
  }

  /** The slope and intercept of the associative linear model, with their defaults. */
  function AssociativeSlope(catalyst: Catalyst): (s: real)
    ensures catalyst.associativeLinearCoeff.None? ==> s == ASSOCIATIVE_DEFAULT_SLOPE
    ensures catalyst.associativeLinearCoeff.Some? ==> s == catalyst.associativeLinearCoeff.value
  {
    match catalyst.associativeLinearCoeff
    case Some(slope) => slope
    case None => ASSOCIATIVE_DEFAULT_SLOPE
  }

  function AssociativeIntercept(catalyst: Catalyst): (b: real)
    ensures catalyst.associativeIntercept.None? ==> b == ASSOCIATIVE_DEFAULT_INTERCEPT
    ensures catalyst.associativeIntercept.Some? ==> b == catalyst.associativeIntercept.value
  {
    match catalyst.associativeIntercept
    case Some(intercept) => intercept
    case None => ASSOCIATIVE_DEFAULT_INTERCEPT
  }

  function Abs(x: real): (r: real)
    ensures r >= 0.0 && (r == x || r == -x)
  {
    if x < 0.0 then -x else x
  }

  /** Sabatier-type linear model: intercept + slope·|ΔE_O − 1.6| + (U − U_ref). */
  function AssociativeBarrier(catalyst: Catalyst, potential: real,
                              referencePotential: real := DEFAULT_REFERENCE_POTENTIAL): (b: real)
    ensures b == AssociativeIntercept(catalyst) + AssociativeSlope(catalyst) * Abs(catalyst.dEO - ASSOCIATIVE_OPTIMAL_BINDING)
                 + (potential - referencePotential)
    ensures catalyst.associativeLinearCoeff.None? && catalyst.associativeIntercept.None? ==>
              b == ASSOCIATIVE_DEFAULT_INTERCEPT
                   + ASSOCIATIVE_DEFAULT_SLOPE * Abs(catalyst.dEO - ASSOCIATIVE_OPTIMAL_BINDING)
                   + (potential - referencePotential)
  {
    var deltaBinding := Abs(catalyst.dEO - ASSOCIATIVE_OPTIMAL_BINDING);
    AssociativeIntercept(catalyst) + AssociativeSlope(catalyst) * deltaBinding + (potential - referencePotential)
  }

  /** The barrier depends on the O binding energy only through its distance from 1.6 eV: two
      catalysts that agree on the linear model and are equally far from the optimum on either
      side have the same barrier. */
  lemma AssociativeDependsOnDistance(cat1: Catalyst, cat2: Catalyst, potential: real, referencePotential: real)
    requires cat1.associativeLinearCoeff == cat2.associativeLinearCoeff
    requires cat1.associativeIntercept == cat2.associativeIntercept
    requires Abs(cat1.dEO - ASSOCIATIVE_OPTIMAL_BINDING) == Abs(cat2.dEO - ASSOCIATIVE_OPTIMAL_BINDING)
    ensures AssociativeBarrier(cat1, potential, referencePotential) == AssociativeBarrier(cat2, potential, referencePotential)
  {
  }

  /** With a positive slope, binding further from the optimum raises the barrier. */
  lemma AssociativeSabatier(cat1: Catalyst, cat2: Catalyst, potential: real, referencePotential: real)
    requires cat1.associativeLinearCoeff == cat2.associativeLinearCoeff
    requires cat1.associativeIntercept == cat2.associativeIntercept
    requires AssociativeSlope(cat1) > 0.0
    requires Abs(cat1.dEO - ASSOCIATIVE_OPTIMAL_BINDING) < Abs(cat2.dEO - ASSOCIATIVE_OPTIMAL_BINDING)
    ensures AssociativeBarrier(cat1, potential, referencePotential) < AssociativeBarrier(cat2, potential, referencePotential)
  {
    var d1, d2 := Abs(cat1.dEO - ASSOCIATIVE_OPTIMAL_BINDING), Abs(cat2.dEO - ASSOCIATIVE_OPTIMAL_BINDING);
    var slope, intercept := AssociativeSlope(cat1), AssociativeIntercept(cat1);
    assert AssociativeSlope(cat2) == slope && AssociativeIntercept(cat2) == intercept;
    var shift := potential - referencePotential;
    assert AssociativeBarrier(cat1, potential, referencePotential) == intercept + slope * d1 + shift;
    assert AssociativeBarrier(cat2, potential, referencePotential) == intercept + slope * d2 + shift;
    StrictlyScaled(slope, d1, d2);
  }

  /** The three candidate pathways, in the order they are compared. */
  datatype Pathway = Dissociative | Associative | O2Dissociation {
    function Label(): (s: string)
      ensures |s| > 0
    {
      match this
      case Dissociative => "mecanismo disociativo"
      case Associative => "mecanismo asociativo"
      case O2Dissociation => "disociacion O2"
    }
  }

  /** The position of the first smallest element, as `min` over an ordered collection. */
  function FirstMinIndex(s: seq<real>): (k: nat)
    requires |s| > 0
    ensures k < |s|
    ensures forall j :: 0 <= j < |s| ==> s[k] <= s[j]
    ensures forall j :: 0 <= j < k ==> s[j] > s[k]
    decreases |s|
  {
    if |s| == 1 then 0
    else
      var k := FirstMinIndex(s[..|s| - 1]);
      if s[|s| - 1] < s[k] then |s| - 1 else k
  }

  /** The decision: the winning pathway, its barrier and the two pathway details. */
  datatype Decision = Decision(pathway: Pathway, barrier: real, dissociative: DissociativeDetail,
                               associativeBarrier: real)

  /** The candidates are the dissociative limiting step, the associative barrier and the O2
      dissociation barrier; the smallest wins and ties go to the earlier candidate.  The
      pathways are evaluated with the default reference potential and the default constants. */
  function DominantPathway(catalyst: Catalyst, potential: real, temperature: real, pH: real, m: Funcs): (r: Result<Decision>)
    ensures var dis := DissociativePathway(catalyst, potential, temperature, pH, m);
            (r.Ok? <==> dis.Ok?) && (dis.Err? ==> r == Err(dis.error))
    ensures r.Ok? ==>
              var dis := DissociativePathway(catalyst, potential, temperature, pH, m).value;
              var assoc := AssociativeBarrier(catalyst, potential);
              && r.value.dissociative == dis && r.value.associativeBarrier == assoc
              && r.value.barrier <= dis.limiting && r.value.barrier <= assoc
              && r.value.barrier <= catalyst.dissociationBarrier
              && (r.value.pathway == Dissociative ==> r.value.barrier == dis.limiting)
              && (r.value.pathway == Associative ==>
                    r.value.barrier == assoc && dis.limiting > assoc)
              && (r.value.pathway == O2Dissociation ==>
                    r.value.barrier == catalyst.dissociationBarrier &&
                    dis.limiting > r.value.barrier && assoc > r.value.barrier)
  {
    var dis :- DissociativePathway(catalyst, potential, temperature, pH, m);
    var assoc := AssociativeBarrier(catalyst, potential);
    var candidates := [dis.limiting, assoc, catalyst.dissociationBarrier];
    var k := FirstMinIndex(candidates);
    assert candidates[k] <= candidates[0] && candidates[k] <= candidates[1] && candidates[k] <= candidates[2];
    var pathway := if k == 0 then Dissociative else if k == 1 then Associative else O2Dissociation;
    Ok(Decision(pathway, candidates[k], dis, assoc))
  }

  /** exp(−ΔG‡/kT). */
  function BoltzmannFactor(barrier: real, kT: real, m: Funcs): real
    requires kT != 0.0
  {
    m.Exp(-barrier / kT)
  }

  /** A ∝ exp(−ΔG‡/kT) over the dominant barrier; a failing pathway fails first, then a
      non-positive thermal energy is an invalid temperature. */
  function Activity(catalyst: Catalyst, potential: real, temperature: real, pH: real, m: Funcs,
                    c: Constants := CONSTANTS): (r: Result<real>)
    ensures var decision := DominantPathway(catalyst, potential, temperature, pH, m);
            decision.Err? ==> r == Err(decision.error)
    ensures DominantPathway(catalyst, potential, temperature, pH, m).Ok? ==>
              (r.Err? <==> temperature <= 0.0) && (r.Err? ==> r.error == InvalidTemperature)
    ensures r.Ok? && m.Lawful() ==> r.value > 0.0
    ensures r.Ok? ==> && ThermalEnergyEv(temperature, c) > 0.0
                      && r.value == BoltzmannFactor(DominantPathway(catalyst, potential, temperature, pH, m).value.barrier,
                                                    ThermalEnergyEv(temperature, c), m)
  {
    var decision :- DominantPathway(catalyst, potential, temperature, pH, m);
    var kT := ThermalEnergyEv(temperature, c);
    if kT <= 0.0 then Err(InvalidTemperature)
    else Ok(BoltzmannFactor(decision.barrier, kT, m))
  }

  /** At a fixed positive thermal energy a lower barrier gives a strictly larger factor. */
  lemma BoltzmannFactorDecreasing(b1: real, b2: real, kT: real, m: Funcs)
    requires m.Lawful() && kT > 0.0 && b1 < b2
    ensures BoltzmannFactor(b1, kT, m) > BoltzmannFactor(b2, kT, m)
  {
    assert b1 / kT < b2 / kT by {
      assert b1 / kT == b1 * (1.0 / kT);
      assert b2 / kT == b2 * (1.0 / kT);
      assert 1.0 / kT > 0.0;
    }
    assert -b2 / kT < -b1 / kT;
  }

  /** Under the same conditions, the catalyst with the lower dominant barrier is more active. */
  lemma ActivityDecreasingInBarrier(cat1: Catalyst, cat2: Catalyst, potential: real, temperature: real, pH: real,
                                    m: Funcs, c: Constants)
    requires m.Lawful() && temperature > 0.0
    requires DominantPathway(cat1, potential, temperature, pH, m).Ok?
    requires DominantPathway(cat2, potential, temperature, pH, m).Ok?
    requires DominantPathway(cat1, potential, temperature, pH, m).value.barrier <
             DominantPathway(cat2, potential, temperature, pH, m).value.barrier
    ensures Activity(cat1, potential, temperature, pH, m, c).Ok? && Activity(cat2, potential, temperature, pH, m, c).Ok?
    ensures Activity(cat1, potential, temperature, pH, m, c).value > Activity(cat2, potential, temperature, pH, m, c).value
  {
    BoltzmannFactorDecreasing(DominantPathway(cat1, potential, temperature, pH, m).value.barrier,
                              DominantPathway(cat2, potential, temperature, pH, m).value.barrier,
                              ThermalEnergyEv(temperature, c), m);
  }

  /** A dominant barrier at or below zero gives an activity of at least one. */
  lemma ActivityAtLeastOne(catalyst: Catalyst, potential: real, temperature: real, pH: real, m: Funcs, c: Constants)
    requires m.Lawful() && temperature > 0.0
    requires DominantPathway(catalyst, potential, temperature, pH, m).Ok?
    requires DominantPathway(catalyst, potential, temperature, pH, m).value.barrier <= 0.0
    ensures Activity(catalyst, potential, temperature, pH, m, c).Ok?
    ensures Activity(catalyst, potential, temperature, pH, m, c).value >= 1.0
  {
    BoltzmannFactorAtLeastOne(DominantPathway(catalyst, potential, temperature, pH, m).value.barrier,
                              ThermalEnergyEv(temperature, c), m);
  }

  lemma BoltzmannFactorAtLeastOne(barrier: real, kT: real, m: Funcs)
    requires m.Lawful() && kT > 0.0 && barrier <= 0.0
    ensures BoltzmannFactor(barrier, kT, m) >= 1.0
  {
    var x := -barrier / kT;
    assert x >= 0.0 by {
      assert x == (-barrier) * (1.0 / kT);
      assert 1.0 / kT > 0.0;
    }
    if x > 0.0 {
      ExpAboveOne(m, x);
    }
  }
}
