/** The backend's risk assessment of one asteroid record: impact energy in
    megatons of TNT, a step-wise impact probability, the Palermo guard, the
    energy-bucketed Torino level with its threat label, the risk zones and
    the casualty estimate. */
module RiskCalculator {
  import opened Wrappers
  import opened Numerics

  /** One entry of `close_approach_data`; only its relative velocity in km/s is read. */
  datatype CloseApproach = CloseApproach(kilometersPerSecond: real)

  /** The keys of `asteroid_data` the calculator reads; `None` is a missing key. */
  datatype AsteroidData = AsteroidData(
    estimatedDiameterMin: Option<real>,
    estimatedMass: Option<real>,
    density: Option<real>,
    closeApproachData: Option<seq<CloseApproach>>)

  const JoulesPerMegaton: real := 4.184e15
  const DefaultDiameter: real := 10.0
  const DefaultDensity: real := 3000.0
  const DefaultVelocity: real := 17000.0
  const PopulationDensity: real := 300.0

  /** `estimated_diameter_min`, in metres, defaulting to 10. */
  function Diameter(d: AsteroidData): real {
    d.estimatedDiameterMin.GetOr(DefaultDiameter)
  }

  /** `density`, in kg/m³, defaulting to 3000. */
  function Density(d: AsteroidData): real {
    d.density.GetOr(DefaultDensity)
  }

  /** Python's truth test on `estimated_mass`: present and non-zero. */
  predicate HasMass(d: AsteroidData) {
    d.estimatedMass.Some? && d.estimatedMass.value != 0.0
  }

  /** The given mass, or the mass of a sphere of the record's diameter and density. */
  function Mass(d: AsteroidData): real {
    if HasMass(d) then d.estimatedMass.value
    else 4.0 / 3.0 * PI * Cube(Diameter(d) / 2.0) * Density(d)
  }

  /** The first close approach's velocity in m/s, or 17000 when the list is missing or empty. */
  function Velocity(d: AsteroidData): (v: real)
    ensures d.closeApproachData.None? || d.closeApproachData.value == [] ==> v == DefaultVelocity
    ensures d.closeApproachData.Some? && d.closeApproachData.value != [] ==>
              v == d.closeApproachData.value[0].kilometersPerSecond * 1000.0
  {
    match d.closeApproachData
    case Some(approaches) =>
      if |approaches| > 0 then approaches[0].kilometersPerSecond * 1000.0 else DefaultVelocity
    case None => DefaultVelocity
  }

  /** `calculate_impact_energy`: kinetic energy ½·m·v² converted to megatons of TNT. */
  function ImpactEnergy(d: AsteroidData): real {
    0.5 * Mass(d) * (Velocity(d) * Velocity(d)) / JoulesPerMegaton
  }

  /** A record without mass, diameter, density or close approaches is a 10 m rock at 17 km/s. */
  lemma EmptyRecordDefaults(d: AsteroidData)
    requires d == AsteroidData(None, None, None, None)
    ensures Mass(d) == 500000.0 * PI
    ensures Velocity(d) == 17000.0
    ensures ImpactEnergy(d) == 0.5 * (500000.0 * PI) * (17000.0 * 17000.0) / 4.184e15
  {
    assert Cube(5.0) == 125.0;
  }

  /** Without a usable mass, the mass is that of a sphere of the record's diameter and density. */
  lemma MasslessUsesSphere(d: AsteroidData)
    requires d.estimatedMass.None? || d.estimatedMass == Some(0.0)
    ensures Mass(d) == 4.0 / 3.0 * PI * Cube(Diameter(d) / 2.0) * Density(d)
  {
  }

  /** A non-negative diameter and density give a non-negative mass, and a non-negative mass
      gives a non-negative energy. */
  lemma EnergyNonNegative(d: AsteroidData)
    requires HasMass(d) ==> d.estimatedMass.value >= 0.0
    requires !HasMass(d) ==> Diameter(d) >= 0.0 && Density(d) >= 0.0
    ensures Mass(d) >= 0.0
    ensures ImpactEnergy(d) >= 0.0
  {
    if !HasMass(d) {
      var r := Diameter(d) / 2.0;
      assert r * r >= 0.0;
      MulMonotone(0.0, r * r, r);
      assert Cube(r) >= 0.0;
      MulMonotone(0.0, 4.0 / 3.0 * PI * Cube(r), Density(d));
    }
    var v := Velocity(d);
    MulMonotone(0.0, 0.5 * Mass(d), v * v);
  }

  /** The step-wise impact probability of `assess_risk`. */
  function BaseProbability(diameter: real, velocity: real, density: real): real {
    var bySize := if diameter > 100.0 then 1e-6 * (diameter / 100.0) else 1e-6;
    var bySpeed := if velocity > 20000.0 then bySize * (velocity / 20000.0) else bySize;
    if density > 5000.0 then bySpeed * 1.2
    else if density < 2000.0 then bySpeed * 0.8
    else bySpeed
  }

  /** Small, slow, rocky bodies keep the base probability of one in a million. */
  lemma BaseProbabilityUnadjusted(diameter: real, velocity: real, density: real)
    requires diameter <= 100.0 && velocity <= 20000.0 && 2000.0 <= density <= 5000.0
    ensures BaseProbability(diameter, velocity, density) == 1e-6
  {
  }

  /** The size and speed factors only ever raise the probability, so it never falls
      below the ice-rich 0.8·10⁻⁶. */
  lemma BaseProbabilityLowerBound(diameter: real, velocity: real, density: real)
    ensures BaseProbability(diameter, velocity, density) >= 0.8e-6
  {
    var bySize := if diameter > 100.0 then 1e-6 * (diameter / 100.0) else 1e-6;
    assert bySize >= 1e-6;
    var bySpeed := if velocity > 20000.0 then bySize * (velocity / 20000.0) else bySize;
    if velocity > 20000.0 {
      MulMonotone(1.0, velocity / 20000.0, bySize);
    }
    assert bySpeed >= 1e-6;
  }

  /** At equal size and speed, iron-rich bodies rank above rock and rock above ice. */
  lemma CompositionOrdering(diameter: real, velocity: real)
    ensures BaseProbability(diameter, velocity, 2000.0) < BaseProbability(diameter, velocity, 5500.0)
    ensures BaseProbability(diameter, velocity, 1500.0) < BaseProbability(diameter, velocity, 2000.0)
  {
    BaseProbabilityLowerBound(diameter, velocity, 3000.0);
  }

  /** A larger diameter never lowers the probability. */
  lemma BaseProbabilityMonotoneInDiameter(d1: real, d2: real, velocity: real, density: real)
    requires d1 <= d2
    ensures BaseProbability(d1, velocity, density) <= BaseProbability(d2, velocity, density)
  {
    var s1 := if d1 > 100.0 then 1e-6 * (d1 / 100.0) else 1e-6;
    var s2 := if d2 > 100.0 then 1e-6 * (d2 / 100.0) else 1e-6;
    assert 0.0 < s1 <= s2;
    if velocity > 20000.0 {
      MulMonotone(s1, s2, velocity / 20000.0);
    }
  }

  /** `calculate_palermo_scale`: the background rate is 0.03·E^-0.8 per year; the scale is
      log10 of the probability over the background risk, or -10 when that is undefined. */
  function BackgroundRate(m: MathLib, energyMt: real): real {
    0.03 * m.pow(energyMt, -0.8)
  }

  function PalermoScale(m: MathLib, impactProbability: real, energyMt: real, timeYears: real := 50.0): (p: real)
    ensures timeYears <= 0.0 || BackgroundRate(m, energyMt) <= 0.0 ==> p == -10.0
  {
    var backgroundRate := BackgroundRate(m, energyMt);
    if backgroundRate > 0.0 && timeYears > 0.0 then
      m.log10(impactProbability / (backgroundRate * timeYears))
    else
      -10.0
  }

  /** The Torino level `assess_risk` derives from the energy alone; the thresholds are strict. */
  function TorinoFromEnergy(energyMt: real): (t: int)
    ensures t in {0, 2, 4, 6, 8, 10}
    ensures t == 10 <==> energyMt > 10000.0
    ensures t == 8 <==> 1000.0 < energyMt <= 10000.0
    ensures t == 6 <==> 100.0 < energyMt <= 1000.0
    ensures t == 4 <==> 10.0 < energyMt <= 100.0
    ensures t == 2 <==> 1.0 < energyMt <= 10.0
    ensures t == 0 <==> energyMt <= 1.0
  {
    if energyMt > 10000.0 then 10
    else if energyMt > 1000.0 then 8
    else if energyMt > 100.0 then 6
    else if energyMt > 10.0 then 4
    else if energyMt > 1.0 then 2
    else 0
  }

  /** More energy never gives a lower Torino level. */
  lemma TorinoMonotone(e1: real, e2: real)
    requires e1 <= e2
    ensures TorinoFromEnergy(e1) <= TorinoFromEnergy(e2)
  {
  }

  /** The threat label attached to a Torino level. */
  function ThreatLevel(torino: int): (threat: string)
    ensures threat == "Severe" <==> torino >= 8
    ensures threat == "High" <==> 5 <= torino < 8
    ensures threat == "Moderate" <==> 2 <= torino < 5
    ensures threat == "Low" <==> torino < 2
  {
    if torino >= 8 then "Severe"
    else if torino >= 5 then "High"
    else if torino >= 2 then "Moderate"
    else "Low"
  }

  /** Composing the two: a Torino level of 4 (10 to 100 megatons) is labelled "Moderate",
      so "High" is exactly the band from 100 to 1000 megatons. */
  lemma ThreatFromEnergy(energyMt: real)
    ensures ThreatLevel(TorinoFromEnergy(energyMt)) == "Severe" <==> energyMt > 1000.0
    ensures ThreatLevel(TorinoFromEnergy(energyMt)) == "High" <==> 100.0 < energyMt <= 1000.0
    ensures ThreatLevel(TorinoFromEnergy(energyMt)) == "Moderate" <==> 1.0 < energyMt <= 100.0
    ensures ThreatLevel(TorinoFromEnergy(energyMt)) == "Low" <==> energyMt <= 1.0
  {
    var t := TorinoFromEnergy(energyMt);
    assert t in {0, 2, 4, 6, 8, 10};
  }

  /** The radii of `calculate_impact_effects` that the assessment reads, in km. */
  datatype ImpactEffects = ImpactEffects(
    destructionRadiusKm: real,
    severeDamageRadiusKm: real,
    buildingDamageRadiusKm: real,
    glassBreakingRadiusKm: real)

  /** The radii as `calculate_impact_effects` computes them, with the fractional power
      taken from the library. */
  function CalculateImpactEffects(m: MathLib, energyMt: real): (fx: ImpactEffects)
    ensures fx.glassBreakingRadiusKm == 1.2 * fx.buildingDamageRadiusKm
    ensures fx.buildingDamageRadiusKm == 4.0 * fx.severeDamageRadiusKm
  {
    var overpressure1psi := 4.4 * m.pow(energyMt, 0.33);
    var overpressure20psi := 1.1 * m.pow(energyMt, 0.33);
    ImpactEffects(
      m.pow(energyMt, 0.37) * 2.0,
      overpressure20psi,
      overpressure1psi,
      overpressure1psi * 1.2)
  }

  /** The four risk zones, each the radius of one effect. */
  datatype RiskZones = RiskZones(
    immediateDestructionKm: real,
    severeDamageKm: real,
    moderateDamageKm: real,
    lightDamageKm: real)

  function RiskZonesOf(fx: ImpactEffects): RiskZones {
    RiskZones(fx.destructionRadiusKm, fx.severeDamageRadiusKm,
              fx.buildingDamageRadiusKm, fx.glassBreakingRadiusKm)
  }

  datatype CasualtyEstimate = CasualtyEstimate(
    directCasualties: int,
    severeInjuries: int,
    affectedPopulation: int,
    evacuationRadiusKm: real)

  function DiscArea(radiusKm: real): real {
    PI * (radiusKm * radiusKm)
  }

  /** `estimate_casualties` as written: every count is truncated toward zero by `int()`, and
      the severely injured are counted on the destruction disc subtracted from the
      severe-damage disc, whichever is larger. */
  function EstimateCasualtiesAsWritten(fx: ImpactEffects, populationDensity: real := 300.0): CasualtyEstimate {
    var destructionArea := DiscArea(fx.destructionRadiusKm);
    var severeDamageArea := DiscArea(fx.severeDamageRadiusKm);
    var affectedArea := DiscArea(fx.glassBreakingRadiusKm);
    CasualtyEstimate(
      Trunc(destructionArea * populationDensity),
      Trunc((severeDamageArea - destructionArea) * populationDensity * 0.5),
      Trunc(affectedArea * populationDensity),
      fx.destructionRadiusKm * 1.5)
  }

  /** The direct casualties and the affected population are the people on the destruction and
      glass-breaking discs, cut to a whole number, and the evacuation radius is half as wide again
      as the destruction radius. */
  lemma CasualtyCounts(fx: ImpactEffects, populationDensity: real)
    requires populationDensity >= 0.0
    ensures var c := EstimateCasualtiesAsWritten(fx, populationDensity);
            var direct := DiscArea(fx.destructionRadiusKm) * populationDensity;
            var affected := DiscArea(fx.glassBreakingRadiusKm) * populationDensity;
            && c.evacuationRadiusKm == 1.5 * fx.destructionRadiusKm
            && 0 <= c.directCasualties && c.directCasualties as real <= direct < c.directCasualties as real + 1.0
            && 0 <= c.affectedPopulation && c.affectedPopulation as real <= affected < c.affectedPopulation as real + 1.0
  {
    DiscPeople(fx.destructionRadiusKm, populationDensity);
    DiscPeople(fx.glassBreakingRadiusKm, populationDensity);
  }

  /** The people on a disc, truncated, are a whole number within one of the exact count. */
  lemma DiscPeople(radiusKm: real, populationDensity: real)
    requires populationDensity >= 0.0
    ensures var people := DiscArea(radiusKm) * populationDensity;
            0 <= Trunc(people) && Trunc(people) as real <= people < Trunc(people) as real + 1.0
  {
    SquareNonNegative(radiusKm);
    MulMonotone(0.0, DiscArea(radiusKm), populationDensity);
    TruncBounds(DiscArea(radiusKm) * populationDensity);
  }

  /** At 1 megaton every power of the energy is 1, so the destruction radius is 2 km and the
      severe-damage radius 1.1 km: the estimate reports a negative number of severe injuries. */
  lemma NegativeSevereInjuriesAtOneMegaton()
    ensures EstimateCasualtiesAsWritten(ImpactEffects(2.0, 1.1, 4.4, 5.28)).severeInjuries < 0
  {
    var x := (DiscArea(1.1) - DiscArea(2.0)) * 300.0 * 0.5;
    assert x == PI * (1.21 - 4.0) * 150.0;
    assert x <= -1.0;
  }

  /** Whenever the severe-damage disc is the smaller one and people live there, the estimate as
      written counts no severe injuries or a negative number of them. */
  lemma SevereInjuriesNotPositive(fx: ImpactEffects, populationDensity: real)
    requires populationDensity > 0.0
    requires DiscArea(fx.severeDamageRadiusKm) < DiscArea(fx.destructionRadiusKm)
    ensures EstimateCasualtiesAsWritten(fx, populationDensity).severeInjuries <= 0
  {
    var ring := DiscArea(fx.severeDamageRadiusKm) - DiscArea(fx.destructionRadiusKm);
    MulStrict(ring, 0.0, populationDensity);
    TruncBounds(ring * populationDensity * 0.5);
  }

  /** The severe-injury count with the annulus clamped at zero: the people between the
      destruction radius and the severe-damage radius, when there are any. */
  function EstimateCasualties(fx: ImpactEffects, populationDensity: real := 300.0): CasualtyEstimate {
    var destructionArea := DiscArea(fx.destructionRadiusKm);
    var severeDamageArea := DiscArea(fx.severeDamageRadiusKm);
    var affectedArea := DiscArea(fx.glassBreakingRadiusKm);
    CasualtyEstimate(
      Trunc(destructionArea * populationDensity),
      Trunc(Max(0.0, severeDamageArea - destructionArea) * populationDensity * 0.5),
      Trunc(affectedArea * populationDensity),
      fx.destructionRadiusKm * 1.5)
  }

  /** With a non-negative population density no count is negative, and where the
      severe-damage disc is the larger one the corrected estimate equals the original. */
  lemma CasualtiesNonNegative(fx: ImpactEffects, populationDensity: real)
    requires populationDensity >= 0.0
    ensures EstimateCasualties(fx, populationDensity).directCasualties >= 0
    ensures EstimateCasualties(fx, populationDensity).severeInjuries >= 0
    ensures EstimateCasualties(fx, populationDensity).affectedPopulation >= 0
    ensures var c, o := EstimateCasualties(fx, populationDensity), EstimateCasualtiesAsWritten(fx, populationDensity);
            c.directCasualties == o.directCasualties && c.affectedPopulation == o.affectedPopulation
            && c.evacuationRadiusKm == o.evacuationRadiusKm
    ensures DiscArea(fx.severeDamageRadiusKm) >= DiscArea(fx.destructionRadiusKm) ==>
              EstimateCasualties(fx, populationDensity) == EstimateCasualtiesAsWritten(fx, populationDensity)
  {
    SquareNonNegative(fx.destructionRadiusKm);
    SquareNonNegative(fx.glassBreakingRadiusKm);
    MulMonotone(0.0, DiscArea(fx.destructionRadiusKm), populationDensity);
    MulMonotone(0.0, DiscArea(fx.glassBreakingRadiusKm), populationDensity);
    var ring := Max(0.0, DiscArea(fx.severeDamageRadiusKm) - DiscArea(fx.destructionRadiusKm));
    MulMonotone(0.0, ring, populationDensity);
  }

  lemma SquareNonNegative(r: real)
    ensures DiscArea(r) >= 0.0
  {
    assert r * r >= 0.0;
    MulMonotone(0.0, r * r, PI);
  }

  /** The dictionary `assess_risk` returns. */
  datatype RiskAssessment = RiskAssessment(
    impactProbability: real,
    torinoScale: int,
    palermoScale: real,
    threatLevel: string,
    impactEffects: ImpactEffects,
    riskZones: RiskZones,
    casualtyEstimate: CasualtyEstimate)

  /** The exception `assess_risk` raises for a record it cannot assess. */
  datatype RaisedError =
    | OverflowError      // `int(-inf)` for the dust settling days: log10(E + 1) of E = -1
    | ValueError         // `int(nan)` for the dust settling days: log10(E + 1) of E < -1
    | ZeroDivisionError  // `0.0 ** -0.8` in the background rate
    | TypeError          // a real power of a negative energy is complex, and `complex > 0` raises

  datatype Assessed = Assessed(assessment: RiskAssessment) | Raised(error: RaisedError)

  /** The dictionary `assess_risk` builds from an energy that has real powers, with the
      casualty estimate as written or, when `clamped`, the corrected one. */
  function BuildAssessment(m: MathLib, d: AsteroidData, clamped: bool): RiskAssessment {
    var energyMt := ImpactEnergy(d);
    var effects := CalculateImpactEffects(m, energyMt);
    var probability := BaseProbability(Diameter(d), Velocity(d), Density(d));
    var torino := TorinoFromEnergy(energyMt);
    RiskAssessment(
      probability,
      torino,
      PalermoScale(m, probability, energyMt),
      ThreatLevel(torino),
      effects,
      RiskZonesOf(effects),
      if clamped then EstimateCasualties(effects, PopulationDensity)
      else EstimateCasualtiesAsWritten(effects, PopulationDensity))
  }

  /** `assess_risk`: energy, probability, Palermo scale, zones, casualties and threat level.
      The effects come first: their dust settling days truncate 10·log10(E + 1), which is -inf
      at E = -1 and NaN below it. The background rate 0.03·E^-0.8 comes next, so an energy of
      zero raises there; between -1 and 0 the powers are complex, and the comparison
      `background_rate > 0` raises. A positive energy is assessed. */
  function AssessRisk(m: MathLib, d: AsteroidData): (r: Assessed)
    ensures r == Raised(ValueError) <==> ImpactEnergy(d) < -1.0
    ensures r == Raised(OverflowError) <==> ImpactEnergy(d) == -1.0
    ensures r == Raised(TypeError) <==> -1.0 < ImpactEnergy(d) < 0.0
    ensures r == Raised(ZeroDivisionError) <==> ImpactEnergy(d) == 0.0
    ensures r.Assessed? <==> ImpactEnergy(d) > 0.0
  {
    RaisesFor(ImpactEnergy(d))
      .GetOr(Assessed(BuildAssessment(m, d, false)))
  }

  /** The outcome of the steps before the dictionary is built, as a function of the energy. */
  function RaisesFor(energyMt: real): Option<Assessed> {
    if energyMt < -1.0 then Some(Raised(ValueError))
    else if energyMt == -1.0 then Some(Raised(OverflowError))
    else if energyMt < 0.0 then Some(Raised(TypeError))
    else if energyMt == 0.0 then Some(Raised(ZeroDivisionError))
    else None
  }

  /** A record with a positive mass, or a positive diameter and density when no mass is given,
      and a non-zero approach velocity, is always assessed. */
  lemma PositiveRecordAssessed(m: MathLib, d: AsteroidData)
    requires HasMass(d) ==> d.estimatedMass.value > 0.0
    requires !HasMass(d) ==> Diameter(d) > 0.0 && Density(d) > 0.0
    requires Velocity(d) != 0.0
    ensures ImpactEnergy(d) > 0.0
    ensures AssessRisk(m, d).Assessed?
  {
    if !HasMass(d) {
      SphereMassPositive(Diameter(d), Density(d));
    }
    MegatonsPositive(Mass(d), Velocity(d));
  }

  lemma SphereMassPositive(diameter: real, density: real)
    requires diameter > 0.0 && density > 0.0
    ensures 4.0 / 3.0 * PI * Cube(diameter / 2.0) * density > 0.0
  {
    var r := diameter / 2.0;
    CubePositive(r);
    MulStrict(0.0, 4.0 / 3.0 * PI, Cube(r));
    MulStrict(0.0, 4.0 / 3.0 * PI * Cube(r), density);
  }

  lemma CubePositive(r: real)
    requires r > 0.0
    ensures Cube(r) > 0.0
  {
    ProductPositive(r, r, r);
  }

  /** Kept apart from `CubePositive`, where the three factors are one and the same. */
  lemma ProductPositive(a: real, b: real, c: real)
    requires a > 0.0 && b > 0.0 && c > 0.0
    ensures a * b * c > 0.0
  {
    MulStrict(0.0, a, b);
    MulStrict(0.0, a * b, c);
  }

  lemma MegatonsPositive(mass: real, velocity: real)
    requires mass > 0.0 && velocity != 0.0
    ensures 0.5 * mass * (velocity * velocity) / JoulesPerMegaton > 0.0
  {
    var u := if velocity > 0.0 then velocity else -velocity;
    MulStrict(0.0, 0.5 * mass, u);
    MulStrict(0.0, 0.5 * mass * u, u);
    assert 0.5 * mass * u * u == 0.5 * mass * (velocity * velocity);
  }

  /** What every assessment satisfies: the step-wise probability, so at least 0.8·10⁻⁶, a
      Torino level from the energy thresholds with its label, the effects of the energy, four
      zones that are the destruction, severe-damage, building-damage and glass-breaking radii, the
      people on the destruction disc as direct casualties, an evacuation radius one and a half
      times the destruction radius, and no positive severe-injury count whenever the
      severe-damage zone is the smaller one. */
  lemma AssessRiskConsistent(m: MathLib, d: AsteroidData)
    requires AssessRisk(m, d).Assessed?
    ensures var a := AssessRisk(m, d).assessment;
            && a.impactProbability >= 0.8e-6
            && a.torinoScale in {0, 2, 4, 6, 8, 10}
            && a.torinoScale == TorinoFromEnergy(ImpactEnergy(d))
            && (a.threatLevel == "Severe" <==> ImpactEnergy(d) > 1000.0)
            && (a.threatLevel == "High" <==> 100.0 < ImpactEnergy(d) <= 1000.0)
            && (a.threatLevel == "Moderate" <==> 1.0 < ImpactEnergy(d) <= 100.0)
            && (a.threatLevel == "Low" <==> ImpactEnergy(d) <= 1.0)
            && a.impactProbability == BaseProbability(Diameter(d), Velocity(d), Density(d))
            && a.threatLevel == ThreatLevel(a.torinoScale)
            && a.impactEffects == CalculateImpactEffects(m, ImpactEnergy(d))
            && a.riskZones.immediateDestructionKm == a.impactEffects.destructionRadiusKm
            && a.riskZones.severeDamageKm == a.impactEffects.severeDamageRadiusKm
            && a.riskZones.moderateDamageKm == a.impactEffects.buildingDamageRadiusKm
            && a.riskZones.lightDamageKm == a.impactEffects.glassBreakingRadiusKm
            && a.casualtyEstimate.evacuationRadiusKm == 1.5 * a.riskZones.immediateDestructionKm
            && 0 <= a.casualtyEstimate.directCasualties
            && a.casualtyEstimate.directCasualties as real <= DiscArea(a.riskZones.immediateDestructionKm) * PopulationDensity
            && (DiscArea(a.riskZones.severeDamageKm) < DiscArea(a.riskZones.immediateDestructionKm) ==>
                  a.casualtyEstimate.severeInjuries <= 0)
  {
    var effects := CalculateImpactEffects(m, ImpactEnergy(d));
    BaseProbabilityLowerBound(Diameter(d), Velocity(d), Density(d));
    ThreatFromEnergy(ImpactEnergy(d));
    CasualtyCounts(effects, PopulationDensity);
    if DiscArea(effects.severeDamageRadiusKm) < DiscArea(effects.destructionRadiusKm) {
      SevereInjuriesNotPositive(effects, PopulationDensity);
    }
  }

  /** The assessment with the corrected casualty estimate: the same outcome, the same
      dictionary except for the severe-injury count, which is never negative. */
  function AssessRiskCorrected(m: MathLib, d: AsteroidData): Assessed {
    RaisesFor(ImpactEnergy(d)).GetOr(Assessed(BuildAssessment(m, d, true)))
  }

  /** The corrected assessment raises exactly where the original does; otherwise it differs
      from it at most in the severe-injury count, which it keeps non-negative, and it equals
      it whenever the severe-damage zone is the larger one. */
  lemma AssessRiskCorrectedAgrees(m: MathLib, d: AsteroidData)
    ensures AssessRiskCorrected(m, d).Raised? <==> AssessRisk(m, d).Raised?
    ensures AssessRisk(m, d).Raised? ==> AssessRiskCorrected(m, d) == AssessRisk(m, d)
    ensures AssessRisk(m, d).Assessed? ==>
              var a, c := AssessRisk(m, d).assessment, AssessRiskCorrected(m, d).assessment;
              && c.casualtyEstimate.severeInjuries >= 0
              && c == a.(casualtyEstimate := a.casualtyEstimate.(severeInjuries := c.casualtyEstimate.severeInjuries))
              && (DiscArea(a.riskZones.severeDamageKm) >= DiscArea(a.riskZones.immediateDestructionKm) ==> c == a)
  {
    var effects := CalculateImpactEffects(m, ImpactEnergy(d));
    CasualtiesNonNegative(effects, PopulationDensity);
  }
}
