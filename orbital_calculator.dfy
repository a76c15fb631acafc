/** The backend's orbit-based risk rules: a perihelion/aphelion MOID
    approximation, an exponential impact probability with a cut-off, the
    impact energy of a rocky sphere, and a piecewise Torino mapping. */
module OrbitalCalculator {
  import opened Wrappers
  import opened Numerics

  /** The orbital elements `calculate_moid` reads; the inclination is in degrees. */
  datatype OrbitalElements = OrbitalElements(
    semiMajorAxis: real,
    eccentricity: real,
    inclination: real)

  /** The keys of `asteroid_data` that `assess_impact_risk` reads; the orbital
      elements are required, the rest default to 0. */
  datatype AsteroidData = AsteroidData(
    orbitalElements: OrbitalElements,
    relativeVelocityKps: Option<real>,
    diameterMin: Option<real>,
    diameterMax: Option<real>)

  /** The `risk_factors` dictionary. */
  datatype RiskFactors = RiskFactors(
    moid: real,
    velocity: real,
    size: real,
    impactProbability: real,
    palermoScale: real,
    torinoScale: int)

  function Perihelion(el: OrbitalElements): real {
    el.semiMajorAxis * (1.0 - el.eccentricity)
  }

  function Aphelion(el: OrbitalElements): real {
    el.semiMajorAxis * (1.0 + el.eccentricity)
  }

  /** The orbit stays clear of Earth's distance band [0.983, 1.017] AU. */
  predicate NonCrossing(el: OrbitalElements) {
    Perihelion(el) > 1.017 || Aphelion(el) < 0.983
  }

  /** The distance of the nearer apsis from 1 AU. */
  function ApsisGap(el: OrbitalElements): real {
    Min(Abs(Perihelion(el) - 1.0), Abs(Aphelion(el) - 1.0))
  }

  /** `calculate_moid`: the apsis gap for an orbit clear of Earth's band, otherwise the
      gap scaled by |sin i|. */
  function CalculateMoid(m: MathLib, el: OrbitalElements): (moid: real)
    requires Valid(m)
    ensures moid >= 0.0
    ensures NonCrossing(el) ==> moid == ApsisGap(el)
    ensures !NonCrossing(el) ==> moid == Abs(m.sin(Radians(el.inclination))) * ApsisGap(el)
    ensures moid <= ApsisGap(el)
  {
    var gap := ApsisGap(el);
    if NonCrossing(el) then gap
    else
      var s := Abs(m.sin(Radians(el.inclination)));
      UnitScaleBounds(s, gap);
      s * gap
  }

  lemma UnitScaleBounds(s: real, g: real)
    requires 0.0 <= s <= 1.0 && g >= 0.0
    ensures 0.0 <= s * g <= g
  {
    MulMonotone(s, 1.0, g);
    MulMonotone(0.0, s, g);
  }

  /** An orbit in Earth's plane that reaches Earth's band has a MOID of 0. */
  lemma CoplanarCrossingMoidIsZero(m: MathLib, el: OrbitalElements)
    requires Valid(m) && el.inclination == 0.0 && !NonCrossing(el)
    ensures CalculateMoid(m, el) == 0.0
  {
    assert Radians(0.0) == 0.0;
  }

  /** `_calculate_impact_probability`: zero beyond 0.1 AU, else exp(-50·moid). */
  function ImpactProbability(m: MathLib, moid: real): (p: real)
    requires Valid(m)
    ensures p == 0.0 <==> moid > 0.1
    ensures p >= 0.0
    ensures moid <= 0.1 ==> p == m.exp(-moid * 50.0)
  {
    if moid > 0.1 then 0.0 else m.exp(-moid * 50.0)
  }

  const FixedDensity: real := 3000.0

  /** `_calculate_impact_energy`: a sphere of density 3000 kg/m³ at `velocity` km/s, in
      megatons of TNT. */
  function ImpactEnergy(diameter: real, velocity: real): real {
    var mass := 4.0 / 3.0 * PI * Cube(diameter / 2.0) * FixedDensity;
    var velocityMs := velocity * 1000.0;
    0.5 * mass * (velocityMs * velocityMs) / 4.184e15
  }

  /** Doubling the velocity quadruples the energy; a body at rest or of size 0 has none. */
  lemma ImpactEnergyScaling(diameter: real, velocity: real)
    ensures ImpactEnergy(diameter, 2.0 * velocity) == 4.0 * ImpactEnergy(diameter, velocity)
    ensures ImpactEnergy(diameter, 0.0) == 0.0 && ImpactEnergy(0.0, velocity) == 0.0
  {
    var mass := 4.0 / 3.0 * PI * Cube(diameter / 2.0) * FixedDensity;
    var v := velocity * 1000.0;
    assert (2.0 * velocity) * 1000.0 == 2.0 * v;
    assert (2.0 * v) * (2.0 * v) == 4.0 * (v * v);
    assert 0.5 * mass * (4.0 * (v * v)) == 4.0 * (0.5 * mass * (v * v));
  }

  /** `_calculate_torino_scale`. */
  function TorinoScale(palermoScale: real, impactProbability: real): (t: int)
    ensures 0 <= t <= 10
    ensures impactProbability < 1e-10 ==> t == 0
    ensures impactProbability >= 1e-10 ==>
              && (palermoScale < -2.0 ==> t == 0)
              && (-2.0 <= palermoScale < 0.0 ==> t == 1)
              && (0.0 <= palermoScale < 2.0 ==> t == 2 || t == 3)
              && (palermoScale >= 2.0 ==> 5 <= t && t == MinInt(10, Trunc(palermoScale + 3.0)))
  {
    if impactProbability < 1e-10 then 0
    else if palermoScale < -2.0 then 0
    else if palermoScale < 0.0 then 1
    else if palermoScale < 2.0 then MinInt(4, Trunc(palermoScale + 2.0))
    else MinInt(10, Trunc(palermoScale + 3.0))
  }

  /** In the band 0 ≤ p < 2 the cap of 4 is never reached. */
  lemma TorinoCapFourUnreached(palermoScale: real)
    requires 0.0 <= palermoScale < 2.0
    ensures Trunc(palermoScale + 2.0) < 4
  {
  }

  /** `assess_impact_risk`: velocity and both diameters default to 0, the size is their mean,
      and the Palermo value is log10 of probability times energy over a 10⁻⁸ background. */
  function AssessImpactRisk(m: MathLib, d: AsteroidData): (r: RiskFactors)
    requires Valid(m)
    ensures r.size == (d.diameterMin.GetOr(0.0) + d.diameterMax.GetOr(0.0)) / 2.0
    ensures r.velocity == d.relativeVelocityKps.GetOr(0.0)
    ensures 0 <= r.torinoScale <= 10
  {
    var moid := CalculateMoid(m, d.orbitalElements);
    var velocity := d.relativeVelocityKps.GetOr(0.0);
    var size := (d.diameterMin.GetOr(0.0) + d.diameterMax.GetOr(0.0)) / 2.0;
    var probability := ImpactProbability(m, moid);
    var energy := ImpactEnergy(size, velocity);
    var backgroundRisk := 1e-8;
    var timeFactor := 1.0;
    var palermo := m.log10((probability * energy) / (backgroundRisk * timeFactor));
    RiskFactors(moid, velocity, size, probability, palermo, TorinoScale(palermo, probability))
  }

  /** An orbit whose MOID exceeds 0.1 AU has zero probability and Torino level 0, whatever
      the logarithm makes of the zero product. */
  lemma DistantOrbitIsHarmless(m: MathLib, d: AsteroidData)
    requires Valid(m) && CalculateMoid(m, d.orbitalElements) > 0.1
    ensures AssessImpactRisk(m, d).impactProbability == 0.0
    ensures AssessImpactRisk(m, d).torinoScale == 0
  {
  }
}
