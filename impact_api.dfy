/** The body of the `/api/predict-impact` handler: convert the four numeric
    parameters, reject a zero or missing one, look up a density, compute the
    kinetic energy and a capped probability, and turn every exception into a
    400 error. */
module ImpactApi {
  import opened Wrappers
  import opened Numerics

  /** How a numeric field of the JSON body reaches `float(data.get(key, 0))`. */
  datatype Param =
    | Absent                 // the key is missing: the default 0 is used
    | Convertible(v: real)   // a number, a numeric string or a boolean: `float` gives `v`
    | Unconvertible          // null, a list, an object or a non-numeric string: `float` raises

  /** The `composition` field as `densities.get(composition, ...)` sees it. */
  datatype Composition =
    | NoComposition          // the key is missing: 'rock' is used
    | Named(name: string)    // a string
    | OtherScalar            // a number, a boolean or null: hashable, never a key of the table
    | Unhashable             // a list or an object: the dictionary lookup raises

  datatype Body =
    | NoJson                 // `request.get_json()` gives None: `data.get` raises
    | NotObject              // a JSON array or scalar: it has no `get`
    | Object(velocity: Param, angle: Param, mass: Param, diameter: Param, composition: Composition)

  datatype FailureReason =
    | MissingParameters      // "Missing required parameters"
    | RequestRejected        // an exception while reading the body; its text `str(e)` is not modelled
    | ComplexPower           // a fractional power of a negative number gives a complex value that `round` rejects

  datatype Response =
    | Failure(reason: FailureReason)
    | Prediction(energyRelease: real, impactProbability: real, timeUntilImpact: string)

  /** The HTTP status of a response: every failure is answered with 400. */
  function Status(r: Response): (code: int)
    ensures code == 400 <==> r.Failure?
  {
    if r.Failure? then 400 else 200
  }

  /** `float(data.get(key, 0))`, or None when it raises. */
  function ToFloat(p: Param): (r: Option<real>)
    ensures p.Absent? ==> r == Some(0.0)
    ensures p.Convertible? ==> r == Some(p.v)
    ensures r.None? <==> p.Unconvertible?
  {
    match p
    case Absent => Some(0.0)
    case Convertible(v) => Some(v)
    case Unconvertible => None
  }

  /** `densities.get(composition, densities["rock"])` for a string key. */
  function DensityOf(composition: string): (density: real)
    ensures density in {7800.0, 3000.0, 900.0}
  {
    if composition == "iron" then 7800.0
    else if composition == "rock" then 3000.0
    else if composition == "ice" then 900.0
    else 3000.0
  }

  /** The density the handler looks up, or None when the lookup raises. */
  function Density(c: Composition): (density: Option<real>)
  {
    match c
    case NoComposition => Some(DensityOf("rock"))
    case Named(name) => Some(DensityOf(name))
    case OtherScalar => Some(3000.0)
    case Unhashable => None
  }

  /** The kinetic energy in joules and in megatons of TNT. */
  function KineticEnergy(mass: real, velocity: real): real {
    var velocityMs := velocity * 1000.0;
    0.5 * mass * (velocityMs * velocityMs)
  }

  function EnergyMegatons(mass: real, velocity: real): real {
    KineticEnergy(mass, velocity) / 4.184e15
  }

  /** `min(0.95, (diameter/1000) * (velocity/50))`. */
  function CappedProbability(diameter: real, velocity: real): (p: real)
    ensures p <= 0.95
    ensures p == 0.95 || p == (diameter / 1000.0) * (velocity / 50.0)
    ensures (diameter / 1000.0) * (velocity / 50.0) <= 0.95 ==> p == (diameter / 1000.0) * (velocity / 50.0)
  {
    Min(0.95, (diameter / 1000.0) * (velocity / 50.0))
  }

  /** The crater, fireball and tsunami values are rounded; they are only real numbers when
      the bases of their fractional powers are non-negative. */
  predicate RealPowers(m: MathLib, mass: real, angle: real) {
    mass >= 0.0 && m.sin(Radians(angle)) >= 0.0
  }

  /** The handler, in its order of evaluation. */
  function PredictImpact(m: MathLib, body: Body): (r: Response)
  {
    match body
    case NoJson => Failure(RequestRejected)
    case NotObject => Failure(RequestRejected)
    case Object(pv, pa, pm, pd, composition) =>
      if ToFloat(pv).None? || ToFloat(pa).None? || ToFloat(pm).None? || ToFloat(pd).None? then
        Failure(RequestRejected)
      else
        var velocity, angle, mass, diameter := ToFloat(pv).value, ToFloat(pa).value, ToFloat(pm).value, ToFloat(pd).value;
        if velocity == 0.0 || angle == 0.0 || mass == 0.0 || diameter == 0.0 then
          Failure(MissingParameters)
        else if Density(composition).None? then
          Failure(RequestRejected)
        else if !RealPowers(m, mass, angle) then
          Failure(ComplexPower)
        else
          Prediction(EnergyMegatons(mass, velocity), CappedProbability(diameter, velocity), "7 days")
  }

  /** The four numeric values of a body whose fields all convert. */
  predicate Converts(body: Body) {
    body.Object? && ToFloat(body.velocity).Some? && ToFloat(body.angle).Some?
    && ToFloat(body.mass).Some? && ToFloat(body.diameter).Some?
  }

  /** A field that is missing, or converts to 0. */
  predicate ZeroOrMissing(p: Param) {
    p.Absent? || (p.Convertible? && p.v == 0.0)
  }

  /** The "Missing required parameters" error is given exactly when the four fields convert
      and one of them is missing or zero. */
  lemma MissingParametersExactly(m: MathLib, body: Body)
    ensures PredictImpact(m, body) == Failure(MissingParameters) <==>
              Converts(body) &&
              (ZeroOrMissing(body.velocity) || ZeroOrMissing(body.angle)
               || ZeroOrMissing(body.mass) || ZeroOrMissing(body.diameter))
  {
  }

  /** A request is answered with a prediction exactly when its body is an object whose four
      fields convert to non-zero numbers, whose composition can be looked up, and whose mass
      and sine of the angle are non-negative. */
  lemma PredictionExactly(m: MathLib, body: Body)
    ensures PredictImpact(m, body).Prediction? <==>
              Converts(body)
              && !ZeroOrMissing(body.velocity) && !ZeroOrMissing(body.angle)
              && !ZeroOrMissing(body.mass) && !ZeroOrMissing(body.diameter)
              && !body.composition.Unhashable?
              && body.mass.v > 0.0 && m.sin(Radians(body.angle.v)) >= 0.0
  {
  }

  /** A prediction carries the energy ½·m·(1000·v)²/4.184e15, which is positive, a probability
      of at most 0.95, and the fixed text "7 days". */
  lemma PredictionContents(m: MathLib, body: Body)
    requires PredictImpact(m, body).Prediction?
    ensures var r := PredictImpact(m, body);
            && r.timeUntilImpact == "7 days"
            && r.impactProbability <= 0.95
            && r.energyRelease == 0.5 * body.mass.v * ((body.velocity.v * 1000.0) * (body.velocity.v * 1000.0)) / 4.184e15
            && r.energyRelease > 0.0
            && r.impactProbability == CappedProbability(body.diameter.v, body.velocity.v)
  {
    PredictionExactly(m, body);
    EnergyPositive(body.mass.v, body.velocity.v);
  }

  /** A positive mass moving at a non-zero speed has positive kinetic energy. */
  lemma EnergyPositive(mass: real, velocity: real)
    requires mass > 0.0 && velocity != 0.0
    ensures EnergyMegatons(mass, velocity) > 0.0
  {
    var w := velocity * 1000.0;
    var u := if w > 0.0 then w else -w;
    MulStrict(0.0, 0.5 * mass, u);
    MulStrict(0.0, 0.5 * mass * u, u);
    assert 0.5 * mass * u * u == 0.5 * mass * (w * w);
  }

  /** The lookup table: iron 7800, rock 3000, ice 900, anything else and a missing key 3000. */
  lemma DensityTable(name: string)
    requires name != "iron" && name != "ice"
    ensures DensityOf("iron") == 7800.0 && DensityOf("rock") == 3000.0 && DensityOf("ice") == 900.0
    ensures DensityOf(name) == 3000.0
    ensures Density(NoComposition) == Some(3000.0) && Density(OtherScalar) == Some(3000.0)
  {
  }

  /** The density found is never used in the answer: two bodies that differ only in a
      hashable composition are answered alike. */
  lemma CompositionIgnored(m: MathLib, pv: Param, pa: Param, pm: Param, pd: Param, c1: Composition, c2: Composition)
    requires !c1.Unhashable? && !c2.Unhashable?
    ensures PredictImpact(m, Object(pv, pa, pm, pd, c1)) == PredictImpact(m, Object(pv, pa, pm, pd, c2))
  {
  }
}
