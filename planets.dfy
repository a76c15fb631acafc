/** The planets of the solar-system view: the table of Keplerian elements,
    the per-planet time accumulator and mean anomaly, the five-step
    fixed-point solve of Kepler's equation, the position in the scene, and
    the 181-point orbit ellipse. */
module Planets {
  import opened Numerics
  import opened OrbitGeometry

  /** One entry of `planetData`: distances in scene units, angles in degrees, the period in
      days. */
  datatype Planet = Planet(
    name: string,
    color: int,
    atmosphere: int,
    radius: real,
    a: real,
    e: real,
    i: real,
    omega: real,
    w: real,
    m0: real,
    period: real)

  const PlanetData: seq<Planet> := [
    Planet("Mercury", 0xb1b1b1, 0xcccccc, 0.8, 8.0, 0.205, 7.0, 48.3, 29.1, 174.8, 88.0),
    Planet("Venus", 0xeedc82, 0xffe5b4, 0.95, 0.72, 0.007, 3.4, 76.7, 54.9, 50.1, 225.0),
    Planet("Earth", 0x1b76ff, 0x66ccff, 2.5, 10.0, 0.017, 0.0, 174.9, 288.1, 357.5, 365.0),
    Planet("Mars", 0xc1440e, 0xffa07a, 0.53, 1.52, 0.093, 1.85, 49.6, 286.5, 19.4, 687.0),
    Planet("Jupiter", 0xf4e2d8, 0xffe4b5, 11.2, 5.2, 0.049, 1.3, 100.5, 273.9, 20.0, 4331.0),
    Planet("Saturn", 0xf7e7b4, 0xf5deb3, 9.45, 9.58, 0.056, 2.5, 113.7, 339.4, 317.0, 10747.0),
    Planet("Uranus", 0x7fffd4, 0xadd8e6, 4.0, 19.18, 0.046, 0.77, 74.0, 96.9, 142.2, 30589.0),
    Planet("Neptune", 0x4169e1, 0x4682b4, 3.88, 30.07, 0.01, 1.77, 131.8, 265.6, 256.2, 59800.0)
  ]

  /** Elements the animation can use: an elliptic orbit with a positive size and period. */
  predicate WellFormed(p: Planet) {
    0.0 <= p.e < 1.0 && p.a > 0.0 && p.period > 0.0 && 0.0 <= p.m0 < 360.0
  }

  /** Every entry of the table is well formed, so `sqrt(1 - e)` is taken of a positive number,
      and the names are distinct, as the component keys require. */
  lemma PlanetDataWellFormed()
    ensures |PlanetData| == 8
    ensures forall k :: 0 <= k < |PlanetData| ==> WellFormed(PlanetData[k])
    ensures forall j, k :: 0 <= j < k < |PlanetData| ==> PlanetData[j].name != PlanetData[k].name
    ensures PlanetData[2].name == "Earth" && PlanetData[2].i == 0.0
  {
  }

  /** The scaled orbital period `period·0.05`, in seconds of simulation time. */
  function ScaledPeriod(p: Planet): real {
    p.period * 0.05
  }

  /** The mean anomaly in degrees: `(M0 + 360·t / period) % 360`, with JavaScript's `%`. */
  function MeanAnomalyDegrees(p: Planet, t: real): real
    requires p.period > 0.0
  {
    JsRem(p.m0 + (360.0 * t) / ScaledPeriod(p), 360.0)
  }

  /** For a non-negative argument the reduced angle lies in [0, 360). */
  lemma MeanAnomalyRange(p: Planet, t: real)
    requires p.period > 0.0 && p.m0 + (360.0 * t) / ScaledPeriod(p) >= 0.0
    ensures 0.0 <= MeanAnomalyDegrees(p, t) < 360.0
  {
    JsRemRange(p.m0 + (360.0 * t) / ScaledPeriod(p), 360.0);
  }

  /** One scaled period later the reduced angle is the same. */
  lemma MeanAnomalyPeriodic(p: Planet, t: real)
    requires p.period > 0.0 && p.m0 + (360.0 * t) / ScaledPeriod(p) >= 0.0
    ensures MeanAnomalyDegrees(p, t + ScaledPeriod(p)) == MeanAnomalyDegrees(p, t)
  {
    var P := ScaledPeriod(p);
    var q := (360.0 * t) / P;
    var q' := (360.0 * (t + P)) / P;
    assert q * P == 360.0 * t;
    assert q' * P == 360.0 * t + 360.0 * P;
    assert (q' - q - 360.0) * P == 0.0;
    ZeroFactor(q' - q - 360.0, P);
    JsRemPeriodic(p.m0 + q, 360.0);
  }

  /** The mean anomaly in radians. */
  function MeanAnomaly(p: Planet, t: real): real
    requires p.period > 0.0
  {
    MeanAnomalyDegrees(p, t) * (PI / 180.0)
  }

  /** The number of fixed-point steps in both the animation and the ellipse. */
  const FixedPointSteps: nat := 5

  /** One step `E = M + e·sin E`. */
  function FixedPointStep(m: MathLib, e: real, meanAnomaly: real, anomaly: real): real {
    meanAnomaly + e * m.sin(anomaly)
  }

  /** `k` steps of `E = M + e·sin E` from `anomaly`. */
  function FixedPoint(m: MathLib, e: real, meanAnomaly: real, anomaly: real, k: nat): real
    decreases k
  {
    if k == 0 then anomaly else FixedPoint(m, e, meanAnomaly, FixedPointStep(m, e, meanAnomaly, anomaly), k - 1)
  }

  /** After at least one step the estimate is within `|e|` of the mean anomaly. */
  lemma {:induction false} FixedPointNearMean(m: MathLib, e: real, meanAnomaly: real, anomaly: real, k: nat)
    requires Valid(m) && k >= 1
    ensures Abs(FixedPoint(m, e, meanAnomaly, anomaly, k) - meanAnomaly) <= Abs(e)
    decreases k
  {
    var next := FixedPointStep(m, e, meanAnomaly, anomaly);
    if k == 1 {
      var s := m.sin(anomaly);
      assert FixedPoint(m, e, meanAnomaly, anomaly, k) - meanAnomaly == e * s;
      if e >= 0.0 {
        ScaledUnit(e, s);
      } else {
        ScaledUnit(-e, s);
        assert (-e) * s == -(e * s);
      }
    } else {
      FixedPointNearMean(m, e, meanAnomaly, next, k - 1);
    }
  }

  /** A circular orbit needs no correction: every estimate is the mean anomaly. */
  lemma {:induction false} FixedPointCircular(m: MathLib, meanAnomaly: real, k: nat)
    ensures FixedPoint(m, 0.0, meanAnomaly, meanAnomaly, k) == meanAnomaly
    decreases k
  {
    if k > 0 {
      FixedPointCircular(m, meanAnomaly, k - 1);
    }
  }

  /** `for (let j = 0; j < 5; j++) E = M + e * Math.sin(E)`, starting from `E = M`. */
  method EccentricAnomaly(m: MathLib, e: real, meanAnomaly: real) returns (anomaly: real)
    ensures anomaly == FixedPoint(m, e, meanAnomaly, meanAnomaly, FixedPointSteps)
  {
    anomaly := meanAnomaly;
    for j := 0 to FixedPointSteps
      invariant FixedPoint(m, e, meanAnomaly, anomaly, FixedPointSteps - j)
                == FixedPoint(m, e, meanAnomaly, meanAnomaly, FixedPointSteps)
    {
      anomaly := FixedPointStep(m, e, meanAnomaly, anomaly);
    }
  }

  /** The distance from the focus, `a(1 - e·cos E)`. */
  function FocalDistance(m: MathLib, p: Planet, anomaly: real): real {
    p.a * (1.0 - p.e * m.cos(anomaly))
  }

  /** The distance stays between perihelion `a(1 - e)` and aphelion `a(1 + e)`. */
  lemma FocalDistanceBounds(m: MathLib, p: Planet, anomaly: real)
    requires Valid(m) && WellFormed(p)
    ensures p.a * (1.0 - p.e) <= FocalDistance(m, p, anomaly) <= p.a * (1.0 + p.e)
    ensures FocalDistance(m, p, anomaly) > 0.0
  {
    var c := m.cos(anomaly);
    assert FocalDistance(m, p, anomaly) == p.a * (1.0 - p.e * c);
    FactorBounds(p.a, p.e, c);
  }

  lemma FactorBounds(a: real, e: real, c: real)
    requires a > 0.0 && 0.0 <= e < 1.0 && -1.0 <= c <= 1.0
    ensures a * (1.0 - e) <= a * (1.0 - e * c) <= a * (1.0 + e)
    ensures a * (1.0 - e * c) > 0.0
  {
    ScaledUnit(e, c);
    var lo, mid, hi := 1.0 - e, 1.0 - e * c, 1.0 + e;
    assert 0.0 < lo <= mid <= hi;
    MulMonotone(lo, mid, a);
    MulMonotone(mid, hi, a);
    MulStrict(0.0, lo, a);
  }

  /** The position in the scene for eccentric anomaly `E`: the true anomaly, the point in the
      orbital plane, the rotations by the argument of periapsis, the inclination and the
      node, with the scene's y axis vertical, all scaled. */
  function PlanetPosition(m: MathLib, p: Planet, anomaly: real, scale: real): (pos: Vec3)
    ensures m.sin(Radians(p.i)) == 0.0 ==> pos.y == 0.0
  {
    var v := 2.0 * m.atan2(m.sqrt(1.0 + p.e) * m.sin(anomaly / 2.0), m.sqrt(1.0 - p.e) * m.cos(anomaly / 2.0));
    var r := FocalDistance(m, p, anomaly);
    var x, y := r * m.cos(v), r * m.sin(v);
    var w := Radians(p.w);
    var xp := x * m.cos(w) - y * m.sin(w);
    var yp := x * m.sin(w) + y * m.cos(w);
    var zp := yp * m.sin(Radians(p.i));
    var omega := Radians(p.omega);
    var xpp := xp * m.cos(omega) - yp * m.sin(omega);
    var ypp := xp * m.sin(omega) + yp * m.cos(omega);
    Vec3(xpp * scale, zp * scale, ypp * scale)
  }

  /** Earth's orbit has inclination 0, so it stays in the horizontal plane. */
  lemma EarthStaysLevel(m: MathLib, anomaly: real, scale: real)
    requires Valid(m)
    ensures PlanetPosition(m, PlanetData[2], anomaly, scale).y == 0.0
  {
    assert Radians(PlanetData[2].i) == 0.0;
  }

  /** The scale factor of the scene. */
  const SceneScale: real := 4.0

  /** The animated state of one `PlanetWithAtmosphere`: the time accumulator and the meshes
      its frame callback moves. Earth has no atmosphere mesh. */
  class PlanetAnimation {
    const planet: Planet
    var time: real
    var meshPosition: Vec3
    var atmospherePosition: Vec3
    var atmosphereRotationY: real
    /** The frames seen so far, each as its `(delta, simSpeed)`. */
    ghost var history: seq<(real, real)>

    /** The accumulator is the sum of the increments of the frames seen so far. */
    ghost predicate Valid()
      reads this
    {
      time == AccumulatedTime(history)
    }

    predicate HasAtmosphere() {
      planet.name != "Earth"
    }

    constructor (planet: Planet)
      ensures this.planet == planet && time == 0.0
      ensures meshPosition == Vec3(0.0, 0.0, 0.0) && atmospherePosition == Vec3(0.0, 0.0, 0.0)
      ensures atmosphereRotationY == 0.0
      ensures Valid() && history == []
    {
      this.planet := planet;
      history := [];
      time := 0.0;
      meshPosition, atmospherePosition := Vec3(0.0, 0.0, 0.0), Vec3(0.0, 0.0, 0.0);
      atmosphereRotationY := 0.0;
    }

    /** The accumulator's update, `timeRef.current += delta * simSpeed`. */
    method Advance(delta: real, simSpeed: real)
      requires Valid()
      modifies this`time, this`history
      ensures time == old(time) + delta * simSpeed
      ensures Valid() && history == old(history) + [(delta, simSpeed)]
    {
      AccumulatedTimeStep(history, delta, simSpeed);
      time := time + delta * simSpeed;
      history := history + [(delta, simSpeed)];
    }

    /** One frame of `delta` seconds at the current `simSpeed`: the accumulator grows by
        `delta·simSpeed`, and the planet's meshes move to the position for the new time. */
    method Frame(m: MathLib, delta: real, simSpeed: real)
      requires planet.period > 0.0 && Valid()
      modifies this
      ensures time == old(time) + delta * simSpeed
      ensures Valid() && history == old(history) + [(delta, simSpeed)]
      ensures meshPosition == PlanetPosition(m, planet,
                FixedPoint(m, planet.e, MeanAnomaly(planet, time), MeanAnomaly(planet, time), FixedPointSteps), SceneScale)
      ensures HasAtmosphere() ==> atmospherePosition == meshPosition && atmosphereRotationY == old(atmosphereRotationY) + 0.0005
      ensures !HasAtmosphere() ==> atmospherePosition == old(atmospherePosition) && atmosphereRotationY == old(atmosphereRotationY)
    {
      Advance(delta, simSpeed);
      var meanAnomaly := MeanAnomaly(planet, time);
      var anomaly := EccentricAnomaly(m, planet.e, meanAnomaly);
      var pos := PlanetPosition(m, planet, anomaly, SceneScale);
      meshPosition := pos;
      if HasAtmosphere() {
        atmospherePosition := pos;
        atmosphereRotationY := atmosphereRotationY + 0.0005;
      }
    }
  }

  /** Frames with a changed speed: the time reached is the sum of each frame's `delta·speed`,
      so a new speed changes only later increments. */
  function AccumulatedTime(frames: seq<(real, real)>): real {
    if frames == [] then 0.0 else AccumulatedTime(frames[..|frames| - 1]) + frames[|frames| - 1].0 * frames[|frames| - 1].1
  }

  /** One more frame adds its own increment. */
  lemma AccumulatedTimeStep(frames: seq<(real, real)>, delta: real, simSpeed: real)
    ensures AccumulatedTime(frames + [(delta, simSpeed)]) == AccumulatedTime(frames) + delta * simSpeed
  {
    assert (frames + [(delta, simSpeed)])[..|frames|] == frames;
  }

  /** Distributing the accumulator over two runs of frames. */
  lemma {:induction false} AccumulatedTimeAppend(earlier: seq<(real, real)>, later: seq<(real, real)>)
    ensures AccumulatedTime(earlier + later) == AccumulatedTime(earlier) + AccumulatedTime(later)
    decreases |later|
  {
    if later != [] {
      var init := later[..|later| - 1];
      assert (earlier + later)[..|earlier + later| - 1] == earlier + init;
      AccumulatedTimeAppend(earlier, init);
    } else {
      assert earlier + later == earlier;
    }
  }

  /** The ellipse samples every second degree from 0 to 360. */
  const EllipseSamples: nat := 181

  /** The sample angle of the `k`-th ellipse point, in degrees. */
  function EllipseDegrees(k: nat): real {
    (2 * k) as real
  }

  /** The first sample is at 0 and the last at a full turn of 2π radians: the path is closed. */
  lemma EllipseClosed()
    ensures Radians(EllipseDegrees(0)) == 0.0
    ensures Radians(EllipseDegrees(EllipseSamples - 1)) == 2.0 * PI
  {
  }

  /** The `k`-th point of the orbit ellipse. */
  function EllipsePoint(m: MathLib, p: Planet, scale: real, k: nat): Vec3 {
    var meanAnomaly := Radians(EllipseDegrees(k));
    PlanetPosition(m, p, FixedPoint(m, p.e, meanAnomaly, meanAnomaly, FixedPointSteps), scale)
  }

  /** `OrbitEllipse`: for every second degree `a` from 0 through 360, one point from the same
      five-step solve and placement as the animation. */
  method OrbitEllipse(m: MathLib, p: Planet, scale: real) returns (points: seq<Vec3>)
    ensures |points| == EllipseSamples
    ensures forall k :: 0 <= k < |points| ==> points[k] == EllipsePoint(m, p, scale, k)
  {
    points := [];
    var a := 0;
    while a <= 360
      invariant 0 <= a <= 362 && a % 2 == 0
      invariant |points| == a / 2
      invariant forall k :: 0 <= k < |points| ==> points[k] == EllipsePoint(m, p, scale, k)
      decreases 362 - a
    {
      var meanAnomaly := a as real * (PI / 180.0);
      var anomaly := EccentricAnomaly(m, p.e, meanAnomaly);
      assert meanAnomaly == Radians(EllipseDegrees(a / 2));
      points := points + [PlanetPosition(m, p, anomaly, scale)];
      a := a + 2;
    }
  }
}
