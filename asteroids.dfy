/** The asteroid component: the `KeplerOrbit` class with its fixed ten-step
    Newton solve, the per-frame update of the mesh, the 721-point orbit line,
    and the payload reported on a click. */
module Asteroids {
  import opened Numerics
  import opened OrbitGeometry

  /** One Newton update of `getPosition`: `E - (E - e·sin E - M) / (1 - e·cos E)`. */
  function NewtonStep(m: MathLib, e: real, meanAnomaly: real, anomaly: real): real
    requires Valid(m) && 0.0 <= e < 1.0
  {
    anomaly - (anomaly - e * m.sin(anomaly) - meanAnomaly) / Denominator(m, e, anomaly)
  }

  /** `k` Newton updates starting from `anomaly`. */
  function Iterate(m: MathLib, e: real, meanAnomaly: real, anomaly: real, k: nat): real
    requires Valid(m) && 0.0 <= e < 1.0
    decreases k
  {
    if k == 0 then anomaly else Iterate(m, e, meanAnomaly, NewtonStep(m, e, meanAnomaly, anomaly), k - 1)
  }

  /** A solution of Kepler's equation `E - e·sin E = M` is a fixed point of the update. */
  lemma SolutionIsFixed(m: MathLib, e: real, meanAnomaly: real, anomaly: real)
    requires Valid(m) && 0.0 <= e < 1.0
    requires anomaly - e * m.sin(anomaly) == meanAnomaly
    ensures NewtonStep(m, e, meanAnomaly, anomaly) == anomaly
  {
  }

  /** Iterating from a solution of Kepler's equation never leaves it. */
  lemma {:induction false} IterateKeepsSolution(m: MathLib, e: real, meanAnomaly: real, anomaly: real, k: nat)
    requires Valid(m) && 0.0 <= e < 1.0
    requires anomaly - e * m.sin(anomaly) == meanAnomaly
    ensures Iterate(m, e, meanAnomaly, anomaly, k) == anomaly
    decreases k
  {
    if k > 0 {
      SolutionIsFixed(m, e, meanAnomaly, anomaly);
      IterateKeepsSolution(m, e, meanAnomaly, anomaly, k - 1);
    }
  }

  /** On a circular orbit one update reaches the mean anomaly and every later one stays there. */
  lemma {:induction false} CircularOrbitSolved(m: MathLib, meanAnomaly: real, anomaly: real, k: nat)
    requires Valid(m) && k >= 1
    ensures Iterate(m, 0.0, meanAnomaly, anomaly, k) == meanAnomaly
  {
    assert NewtonStep(m, 0.0, meanAnomaly, anomaly) == meanAnomaly;
    IterateKeepsSolution(m, 0.0, meanAnomaly, meanAnomaly, k - 1);
  }

  /** Iterating `j` then `k` more times is iterating `j + k` times. */
  lemma {:induction false} IterateSplit(m: MathLib, e: real, meanAnomaly: real, anomaly: real, j: nat, k: nat)
    requires Valid(m) && 0.0 <= e < 1.0
    ensures Iterate(m, e, meanAnomaly, Iterate(m, e, meanAnomaly, anomaly, j), k) == Iterate(m, e, meanAnomaly, anomaly, j + k)
    decreases j
  {
    if j > 0 {
      IterateSplit(m, e, meanAnomaly, NewtonStep(m, e, meanAnomaly, anomaly), j - 1, k);
    }
  }

  /** The number of Newton updates `getPosition` performs. */
  const NewtonIterations: nat := 10

  /** The orbital elements of one asteroid; `epoch` is the reference time. */
  class KeplerOrbit {
    const a: real
    const e: real
    const i: real
    const ascendingNode: real
    const argOfPeriapsis: real
    const m0: real
    const epoch: real

    /** Stores the seven elements unchanged; the epoch defaults to 0. */
    constructor (a: real, e: real, i: real, ascendingNode: real, argOfPeriapsis: real, m0: real, epoch: real := 0.0)
      ensures this.a == a && this.e == e && this.i == i
      ensures this.ascendingNode == ascendingNode && this.argOfPeriapsis == argOfPeriapsis
      ensures this.m0 == m0 && this.epoch == epoch
    {
      this.a, this.e, this.i := a, e, i;
      this.ascendingNode, this.argOfPeriapsis := ascendingNode, argOfPeriapsis;
      this.m0, this.epoch := m0, epoch;
    }

    /** An orbit `getPosition` can evaluate: an elliptic one with a non-zero semi-major axis. */
    predicate Elliptic() {
      a != 0.0 && 0.0 <= e < 1.0
    }

    /** The mean anomaly `M0 + n·(t - epoch)`; it is `M0` at the epoch and grows by `n` per
        unit of time. */
    function MeanAnomaly(m: MathLib, t: real): (mean: real)
      requires a != 0.0
      ensures t == epoch ==> mean == m0
      ensures mean - m0 == MeanMotion(m, a) * (t - epoch)
    {
      m0 + MeanMotion(m, a) * (t - epoch)
    }

    /** The position at time `t`: ten Newton updates from the mean anomaly, then the plane
        point rotated into the reference frame. */
    function Position(m: MathLib, t: real): Vec3
      requires Valid(m) && Elliptic()
    {
      var mean := MeanAnomaly(m, t);
      ToWorld(m, PlanePoint(m, a, e, Iterate(m, e, mean, mean, NewtonIterations)), i, ascendingNode, argOfPeriapsis)
    }

    /** `getPosition(t)`. */
    method GetPosition(m: MathLib, t: real) returns (pos: Vec3)
      requires Valid(m) && Elliptic()
      ensures pos == Position(m, t)
    {
      var mean := MeanAnomaly(m, t);
      var anomaly := mean;
      for k := 0 to NewtonIterations
        invariant Iterate(m, e, mean, anomaly, NewtonIterations - k) == Iterate(m, e, mean, mean, NewtonIterations)
      {
        anomaly := NewtonStep(m, e, mean, anomaly);
      }
      pos := ToWorld(m, PlanePoint(m, a, e, anomaly), i, ascendingNode, argOfPeriapsis);
    }

    /** An orbit of inclination 0 stays in the reference plane at every time. */
    lemma ZeroInclinationStaysFlat(m: MathLib, t: real)
      requires Valid(m) && Elliptic() && i == 0.0
      ensures Position(m, t).z == 0.0
    {
    }

    /** On a circular orbit the eccentric anomaly used is the mean anomaly itself. */
    lemma CircularPosition(m: MathLib, t: real)
      requires Valid(m) && a != 0.0 && e == 0.0
      ensures Position(m, t) == ToWorld(m, PlanePoint(m, a, 0.0, MeanAnomaly(m, t)), i, ascendingNode, argOfPeriapsis)
    {
      CircularOrbitSolved(m, MeanAnomaly(m, t), MeanAnomaly(m, t), NewtonIterations);
    }
  }

  /** `speed || 1`: a speed of 0 behaves as 1. */
  function CurrentSpeed(speed: real): (s: real)
    ensures s != 0.0
    ensures speed != 0.0 ==> s == speed
    ensures speed == 0.0 ==> s == 1.0
  {
    if speed == 0.0 then 1.0 else speed
  }

  /** The simulation time of a frame: milliseconds since the epoch, times the speed, in
      seconds. */
  function ElapsedTime(now: real, epoch: real, speed: real): (time: real)
    ensures now == epoch ==> time == 0.0
    ensures speed == 0.0 ==> time == (now - epoch) * 0.001
  {
    (now - epoch) * CurrentSpeed(speed) * 0.001
  }

  /** The component passes the same epoch to the orbit and to the frame's elapsed time, so the
      epoch is subtracted twice: at the first frame the mean anomaly is `M0 - n·epoch`, not
      `M0`. */
  lemma FirstFrameMeanAnomaly(m: MathLib, orbit: KeplerOrbit, speed: real)
    requires orbit.a != 0.0
    ensures orbit.MeanAnomaly(m, ElapsedTime(orbit.epoch, orbit.epoch, speed))
            == orbit.m0 - MeanMotion(m, orbit.a) * orbit.epoch
  {
  }

  /** The mesh of one asteroid: its orbit, the epoch captured at mount, its speed prop, and
      the position and rotation each frame writes. */
  class AsteroidMesh {
    const orbit: KeplerOrbit
    const epoch: real
    const speed: real
    var position: Vec3
    var rotationX: real
    var rotationY: real

    /** Mounting: the orbit is built with the mount time as its epoch. */
    constructor (a: real, e: real, i: real, ascendingNode: real, argOfPeriapsis: real, meanAnomaly: real,
                 speed: real, mountTime: real)
      ensures orbit.a == a && orbit.e == e && orbit.i == i && orbit.ascendingNode == ascendingNode
      ensures orbit.argOfPeriapsis == argOfPeriapsis && orbit.m0 == meanAnomaly
      ensures orbit.epoch == mountTime && epoch == mountTime && this.speed == speed
      ensures position == Vec3(0.0, 0.0, 0.0) && rotationX == 0.0 && rotationY == 0.0
    {
      orbit := new KeplerOrbit(a, e, i, ascendingNode, argOfPeriapsis, meanAnomaly, mountTime);
      epoch := mountTime;
      this.speed := speed;
      position := Vec3(0.0, 0.0, 0.0);
      rotationX, rotationY := 0.0, 0.0;
    }

    /** One `useFrame` callback at wall-clock time `now` (milliseconds). */
    method Frame(m: MathLib, now: real)
      requires Valid(m) && orbit.Elliptic()
      modifies this
      ensures position == orbit.Position(m, ElapsedTime(now, epoch, speed))
      ensures rotationX == old(rotationX) + 0.01 * CurrentSpeed(speed)
      ensures rotationY == old(rotationY) + 0.005 * CurrentSpeed(speed)
    {
      var currentSpeed := CurrentSpeed(speed);
      var time := ElapsedTime(now, epoch, speed);
      position := orbit.GetPosition(m, time);
      rotationX := rotationX + 0.01 * currentSpeed;
      rotationY := rotationY + 0.005 * currentSpeed;
    }
  }

  /** Three.js `applyAxisAngle(axis, angle)`, a call into the library. */
  type AxisRotation = (Vec3, Vec3, real) -> Vec3

  /** `v.applyAxisAngle(axis, angle)`. */
  function ApplyAxisAngle(rotate: AxisRotation, v: Vec3, axis: Vec3, angle: real): Vec3 {
    rotate(v, axis, angle)
  }

  const Segments: nat := 720
  const ZAxis: Vec3 := Vec3(0.0, 0.0, 1.0)
  const XAxis: Vec3 := Vec3(1.0, 0.0, 0.0)

  /** The sample angle `(k / 720)·π·2`. */
  function Theta(k: nat): real {
    (k as real / Segments as real) * PI * 2.0
  }

  /** The samples start at 0 and end at a full turn, so the line is closed, and they increase. */
  lemma ThetaEndpoints(j: nat, k: nat)
    requires j < k
    ensures Theta(0) == 0.0 && Theta(Segments) == 2.0 * PI
    ensures Theta(j) < Theta(k)
  {
    assert (j as real / 720.0) < (k as real / 720.0);
    MulStrict(j as real / 720.0, k as real / 720.0, PI * 2.0);
    assert (j as real / 720.0) * PI * 2.0 == (j as real / 720.0) * (PI * 2.0);
    assert (k as real / 720.0) * PI * 2.0 == (k as real / 720.0) * (PI * 2.0);
  }

  /** The semi-latus rectum `a(1 - e²)`. */
  function SemiLatusRectum(a: real, e: real): real {
    a * (1.0 - e * e)
  }

  /** The polar equation of the ellipse, `a(1 - e²) / (1 + e·cos θ)`. */
  function PolarRadius(m: MathLib, a: real, e: real, theta: real): real
    requires Valid(m) && 0.0 <= e < 1.0
  {
    ScaledUnit(e, m.cos(theta));
    SemiLatusRectum(a, e) / (1.0 + e * m.cos(theta))
  }

  /** Its denominator is at least `1 - e`, and the radius is positive for a positive
      semi-major axis. */
  lemma PolarRadiusPositive(m: MathLib, a: real, e: real, theta: real)
    requires Valid(m) && 0.0 <= e < 1.0 && a > 0.0
    ensures 1.0 + e * m.cos(theta) >= 1.0 - e > 0.0
    ensures PolarRadius(m, a, e, theta) > 0.0
  {
    ScaledUnit(e, m.cos(theta));
    MulMonotone(e, 1.0, e);
    MulStrict(0.0, 1.0 - e * e, a);
    DivPositive(SemiLatusRectum(a, e), 1.0 + e * m.cos(theta));
  }

  /** The point at polar angle `theta` on the ellipse, in its own plane. */
  function PolarPoint(m: MathLib, a: real, e: real, theta: real): (p: Vec3)
    requires Valid(m) && 0.0 <= e < 1.0
    ensures p.z == 0.0
  {
    var r := PolarRadius(m, a, e, theta);
    Vec3(r * m.cos(theta), r * m.sin(theta), 0.0)
  }

  /** The `k`-th point of the orbit line: the polar point rotated about z by the argument of
      periapsis, about x by the inclination and about z by the ascending node. */
  function OrbitLinePoint(m: MathLib, rotate: AxisRotation, a: real, e: real, inclination: real,
                          ascendingNode: real, argOfPeriapsis: real, k: nat): Vec3
    requires Valid(m) && 0.0 <= e < 1.0
  {
    var pos := PolarPoint(m, a, e, Theta(k));
    ApplyAxisAngle(rotate, ApplyAxisAngle(rotate, ApplyAxisAngle(rotate, pos, ZAxis, argOfPeriapsis), XAxis, inclination),
                   ZAxis, ascendingNode)
  }

  /** The `orbitLine` sampling loop: `segments + 1` points, the `k`-th at angle `Theta(k)`. */
  method OrbitLine(m: MathLib, rotate: AxisRotation, a: real, e: real, inclination: real,
                   ascendingNode: real, argOfPeriapsis: real) returns (points: seq<Vec3>)
    requires Valid(m) && 0.0 <= e < 1.0
    ensures |points| == Segments + 1
    ensures forall k :: 0 <= k < |points| ==>
              points[k] == OrbitLinePoint(m, rotate, a, e, inclination, ascendingNode, argOfPeriapsis, k)
  {
    points := [];
    for k := 0 to Segments + 1
      invariant |points| == k
      invariant forall j :: 0 <= j < k ==>
                  points[j] == OrbitLinePoint(m, rotate, a, e, inclination, ascendingNode, argOfPeriapsis, j)
    {
      var pos := PolarPoint(m, a, e, Theta(k));
      pos := ApplyAxisAngle(rotate, pos, ZAxis, argOfPeriapsis);
      pos := ApplyAxisAngle(rotate, pos, XAxis, inclination);
      pos := ApplyAxisAngle(rotate, pos, ZAxis, ascendingNode);
      points := points + [pos];
    }
  }

  /** The props of the component that a click reports, plus those it does not. */
  datatype AsteroidProps = AsteroidProps(
    semiMajorAxis: real,
    eccentricity: real,
    inclination: real,
    ascendingNode: real,
    argOfPeriapsis: real,
    meanAnomaly: real,
    size: real,
    color: string,
    speed: real)

  datatype ClickInfo = ClickInfo(
    name: string,
    semiMajorAxis: real,
    eccentricity: real,
    inclination: real,
    ascendingNode: real,
    argOfPeriapsis: real,
    size: real,
    speed: real)

  /** The object handed to `onAsteroidClick`. The component has no `name` prop; the name it
      reports is whatever `name` means in the enclosing scope, here `ambientName`. */
  function ClickPayload(p: AsteroidProps, ambientName: string): (c: ClickInfo)
    ensures c.name == ambientName
    ensures c.semiMajorAxis == p.semiMajorAxis && c.eccentricity == p.eccentricity
    ensures c.inclination == p.inclination && c.ascendingNode == p.ascendingNode
    ensures c.argOfPeriapsis == p.argOfPeriapsis && c.size == p.size && c.speed == p.speed
  {
    ClickInfo(ambientName, p.semiMajorAxis, p.eccentricity, p.inclination, p.ascendingNode,
              p.argOfPeriapsis, p.size, p.speed)
  }

  /** The payload does not depend on the mean anomaly or the colour, and two asteroids clicked
      in the same scope report the same name. */
  lemma ClickIgnoresAnomalyAndColor(p: AsteroidProps, q: AsteroidProps, ambientName: string)
    requires p.(meanAnomaly := q.meanAnomaly, color := q.color) == q
    ensures ClickPayload(p, ambientName) == ClickPayload(q, ambientName)
  {
  }
}
