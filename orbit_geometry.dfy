/** The geometry that the asteroid orbit (`KeplerOrbit.getPosition`) and the
    orbital-mechanics helper (`calculateOrbitPosition`) share, written
    identically in both: mean motion, the Newton denominator, the point in the
    orbital plane, and the rotation into the reference frame. */
module OrbitGeometry {
  import opened Numerics

  /** A `THREE.Vector3`. */
  datatype Vec3 = Vec3(x: real, y: real, z: real)

  /** Mean motion `sqrt(1 / a³)`, in the units where the gravitational parameter is 1. */
  function MeanMotion(m: MathLib, a: real): real
    requires a != 0.0
  {
    m.sqrt(1.0 / (a * a * a))
  }

  /** A positive semi-major axis gives a positive mean motion. */
  lemma MeanMotionPositive(m: MathLib, a: real)
    requires Valid(m) && a > 0.0
    ensures MeanMotion(m, a) > 0.0
  {
    assert a * a * a > 0.0;
  }

  /** The denominator `1 - e·cos E` of both Newton updates; it stays in [1 - e, 1 + e], so
      it is positive for an elliptic orbit. */
  function Denominator(m: MathLib, e: real, anomaly: real): (d: real)
    requires Valid(m) && 0.0 <= e < 1.0
    ensures 0.0 < 1.0 - e <= d <= 1.0 + e
  {
    ScaledUnit(e, m.cos(anomaly));
    1.0 - e * m.cos(anomaly)
  }

  /** The point in the orbital plane for eccentric anomaly `E`, periapsis on the x axis. */
  function PlanePoint(m: MathLib, a: real, e: real, anomaly: real): (p: Vec3)
    ensures p.z == 0.0
  {
    Vec3(a * (m.cos(anomaly) - e), a * m.sqrt(1.0 - e * e) * m.sin(anomaly), 0.0)
  }

  /** The rotation by argument of periapsis, inclination and ascending node applied to a point
      of the orbital plane. A zero sine of the inclination keeps the point in the reference
      plane. */
  function ToWorld(m: MathLib, p: Vec3, inclination: real, ascendingNode: real, argOfPeriapsis: real): (w: Vec3)
    ensures m.sin(inclination) == 0.0 ==> w.z == 0.0
  {
    var cosNode, sinNode := m.cos(ascendingNode), m.sin(ascendingNode);
    var cosArg, sinArg := m.cos(argOfPeriapsis), m.sin(argOfPeriapsis);
    var cosInc, sinInc := m.cos(inclination), m.sin(inclination);
    Vec3(
      p.x * (cosArg * cosNode - sinArg * sinNode * cosInc) - p.y * (sinArg * cosNode + cosArg * sinNode * cosInc),
      p.x * (cosArg * sinNode + sinArg * cosNode * cosInc) + p.y * (cosArg * cosNode * cosInc - sinArg * sinNode),
      p.x * (sinArg * sinInc) + p.y * (cosArg * sinInc))
  }

  /** With all three angles zero the rotation is the identity on the orbital plane. */
  lemma ToWorldIdentity(m: MathLib, x: real, y: real)
    requires Valid(m)
    ensures ToWorld(m, Vec3(x, y, 0.0), 0.0, 0.0, 0.0) == Vec3(x, y, 0.0)
  {
  }

  /** An orbit of inclination 0 lies in the reference plane, whatever the other angles. */
  lemma ZeroInclinationFlat(m: MathLib, p: Vec3, ascendingNode: real, argOfPeriapsis: real)
    requires Valid(m)
    ensures ToWorld(m, p, 0.0, ascendingNode, argOfPeriapsis).z == 0.0
  {
  }
}
