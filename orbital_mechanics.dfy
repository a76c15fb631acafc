/** The orbital-mechanics helpers: Kepler position with a Newton solve that
    stops early, the gravitational force between two bodies, and the
    scaling between astronomical and visual distances. */
module OrbitalMechanics {
  import opened Numerics
  import opened OrbitGeometry
  import Asteroids

  const G: real := 6.67430e-11
  const ScaleFactor: real := 1e9
  const AU: real := 149597870700.0

  /** The tolerance below which a correction ends the solve. */
  const Tolerance: real := 1e-8
  const MaxIterations: nat := 10

  /** The correction `dE = (M - E + e·sin E) / (1 - e·cos E)`. */
  function Correction(m: MathLib, e: real, meanAnomaly: real, anomaly: real): real
    requires Valid(m) && 0.0 <= e < 1.0
  {
    (meanAnomaly - anomaly + e * m.sin(anomaly)) / Denominator(m, e, anomaly)
  }

  /** `E + dE` is the update `getPosition` of the asteroid orbit writes as
      `E - (E - e·sin E - M) / (1 - e·cos E)`. */
  lemma SameStep(m: MathLib, e: real, meanAnomaly: real, anomaly: real)
    requires Valid(m) && 0.0 <= e < 1.0
    ensures anomaly + Correction(m, e, meanAnomaly, anomaly) == Asteroids.NewtonStep(m, e, meanAnomaly, anomaly)
  {
    var d := Denominator(m, e, anomaly);
    var num := anomaly - e * m.sin(anomaly) - meanAnomaly;
    assert (-num) / d == -(num / d);
  }

  /** The outcome of the solve: the eccentric anomaly and the number of corrections applied. */
  datatype Solution = Solution(anomaly: real, steps: nat)

  /** Newton's method from `anomaly` with at most `budget` corrections, stopping right after
      the first correction smaller than the tolerance. */
  function Solve(m: MathLib, e: real, meanAnomaly: real, anomaly: real, budget: nat): (s: Solution)
    requires Valid(m) && 0.0 <= e < 1.0
    ensures budget == 0 ==> s == Solution(anomaly, 0)
    ensures budget > 0 ==> 1 <= s.steps <= budget
    decreases budget
  {
    if budget == 0 then Solution(anomaly, 0)
    else
      var dE := Correction(m, e, meanAnomaly, anomaly);
      if Abs(dE) < Tolerance then Solution(anomaly + dE, 1)
      else
        var rest := Solve(m, e, meanAnomaly, anomaly + dE, budget - 1);
        Solution(rest.anomaly, rest.steps + 1)
  }

  /** The early-exit solve is the fixed-step update applied `steps` times; every correction
      before the last was at least the tolerance, and when the budget was not used up the
      last one was below it. */
  lemma {:induction false} SolveIsPrefixOfIteration(m: MathLib, e: real, meanAnomaly: real, anomaly: real, budget: nat)
    requires Valid(m) && 0.0 <= e < 1.0
    ensures var s := Solve(m, e, meanAnomaly, anomaly, budget);
            && s.anomaly == Asteroids.Iterate(m, e, meanAnomaly, anomaly, s.steps)
            && (forall j :: 0 <= j < s.steps - 1 ==>
                  Abs(Correction(m, e, meanAnomaly, Asteroids.Iterate(m, e, meanAnomaly, anomaly, j))) >= Tolerance)
            && (0 < s.steps < budget ==>
                  Abs(Correction(m, e, meanAnomaly, Asteroids.Iterate(m, e, meanAnomaly, anomaly, s.steps - 1))) < Tolerance)
    decreases budget
  {
    if budget > 0 {
      var dE := Correction(m, e, meanAnomaly, anomaly);
      SameStep(m, e, meanAnomaly, anomaly);
      var next := Asteroids.NewtonStep(m, e, meanAnomaly, anomaly);
      assert Asteroids.Iterate(m, e, meanAnomaly, anomaly, 0) == anomaly;
      if Abs(dE) >= Tolerance {
        SolveIsPrefixOfIteration(m, e, meanAnomaly, next, budget - 1);
        var rest := Solve(m, e, meanAnomaly, next, budget - 1);
        forall j | 0 <= j <= rest.steps
          ensures Asteroids.Iterate(m, e, meanAnomaly, anomaly, j + 1) == Asteroids.Iterate(m, e, meanAnomaly, next, j)
        {
        }
      }
    }
  }

  /** When no correction of the first ten falls below the tolerance, the early-exit solve and
      the asteroid orbit's fixed ten-step loop give the same eccentric anomaly. */
  lemma {:induction false} AgreesWithFixedLoop(m: MathLib, e: real, meanAnomaly: real, anomaly: real, budget: nat)
    requires Valid(m) && 0.0 <= e < 1.0
    requires forall j :: 0 <= j < budget ==>
               Abs(Correction(m, e, meanAnomaly, Asteroids.Iterate(m, e, meanAnomaly, anomaly, j))) >= Tolerance
    ensures Solve(m, e, meanAnomaly, anomaly, budget) == Solution(Asteroids.Iterate(m, e, meanAnomaly, anomaly, budget), budget)
    decreases budget
  {
    if budget > 0 {
      SameStep(m, e, meanAnomaly, anomaly);
      var next := Asteroids.NewtonStep(m, e, meanAnomaly, anomaly);
      assert Asteroids.Iterate(m, e, meanAnomaly, anomaly, 0) == anomaly;
      forall j | 0 <= j < budget
        ensures Asteroids.Iterate(m, e, meanAnomaly, anomaly, j + 1) == Asteroids.Iterate(m, e, meanAnomaly, next, j)
      {
      }
      AgreesWithFixedLoop(m, e, meanAnomaly, next, budget - 1);
    }
  }

  /** A solution of Kepler's equation needs one zero correction and is returned as is. */
  lemma SolutionStopsAtOnce(m: MathLib, e: real, meanAnomaly: real, anomaly: real)
    requires Valid(m) && 0.0 <= e < 1.0
    requires anomaly - e * m.sin(anomaly) == meanAnomaly
    ensures Solve(m, e, meanAnomaly, anomaly, MaxIterations) == Solution(anomaly, 1)
  {
    assert Correction(m, e, meanAnomaly, anomaly) == 0.0;
  }

  /** The mean anomaly `meanAnomaly + n·time`: there is no epoch, so it is the given mean
      anomaly at time 0. */
  function MeanAnomalyAt(m: MathLib, a: real, meanAnomaly: real, time: real): (mean: real)
    requires a != 0.0
    ensures time == 0.0 ==> mean == meanAnomaly
    ensures mean - meanAnomaly == MeanMotion(m, a) * time
  {
    meanAnomaly + MeanMotion(m, a) * time
  }

  /** The position the solve selects: its eccentric anomaly in the orbital plane, rotated. */
  function OrbitPosition(m: MathLib, a: real, e: real, inclination: real, ascendingNode: real,
                         argOfPeriapsis: real, meanAnomaly: real, time: real): Vec3
    requires Valid(m) && a != 0.0 && 0.0 <= e < 1.0
  {
    var mean := MeanAnomalyAt(m, a, meanAnomaly, time);
    var anomaly := Solve(m, e, mean, mean, MaxIterations).anomaly;
    ToWorld(m, PlanePoint(m, a, e, anomaly), inclination, ascendingNode, argOfPeriapsis)
  }

  /** One turn of the solve: a correction below the tolerance ends it, any other continues
      from the corrected estimate with one correction fewer. */
  lemma SolveUnfold(m: MathLib, e: real, meanAnomaly: real, anomaly: real, budget: nat)
    requires Valid(m) && 0.0 <= e < 1.0 && budget > 0
    ensures var dE := Correction(m, e, meanAnomaly, anomaly);
            && (Abs(dE) < Tolerance ==> Solve(m, e, meanAnomaly, anomaly, budget).anomaly == anomaly + dE)
            && (Abs(dE) >= Tolerance ==>
                  Solve(m, e, meanAnomaly, anomaly, budget).anomaly == Solve(m, e, meanAnomaly, anomaly + dE, budget - 1).anomaly)
  {
  }

  /** The solve loop of `calculateOrbitPosition`, from `E = M`, leaving the loop at the first
      correction below the tolerance. */
  method SolveKepler(m: MathLib, e: real, mean: real) returns (anomaly: real)
    requires Valid(m) && 0.0 <= e < 1.0
    ensures anomaly == Solve(m, e, mean, mean, MaxIterations).anomaly
  {
    ghost var target := Solve(m, e, mean, mean, MaxIterations).anomaly;
    anomaly := mean;
    var k := 0;
    while k < MaxIterations
      invariant 0 <= k <= MaxIterations
      invariant Solve(m, e, mean, anomaly, MaxIterations - k).anomaly == target
    {
      SolveUnfold(m, e, mean, anomaly, MaxIterations - k);
      var dE := Correction(m, e, mean, anomaly);
      anomaly := anomaly + dE;
      if Abs(dE) < Tolerance {
        break;
      }
      k := k + 1;
    }
  }

  /** `calculateOrbitPosition`. */
  method CalculateOrbitPosition(m: MathLib, a: real, e: real, inclination: real, ascendingNode: real,
                                argOfPeriapsis: real, meanAnomaly: real, time: real) returns (pos: Vec3)
    requires Valid(m) && a != 0.0 && 0.0 <= e < 1.0
    ensures pos == OrbitPosition(m, a, e, inclination, ascendingNode, argOfPeriapsis, meanAnomaly, time)
  {
    var mean := MeanAnomalyAt(m, a, meanAnomaly, time);
    var anomaly := SolveKepler(m, e, mean);
    pos := ToWorld(m, PlanePoint(m, a, e, anomaly), inclination, ascendingNode, argOfPeriapsis);
  }

  /** A zero inclination keeps the position in the reference plane. */
  lemma ZeroInclinationFlat(m: MathLib, a: real, e: real, ascendingNode: real, argOfPeriapsis: real,
                            meanAnomaly: real, time: real)
    requires Valid(m) && a != 0.0 && 0.0 <= e < 1.0
    ensures OrbitPosition(m, a, e, 0.0, ascendingNode, argOfPeriapsis, meanAnomaly, time).z == 0.0
  {
  }

  function Sub(u: Vec3, v: Vec3): Vec3 {
    Vec3(u.x - v.x, u.y - v.y, u.z - v.z)
  }

  function Scale(v: Vec3, k: real): Vec3 {
    Vec3(v.x * k, v.y * k, v.z * k)
  }

  function Neg(v: Vec3): Vec3 {
    Vec3(-v.x, -v.y, -v.z)
  }

  function SquaredLength(v: Vec3): real {
    v.x * v.x + v.y * v.y + v.z * v.z
  }

  /** The Euclidean length `sqrt(x² + y² + z²)`. */
  function Length(m: MathLib, v: Vec3): real {
    m.sqrt(SquaredLength(v))
  }

  /** `G·m1·m2 / d²` for the distance `d` between the two positions. */
  function ForceMagnitude(m: MathLib, pos1: Vec3, mass1: real, pos2: Vec3, mass2: real): real
    requires Length(m, Sub(pos2, pos1)) != 0.0
  {
    var distance := Length(m, Sub(pos2, pos1));
    (G * mass1 * mass2) / (distance * distance)
  }

  /** `calculateGravitationalForce`: the unit vector from `pos1` to `pos2`, scaled by the
      magnitude. */
  function GravitationalForce(m: MathLib, pos1: Vec3, mass1: real, pos2: Vec3, mass2: real): Vec3
    requires Length(m, Sub(pos2, pos1)) != 0.0
  {
    var r := Sub(pos2, pos1);
    Scale(Scale(r, 1.0 / Length(m, r)), ForceMagnitude(m, pos1, mass1, pos2, mass2))
  }

  /** The distance does not depend on the order of the bodies. */
  lemma DistanceSymmetric(m: MathLib, pos1: Vec3, pos2: Vec3)
    ensures Length(m, Sub(pos2, pos1)) == Length(m, Sub(pos1, pos2))
  {
    var r := Sub(pos2, pos1);
    assert Sub(pos1, pos2) == Neg(r);
    assert (-r.x) * (-r.x) == r.x * r.x;
    assert (-r.y) * (-r.y) == r.y * r.y;
    assert (-r.z) * (-r.z) == r.z * r.z;
    assert SquaredLength(Neg(r)) == SquaredLength(r);
  }

  /** Swapping the two bodies leaves the magnitude unchanged and reverses the force. */
  lemma ForceSwap(m: MathLib, pos1: Vec3, mass1: real, pos2: Vec3, mass2: real)
    requires Length(m, Sub(pos2, pos1)) != 0.0
    ensures Length(m, Sub(pos1, pos2)) != 0.0
    ensures ForceMagnitude(m, pos2, mass2, pos1, mass1) == ForceMagnitude(m, pos1, mass1, pos2, mass2)
    ensures GravitationalForce(m, pos2, mass2, pos1, mass1) == Neg(GravitationalForce(m, pos1, mass1, pos2, mass2))
  {
    DistanceSymmetric(m, pos1, pos2);
    var r := Sub(pos2, pos1);
    var len := Length(m, r);
    var f := ForceMagnitude(m, pos1, mass1, pos2, mass2);
    assert G * mass2 * mass1 == G * mass1 * mass2;
    assert Sub(pos1, pos2) == Neg(r);
    var u := 1.0 / len;
    assert Scale(Scale(Neg(r), u), f) == Neg(Scale(Scale(r, u), f)) by {
      assert (-r.x) * u * f == -(r.x * u * f);
      assert (-r.y) * u * f == -(r.y * u * f);
      assert (-r.z) * u * f == -(r.z * u * f);
    }
  }

  /** `scaleDistance`: astronomical to visual units. */
  function ScaleDistance(distance: real): real {
    distance / ScaleFactor
  }

  /** `unscaleDistance`: visual to astronomical units. */
  function UnscaleDistance(distance: real): real {
    distance * ScaleFactor
  }

  /** The two conversions undo each other in both orders. */
  lemma ScaleRoundTrip(d: real)
    ensures UnscaleDistance(ScaleDistance(d)) == d
    ensures ScaleDistance(UnscaleDistance(d)) == d
  {
  }
}
