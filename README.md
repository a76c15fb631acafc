# Impact Odyssey: a verified model of the decision and orbit rules

Impact Odyssey is an asteroid-impact visualiser. Its Flask backend classifies the risk of near-Earth objects and answers a prediction request. Its React/Three.js frontend draws the planets, the Earth and the asteroids on Keplerian orbits. This Dafny project models the parts of both that decide or compute something, and proves what they promise.

The modules follow the source files:

| module | file | models |
|---|---|---|
| `Numerics`, `Wrappers` | numerics.dfy | reals for floats, the math library as a parameter, Python `int()` and JavaScript `%`, an `Option` for missing keys |
| `RiskCalculator` | risk_calculator.dfy | `Backend/risk_calculator.py`: energy, probability, Palermo guard, Torino level, threat label, zones, casualties |
| `OrbitalCalculator` | orbital_calculator.dfy | `Backend/orbital_calculator.py`: MOID, probability cut-off, energy, Torino mapping |
| `ImpactApi` | impact_api.dfy | `Backend/main.py`: the `predict_impact` handler and its error paths |
| `OrbitGeometry` | orbit_geometry.dfy | the mean motion, Newton denominator, orbital-plane point and rotation shared by `asteroids.jsx` and `orbitalMechanics.js` |
| `Asteroids` | asteroids.dfy | `Frontend/src/asteroids.jsx`: the `KeplerOrbit` class, the frame update, the orbit line, the click payload |
| `OrbitalMechanics` | orbital_mechanics.dfy | `Frontend/src/utils/orbitalMechanics.js`: early-exit Newton solve, force, scaling |
| `Planets` | planets.dfy | `Frontend/src/Planets.jsx`: the planet table, time accumulator, mean anomaly, fixed-point solve, ellipse |
| `Earth` | earth.dfy | `Frontend/src/Earth.jsx`: level of detail, texture size, record normalisation, highlight |
| `AsteroidSelector` | asteroid_selector.dfy | `Frontend/src/components/AsteroidSelector.jsx`: initial selection, previous/next, dropdown |
| `AsteroidControls` | asteroid_controls.dfy | `Frontend/src/components/AdvancedAsteroidControls.jsx`: colour lookup, speed buttons, panel visibility |

## How the model is built

- **Numbers.** Floating-point numbers are Dafny `real`s. `int()` in Python and `Math.trunc` truncate toward zero (`Numerics.Trunc`, bounded by `Numerics.TruncBounds`). JavaScript's `%` keeps the dividend's sign (`Numerics.JsRem`).
- **Math library.** `sin`, `cos`, `sqrt`, `exp`, `atan2`, `pow` and `log10` are the fields of a `MathLib` value that every member needing them takes as a parameter. Of that value the model assumes only what `Numerics.Valid` lists: sin 0 = 0, cos 0 = 1, sine and cosine within [-1, 1], exp positive, and sqrt positive on positive numbers. Nothing about the Kepler solves depends on more.
- **Form of the model.**
  - The backend is pure and is modelled by functions.
  - Frontend state that changes in place is a class: the Kepler orbit, the asteroid mesh, the planet animation, the Earth's level of detail and the shared selection.
  - Each loop is a method with invariants, proved equal to a recursive function: the ten-step and early-exit Newton loops, the five-step fixed point, the orbit line and the ellipse.
- **Errors.** Missing keys are `Option`s. The prediction handler returns `Failure(reason)` or `Prediction(...)`, one case for each way the Python code reaches its 400 answer. The risk assessment returns `Raised(error)`, naming the exception Python raises for a record whose energy is not positive.

Three behaviours of the code are modelled exactly as written:

- The asteroid component starts its clock at mount time and also passes that time as the orbit's epoch. As a result the epoch is subtracted twice (`Asteroids.FirstFrameMeanAnomaly`).
- The Earth has two frame callbacks that both rotate it. So it turns at twice `rotationSpeed`, and only the first callback ever rebuilds the geometry (`Earth.EarthView.Frame`).
- The normalised asteroid records keep the mean anomaly in degrees, while the other angles are converted to radians (`Earth.MeanAnomalyNotConverted`).

Two more details of the code:

- The risk-details panel of the controls is only reachable with the advanced view expanded (`AdvancedAsteroidControls.jsx:119`).
- A record without a semi-major axis gets an orbital speed of 0.5 (`Earth.jsx:326-328`).

## Model

| member | source | states |
|---|---|---|
| Numerics.TruncBounds | Backend/risk_calculator.py:206-208 | `int()` truncates toward zero: the magnitude drops below the next integer, and a non-negative value is floored |
| Numerics.JsRemRange | Frontend/src/Planets.jsx:133 | for a non-negative dividend and positive divisor, JavaScript `%` lands in [0, d) |
| Numerics.JsRemPeriodic | Frontend/src/Planets.jsx:133 | adding one divisor to a non-negative dividend leaves `%` unchanged |
| RiskCalculator.Velocity | Backend/risk_calculator.py:33-37 | 17000 m/s unless close-approach data is present and non-empty, then the first entry's km/s × 1000 |
| RiskCalculator.Mass | Backend/risk_calculator.py:24-31 | the given mass, or the sphere 4/3·π·(d/2)³·density; stated by `MasslessUsesSphere` and `EnergyNonNegative` |
| RiskCalculator.ImpactEnergy | Backend/risk_calculator.py:22-40 | `calculate_impact_energy`, ½·m·v²/4.184e15; its sign is stated by `EnergyNonNegative` and `PositiveRecordAssessed`, its defaults by `EmptyRecordDefaults` |
| RiskCalculator.EmptyRecordDefaults | Backend/risk_calculator.py:22-40 | an empty record uses diameter 10 and density 3000, so mass 500000·π, velocity 17000 and energy ½·m·v²/4.184e15 |
| RiskCalculator.MasslessUsesSphere | Backend/risk_calculator.py:24-31 | an absent or zero mass is replaced by 4/3·π·(d/2)³·density |
| RiskCalculator.EnergyNonNegative | Backend/risk_calculator.py:39-40 | with a non-negative mass, diameter and density the energy ½·m·v²/4.184e15 is not negative |
| RiskCalculator.BaseProbability | Backend/risk_calculator.py:131-143 | the step-wise probability; its bands and bounds are stated by the four lemmas below |
| RiskCalculator.BaseProbabilityUnadjusted | Backend/risk_calculator.py:131-143 | diameter ≤ 100, velocity ≤ 20000 and density in [2000, 5000] give exactly 1e-6 |
| RiskCalculator.BaseProbabilityLowerBound | Backend/risk_calculator.py:131-143 | the adjusted probability is never below 0.8e-6 |
| RiskCalculator.CompositionOrdering | Backend/risk_calculator.py:138-143 | at equal size and speed, iron-rich density ranks above rock and rock above ice |
| RiskCalculator.BaseProbabilityMonotoneInDiameter | Backend/risk_calculator.py:132-136 | a larger diameter never lowers the probability |
| RiskCalculator.PalermoScale | Backend/risk_calculator.py:102-114 | a non-positive time span or background rate gives exactly -10 |
| RiskCalculator.TorinoFromEnergy | Backend/risk_calculator.py:176-187 | the level is one of 0, 2, 4, 6, 8, 10, each exactly on its band with strict `>` thresholds at 1, 10, 100, 1000 and 10000 MT |
| RiskCalculator.TorinoMonotone | Backend/risk_calculator.py:176-187 | the level never decreases as the energy grows |
| RiskCalculator.ThreatLevel | Backend/risk_calculator.py:193 | "Severe" iff level ≥ 8, "High" iff 5 ≤ level < 8, "Moderate" iff 2 ≤ level < 5, "Low" otherwise |
| RiskCalculator.ThreatFromEnergy | Backend/risk_calculator.py:176-193 | the label as a function of energy: Severe above 1000 MT, High above 100, Moderate above 1, else Low |
| RiskCalculator.CalculateImpactEffects | Backend/risk_calculator.py:57-58 | the glass-breaking radius is 1.2 times the building-damage radius, which is 4 times the severe-damage radius |
| RiskCalculator.RiskZonesOf | Backend/risk_calculator.py:149-170 | the four zone radii; `AssessRiskConsistent` states that the immediate-destruction, severe, moderate and light zones are the destruction, severe-damage, building-damage and glass-breaking radii |
| RiskCalculator.CasualtyCounts | Backend/risk_calculator.py:199-210 | the direct casualties and the affected population are the people on the destruction and glass-breaking discs, truncated, so within one below the exact count; the evacuation radius is 1.5 × the destruction radius |
| RiskCalculator.EstimateCasualtiesAsWritten | Backend/risk_calculator.py:199-210 | `estimate_casualties` as written; stated by `CasualtyCounts`, `SevereInjuriesNotPositive` and `NegativeSevereInjuriesAtOneMegaton` |
| RiskCalculator.SevereInjuriesNotPositive | Backend/risk_calculator.py:201-207 | whenever the severe-damage disc is smaller than the destruction disc and people live there, the severe-injury count is zero or negative |
| RiskCalculator.NegativeSevereInjuriesAtOneMegaton | Backend/risk_calculator.py:201-207 | with the 1 MT effect radii the severe-injury count is negative |
| RiskCalculator.EstimateCasualties | Backend/risk_calculator.py:199-210 | the corrected estimate of the Findings table; stated by `CasualtiesNonNegative` |
| RiskCalculator.CasualtiesNonNegative | Backend/risk_calculator.py:199-210 | every corrected count is non-negative; direct casualties, affected population and evacuation radius are those of the original, and the whole estimate equals the original whenever the severe-damage disc is the larger |
| RiskCalculator.BuildAssessment | Backend/risk_calculator.py:116-197 | the dictionary `assess_risk` returns, with the unclamped casualty estimate of line 174 (or the corrected one); stated by `AssessRiskConsistent` and `AssessRiskCorrectedAgrees` |
| RiskCalculator.AssessRisk | Backend/risk_calculator.py:42-146 | ValueError exactly for an energy below -1 MT and OverflowError exactly at -1 (`int()` of log10(E + 1) at line 98), TypeError exactly between -1 and 0 (a complex background rate compared at line 109), ZeroDivisionError exactly at 0 (`0.0 ** -0.8` at line 106), and an assessment exactly for a positive energy |
| RiskCalculator.PositiveRecordAssessed | Backend/risk_calculator.py:22-40 | a positive mass (or positive diameter and density) at a non-zero velocity has a positive energy, so it is assessed |
| RiskCalculator.AssessRiskConsistent | Backend/risk_calculator.py:116-197 | an assessment carries the step-wise `BaseProbability` of the record's diameter, velocity and density (so ≥ 0.8e-6), the Torino level of the energy bands with `ThreatLevel` of it as label (Severe above 1000 MT, High above 100, Moderate above 1, else Low), the effects of the energy, the four zones equal to the destruction, severe-damage, building-damage and glass-breaking radii, the truncated people of the destruction disc as direct casualties, an evacuation radius 1.5 × the destruction radius, and a severe-injury count ≤ 0 whenever the severe-damage zone is the smaller |
| RiskCalculator.AssessRiskCorrected | Backend/risk_calculator.py:116-197 | the assessment with the corrected estimate; stated by `AssessRiskCorrectedAgrees` |
| RiskCalculator.AssessRiskCorrectedAgrees | Backend/risk_calculator.py:172-174 | the corrected assessment raises exactly where the original does, differs from it at most in a severe-injury count that is never negative, and equals it when the severe-damage zone is the larger |
| OrbitalCalculator.CalculateMoid | Backend/orbital_calculator.py:100-115 | with q = a(1-e), Q = a(1+e): min(\|q-1\|, \|Q-1\|) when q > 1.017 or Q < 0.983, else \|sin i\| times it; never negative and never above the non-crossing value |
| OrbitalCalculator.CoplanarCrossingMoidIsZero | Backend/orbital_calculator.py:113-115 | a crossing orbit of inclination 0 has MOID 0 |
| OrbitalCalculator.ImpactProbability | Backend/orbital_calculator.py:142-146 | 0 exactly when MOID > 0.1, otherwise exp(-50·MOID) |
| OrbitalCalculator.ImpactEnergy | Backend/orbital_calculator.py:148-153 | the fixed-density kinetic energy; stated by `ImpactEnergyScaling` |
| OrbitalCalculator.ImpactEnergyScaling | Backend/orbital_calculator.py:148-153 | the fixed-density energy quadruples when the velocity doubles and is 0 for zero size or speed |
| OrbitalCalculator.TorinoScale | Backend/orbital_calculator.py:155-166 | always an integer in 0..10; probability < 1e-10 gives 0; p < -2 gives 0, -2 ≤ p < 0 gives 1, 0 ≤ p < 2 gives 2 or 3, p ≥ 2 gives min(10, int(p+3)) ≥ 5 |
| OrbitalCalculator.TorinoCapFourUnreached | Backend/orbital_calculator.py:163-164 | the cap `min(4, ·)` never applies: int(p+2) < 4 for 0 ≤ p < 2 |
| OrbitalCalculator.AssessImpactRisk | Backend/orbital_calculator.py:117-140 | size is the mean of the two diameters defaulting to 0, velocity defaults to 0, the level is in 0..10 |
| OrbitalCalculator.DistantOrbitIsHarmless | Backend/orbital_calculator.py:119-166 | a MOID above 0.1 gives probability 0 and Torino level 0 |
| ImpactApi.Status | Backend/main.py:24-26 | the status is 400 exactly for a failure |
| ImpactApi.ToFloat | Backend/main.py:16-19 | a missing key reads as 0, and only an unconvertible value fails |
| ImpactApi.DensityOf | Backend/main.py:29-34 | the density is always one of 7800, 3000 and 900 |
| ImpactApi.Density | Backend/main.py:29-34 | the table lookup; stated by `DensityTable` and `DensityOf` |
| ImpactApi.DensityTable | Backend/main.py:20-34 | iron 7800, rock 3000, ice 900; an unknown or missing composition gives 3000 |
| ImpactApi.CappedProbability | Backend/main.py:56 | min(0.95, (diameter/1000)·(velocity/50)): never above 0.95, and the product itself when that is at most 0.95 |
| ImpactApi.MissingParametersExactly | Backend/main.py:16-26 | "Missing required parameters" comes exactly when the fields convert and one of velocity, angle, mass and diameter is zero or missing |
| ImpactApi.PredictImpact | Backend/main.py:10-76 | the `predict_impact` handler; its outcome is stated by `PredictionExactly`, `MissingParametersExactly` and `PredictionContents` |
| ImpactApi.KineticEnergy | Backend/main.py:37-38 | ½·mass·(1000·velocity)²; stated by `PredictionContents` |
| ImpactApi.EnergyMegatons | Backend/main.py:39 | the kinetic energy over 4.184e15; stated by `EnergyPositive` and `PredictionContents` |
| ImpactApi.PredictionExactly | Backend/main.py:12-76 | a prediction is answered exactly for an object body with four convertible non-zero fields, a hashable composition, a positive mass and a non-negative sine of the angle; every other body is a 400 failure |
| ImpactApi.PredictionContents | Backend/main.py:37-70 | a prediction carries ½·mass·(1000·velocity)²/4.184e15 MT, which is positive, the capped probability and "7 days" |
| ImpactApi.EnergyPositive | Backend/main.py:37-39 | a positive mass at a non-zero velocity has a positive energy in megatons |
| ImpactApi.CompositionIgnored | Backend/main.py:34-71 | the density looked up never reaches the answer: bodies that differ only in a hashable composition are answered alike |
| OrbitGeometry.MeanMotionPositive | Frontend/src/asteroids.jsx:21 | the mean motion sqrt(1/a³) is positive for a > 0 |
| OrbitGeometry.Denominator | Frontend/src/utils/orbitalMechanics.js:26 | for 0 ≤ e < 1 the Newton denominator 1 - e·cos E lies in [1 - e, 1 + e], so it is positive |
| OrbitGeometry.PlanePoint | Frontend/src/asteroids.jsx:31-32 | the point of the orbital plane has z = 0 |
| OrbitGeometry.ToWorld | Frontend/src/asteroids.jsx:35-51 | when sin i = 0 the rotated point has z = 0 |
| OrbitGeometry.ToWorldIdentity | Frontend/src/asteroids.jsx:43-49 | with all three angles zero the rotation is the identity on the orbital plane |
| OrbitGeometry.ZeroInclinationFlat | Frontend/src/utils/orbitalMechanics.js:45 | inclination 0 gives z = 0 whatever the other angles |
| Asteroids.SolutionIsFixed | Frontend/src/asteroids.jsx:27 | an exact solution of Kepler's equation is a fixed point of the Newton step |
| Asteroids.NewtonStep | Frontend/src/asteroids.jsx:27 | one Newton step; stated by `SolutionIsFixed` and `CircularOrbitSolved` |
| Asteroids.Iterate | Frontend/src/asteroids.jsx:25-28 | k Newton steps; stated by `IterateKeepsSolution` and `IterateSplit` |
| Asteroids.IterateKeepsSolution | Frontend/src/asteroids.jsx:25-28 | any number of steps from an exact solution stays there |
| Asteroids.CircularOrbitSolved | Frontend/src/asteroids.jsx:25-28 | for e = 0 one or more steps give E = M |
| Asteroids.IterateSplit | Frontend/src/asteroids.jsx:26 | j steps followed by k steps are j + k steps |
| Asteroids.KeplerOrbit.constructor | Frontend/src/asteroids.jsx:8-16 | all seven elements are stored unchanged, with the epoch defaulting to 0 |
| Asteroids.KeplerOrbit.MeanAnomaly | Frontend/src/asteroids.jsx:21-22 | M - M0 = n·(t - epoch) with n = sqrt(1/a³), so M = M0 at the epoch |
| Asteroids.KeplerOrbit.Position | Frontend/src/asteroids.jsx:19-52 | the position `getPosition` computes; stated by `GetPosition`, `ZeroInclinationStaysFlat` and `CircularPosition` |
| Asteroids.KeplerOrbit.GetPosition | Frontend/src/asteroids.jsx:19-52 | the loop performs exactly ten Newton steps from E = M, then places and rotates the point |
| Asteroids.KeplerOrbit.ZeroInclinationStaysFlat | Frontend/src/asteroids.jsx:49 | inclination 0 keeps the orbit in z = 0 |
| Asteroids.KeplerOrbit.CircularPosition | Frontend/src/asteroids.jsx:25-51 | a circular orbit is placed at E = M |
| Asteroids.CurrentSpeed | Frontend/src/asteroids.jsx:137 | `speed \|\| 1`: never 0, and 0 becomes 1 |
| Asteroids.ElapsedTime | Frontend/src/asteroids.jsx:138 | (now - epoch)·speed·0.001, zero at the epoch, with speed 0 counted as 1 |
| Asteroids.FirstFrameMeanAnomaly | Frontend/src/asteroids.jsx:69-138 | the mount time is both the orbit's epoch and the start of the frame clock, and line 22 subtracts the epoch again, so the first frame has M = M0 - n·epoch |
| Asteroids.AsteroidMesh.constructor | Frontend/src/asteroids.jsx:68-91 | the orbit is built from the props with the mount time as its epoch, and the mesh keeps the same time as its own epoch |
| Asteroids.AsteroidMesh.Frame | Frontend/src/asteroids.jsx:134-145 | the mesh moves to the orbit position for the elapsed time, and the rotations grow by 0.01 and 0.005 times the current speed |
| Asteroids.ThetaEndpoints | Frontend/src/asteroids.jsx:160-163 | θ_k = 2πk/720 is increasing, with θ_0 = 0 and θ_720 = 2π |
| Asteroids.PolarRadiusPositive | Frontend/src/asteroids.jsx:166-168 | 1 + e·cos θ ≥ 1 - e > 0 for 0 ≤ e < 1, so the radius is positive for a > 0 |
| Asteroids.PolarPoint | Frontend/src/asteroids.jsx:171-175 | the polar point lies in the plane z = 0 |
| Asteroids.OrbitLinePoint | Frontend/src/asteroids.jsx:159-183 | the k-th point of the orbit line; stated by `OrbitLine` |
| Asteroids.OrbitLine | Frontend/src/asteroids.jsx:159-183 | the line has 721 points, the k-th being the polar point at θ_k rotated about z, x, z |
| Asteroids.ClickPayload | Frontend/src/asteroids.jsx:210-219 | the click reports the ambient name, the five shape and orientation elements, the size and the speed |
| Asteroids.ClickIgnoresAnomalyAndColor | Frontend/src/asteroids.jsx:210-219 | the payload leaves out the mean anomaly and the colour |
| OrbitalMechanics.SameStep | Frontend/src/utils/orbitalMechanics.js:26-27 | E + (M - E + e·sin E)/(1 - e·cos E) is the step of asteroids.jsx line 27 |
| OrbitalMechanics.Solve | Frontend/src/utils/orbitalMechanics.js:24-29 | with a positive budget, between 1 and the budget corrections are made |
| OrbitalMechanics.SolveIsPrefixOfIteration | Frontend/src/utils/orbitalMechanics.js:24-29 | the result is the fixed iteration after the steps taken; every correction before the last is at least 1e-8, and an early stop follows one below 1e-8 |
| OrbitalMechanics.AgreesWithFixedLoop | Frontend/src/utils/orbitalMechanics.js:24-29 | when no correction falls below the tolerance, the early-exit loop equals the ten-step loop |
| OrbitalMechanics.SolutionStopsAtOnce | Frontend/src/utils/orbitalMechanics.js:28 | an exact solution stops after a single step |
| OrbitalMechanics.MeanAnomalyAt | Frontend/src/utils/orbitalMechanics.js:20-21 | M = M0 + n·t with no epoch offset |
| OrbitalMechanics.OrbitPosition | Frontend/src/utils/orbitalMechanics.js:10-48 | the position `calculateOrbitPosition` returns; stated by `CalculateOrbitPosition` and `ZeroInclinationFlat` |
| OrbitalMechanics.SolveUnfold | Frontend/src/utils/orbitalMechanics.js:24-29 | one pass of the solve: the correction is added, and the solve stops there when it is below the tolerance and continues from the new anomaly with one pass fewer otherwise |
| OrbitalMechanics.SolveKepler | Frontend/src/utils/orbitalMechanics.js:24-29 | the loop with `break`, starting from E = M, ends with the anomaly of the early-exit solve |
| OrbitalMechanics.CalculateOrbitPosition | Frontend/src/utils/orbitalMechanics.js:10-48 | computes M = M0 + n·t, runs the early-exit solve, then places the point in the orbital plane and rotates it: the result is the position of the orbit's definition |
| OrbitalMechanics.ZeroInclinationFlat | Frontend/src/utils/orbitalMechanics.js:45 | inclination 0 gives z = 0 |
| OrbitalMechanics.DistanceSymmetric | Frontend/src/utils/orbitalMechanics.js:52-53 | the distance between the bodies does not depend on their order |
| OrbitalMechanics.ForceMagnitude | Frontend/src/utils/orbitalMechanics.js:54 | G·m1·m2/d²; stated by `ForceSwap` |
| OrbitalMechanics.GravitationalForce | Frontend/src/utils/orbitalMechanics.js:51-56 | the magnitude along the normalised direction; stated by `ForceSwap` |
| OrbitalMechanics.ForceSwap | Frontend/src/utils/orbitalMechanics.js:51-56 | the magnitude G·m1·m2/d² is unchanged by swapping the bodies, and the force is negated |
| OrbitalMechanics.ScaleRoundTrip | Frontend/src/utils/orbitalMechanics.js:59-66 | unscale after scale, and scale after unscale, give the distance back (factor 1e9) |
| OrbitalMechanics.ScaleDistance | Frontend/src/utils/orbitalMechanics.js:59-61 | division by 1e9; stated by `ScaleRoundTrip` |
| OrbitalMechanics.UnscaleDistance | Frontend/src/utils/orbitalMechanics.js:64-66 | multiplication by 1e9; stated by `ScaleRoundTrip` |
| Planets.PlanetDataWellFormed | Frontend/src/Planets.jsx:7-112 | eight planets, each with 0 ≤ e < 1, positive axis and period, M0 in [0, 360), distinct names; Earth has inclination 0 |
| Planets.MeanAnomaly | Frontend/src/Planets.jsx:132-134 | the reduced mean anomaly in radians; stated by `MeanAnomalyRange` and `MeanAnomalyPeriodic` |
| Planets.FixedPoint | Frontend/src/Planets.jsx:135-136 | k steps of E = M + e·sin E; stated by `FixedPointNearMean`, `FixedPointCircular` and `EccentricAnomaly` |
| Planets.MeanAnomalyRange | Frontend/src/Planets.jsx:133 | for a non-negative argument the reduced angle lies in [0, 360) |
| Planets.MeanAnomalyPeriodic | Frontend/src/Planets.jsx:132-133 | one scaled period (period·0.05) later the reduced angle is the same |
| Planets.FixedPointNearMean | Frontend/src/Planets.jsx:136 | after at least one step E = M + e·sin E is within \|e\| of M |
| Planets.FixedPointCircular | Frontend/src/Planets.jsx:136 | for e = 0 every estimate is M |
| Planets.EccentricAnomaly | Frontend/src/Planets.jsx:135-136 | the loop performs exactly five fixed-point steps from E = M |
| Planets.FocalDistanceBounds | Frontend/src/Planets.jsx:145 | the focal distance a(1 - e·cos E) lies between a(1 - e) and a(1 + e) and is positive |
| Planets.PlanetPosition | Frontend/src/Planets.jsx:138-163 | a planet with sin i = 0 stays at scene height y = 0 |
| Planets.EarthStaysLevel | Frontend/src/Planets.jsx:34-46 | Earth's inclination 0 keeps it in the horizontal plane |
| Planets.PlanetAnimation.constructor | Frontend/src/Planets.jsx:122-124 | the time accumulator starts at 0 with no frames seen |
| Planets.PlanetAnimation.Advance | Frontend/src/Planets.jsx:128-130 | the accumulator grows by delta·simSpeed and stays the sum over every frame seen |
| Planets.PlanetAnimation.Frame | Frontend/src/Planets.jsx:124-166 | the time grows by delta·simSpeed and stays the sum of the increments of all frames seen; the mesh and, for a non-Earth planet, the atmosphere go to the 4× scaled position, and the atmosphere turns by 0.0005 |
| Planets.AccumulatedTimeStep | Frontend/src/Planets.jsx:128-130 | one more frame adds its own delta·speed to the accumulated time |
| Planets.AccumulatedTimeAppend | Frontend/src/Planets.jsx:124-130 | the accumulated time is the sum of each frame's delta·speed, so changing the speed only changes later increments |
| Planets.EllipseClosed | Frontend/src/Planets.jsx:233-234 | the first sample is at 0 and the last at 2π |
| Planets.EllipsePoint | Frontend/src/Planets.jsx:231-255 | the k-th ellipse point; stated by `OrbitEllipse` |
| Planets.OrbitEllipse | Frontend/src/Planets.jsx:231-255 | 181 points, the k-th at 2k degrees with the same five-step solve and placement as the animation |
| Earth.SegmentsFor | Frontend/src/Earth.jsx:103-110 | 96 iff distance < 2, 64 iff 2 ≤ distance < 5, 32 iff distance ≥ 5 |
| Earth.SegmentsMonotone | Frontend/src/Earth.jsx:103-110 | the count never increases with distance |
| Earth.EarthView.constructor | Frontend/src/Earth.jsx:21 | the stored count starts at 64, and the first geometry is built with it |
| Earth.EarthView.LodStep | Frontend/src/Earth.jsx:95-124 | rotation grows by speed·delta; the stored count becomes the level for the distance; a geometry is built iff the level changed |
| Earth.EarthView.Frame | Frontend/src/Earth.jsx:95-262 | both callbacks together: rotation grows by 2·speed·delta, and at most one rebuild happens per frame |
| Earth.OptimizeTexture | Frontend/src/Earth.jsx:39-52 | for positive sizes the canvas width and height never exceed maxSize or the original, and an image that fits is kept as it is |
| Earth.Or | Frontend/src/Earth.jsx:333-339 | `x \|\| d`: the value when truthy, otherwise the fallback |
| Earth.DegToRad | Frontend/src/Earth.jsx:312-313 | undefined or null gives 0, otherwise d·π/180 |
| Earth.ScaledAxis | Frontend/src/Earth.jsx:316-318 | 0.3·a when truthy, otherwise 1 |
| Earth.VisualSize | Frontend/src/Earth.jsx:321-323 | always ≥ 0.02; 0.04 without a diameter, d/300 for d ≥ 6 |
| Earth.OrbitalSpeed | Frontend/src/Earth.jsx:326-328 | 0.5 without an axis; for a > 0 a positive s with s·sqrt(a) = 1 |
| Earth.NatToStringInjective | Frontend/src/Earth.jsx:331 | the decimal writing of indices is injective |
| Earth.DisplayName | Frontend/src/Earth.jsx:331 | the record's own name when non-empty, otherwise `NEO-<index>` |
| Earth.NormalizeOne | Frontend/src/Earth.jsx:310-346 | the rendered record of one backend record; stated by `Normalize`, `NormalizedRecordsUsable`, `ZeroEccentricityReplaced` and `MeanAnomalyNotConverted` |
| Earth.Fallback | Frontend/src/Earth.jsx:350-365 | the single example record; stated by `Normalize` and `NormalizedRecordsUsable` |
| Earth.Normalize | Frontend/src/Earth.jsx:308-365 | one record per backend record in order, or the single fallback record for an empty list |
| Earth.NormalizedRecordsUsable | Frontend/src/Earth.jsx:308-365 | the rendered list is never empty, and every record has size ≥ 0.02, a non-zero eccentricity and a non-empty name |
| Earth.ZeroEccentricityReplaced | Frontend/src/Earth.jsx:333 | an eccentricity of 0, or a missing one, becomes 0.1 |
| Earth.MeanAnomalyNotConverted | Frontend/src/Earth.jsx:334-339 | the same value d is converted to d·π/180 as inclination but copied as mean anomaly |
| Earth.DefaultNamesDistinct | Frontend/src/Earth.jsx:331 | unnamed records at different positions get different names |
| Earth.IsSelected | Frontend/src/Earth.jsx:390 | the highlight test by name; stated by `AtMostOneSelected` and `NamedRecordHighlighted` |
| Earth.AtMostOneSelected | Frontend/src/Earth.jsx:390 | with distinct rendered names at most one asteroid is highlighted |
| Earth.NamedRecordHighlighted | Frontend/src/Earth.jsx:390 | a named record is highlighted exactly when the selected asteroid has its name |
| AsteroidSelector.FindIndex | Frontend/src/components/AsteroidSelector.jsx:20 | -1 exactly when no asteroid has the name, otherwise the first index that has it |
| AsteroidSelector.FindIndexDistinct | Frontend/src/components/AsteroidSelector.jsx:20 | with distinct names every asteroid is found at its own index |
| AsteroidSelector.Find | Frontend/src/components/AsteroidSelector.jsx:56-58 | some asteroid is returned exactly when one has the name, and it is the first such |
| AsteroidSelector.CurrentIndex | Frontend/src/components/AsteroidSelector.jsx:19-21 | the selected asteroid's index, or 0 with no selection; in [-1, length) |
| AsteroidSelector.PrevIndex | Frontend/src/components/AsteroidSelector.jsx:22-23 | the previous index always lies in [0, length) |
| AsteroidSelector.NextIndex | Frontend/src/components/AsteroidSelector.jsx:32-33 | the next index always lies in [0, length) |
| AsteroidSelector.Prev | Frontend/src/components/AsteroidSelector.jsx:17-25 | an empty list keeps the selection; otherwise an element of the list is selected |
| AsteroidSelector.Next | Frontend/src/components/AsteroidSelector.jsx:27-35 | an empty list keeps the selection; otherwise an element of the list is selected |
| AsteroidSelector.DropdownValue | Frontend/src/components/AsteroidSelector.jsx:54 | the selected name, or "" without a selection |
| AsteroidSelector.Selection.constructor | Frontend/src/components/AsteroidSelector.jsx:7-8 | the shared list is stored and nothing is selected |
| AsteroidSelector.InitialSelection | Frontend/src/components/AsteroidSelector.jsx:11-15 | what the effect leaves: the first asteroid when nothing is selected and the list is non-empty, otherwise the selection as it was; none only with no selection and an empty list |
| AsteroidSelector.Selection.EnsureInitialSelection | Frontend/src/components/AsteroidSelector.jsx:11-15 | the selection becomes `InitialSelection` of the old one, and the list is unchanged |
| AsteroidSelector.Selection.HandlePrev | Frontend/src/components/AsteroidSelector.jsx:17-25 | the new selection is `Prev` of the old, and the list is unchanged |
| AsteroidSelector.Selection.HandleNext | Frontend/src/components/AsteroidSelector.jsx:27-35 | the new selection is `Next` of the old, and the list is unchanged |
| AsteroidSelector.Selection.SelectByName | Frontend/src/components/AsteroidSelector.jsx:55-60 | the selection becomes the first asteroid with the chosen name, or none |
| AsteroidSelector.Selection.ChooseInDropdown | Frontend/src/components/AsteroidSelector.jsx:11-60 | a dropdown change followed by the effect, which runs again because the selection is among its dependencies: the selection becomes `InitialSelection` of the asteroid found |
| AsteroidSelector.PrevFromFirstWraps | Frontend/src/components/AsteroidSelector.jsx:22-23 | previous from index 0 wraps to the last asteroid |
| AsteroidSelector.NextFromLastWraps | Frontend/src/components/AsteroidSelector.jsx:32-33 | next from the last asteroid wraps to index 0 when names are distinct |
| AsteroidSelector.UnlistedSelection | Frontend/src/components/AsteroidSelector.jsx:17-35 | a selection whose name is not listed: next picks the first asteroid, previous the last |
| AsteroidSelector.NoSelection | Frontend/src/components/AsteroidSelector.jsx:17-35 | no selection: next picks index 1 (0 for a one-element list), previous the last |
| AsteroidSelector.NextPrevRoundTrip | Frontend/src/components/AsteroidSelector.jsx:17-35 | with distinct names next-then-previous and previous-then-next restore the selection |
| AsteroidSelector.PlaceholderClears | Frontend/src/components/AsteroidSelector.jsx:55-63 | the handler's `find` for the placeholder "" gives no asteroid unless one has the empty name; the cleared selection lasts only until the effect runs again (`DropdownNeverClears`) |
| AsteroidSelector.DropdownNeverClears | Frontend/src/components/AsteroidSelector.jsx:11-63 | on a non-empty list a dropdown change followed by the effect never leaves the selection empty; an unlisted value, the placeholder among them, ends on the first asteroid |
| AsteroidSelector.DropdownRoundTrip | Frontend/src/components/AsteroidSelector.jsx:54-60 | with distinct names, choosing the shown name selects the asteroid shown |
| AsteroidControls.RiskColorsTable | Frontend/src/components/AdvancedAsteroidControls.jsx:34-46 | eleven non-empty classes, none "text-white", pairwise distinct |
| AsteroidControls.RiskColor | Frontend/src/components/AdvancedAsteroidControls.jsx:33-48 | each level 0..10 gets its listed class, and "text-white" comes exactly for any other or missing key |
| AsteroidControls.RiskColorInjective | Frontend/src/components/AdvancedAsteroidControls.jsx:34-46 | different levels get different classes |
| AsteroidControls.AssessmentColored | Frontend/src/components/AdvancedAsteroidControls.jsx:192 | an assessment of the risk calculator, if one were passed, would be coloured with one of the six classes of levels 0, 2, 4, 6, 8 and 10; the program passes none (see Left out) |
| AsteroidControls.Rewind | Frontend/src/components/AdvancedAsteroidControls.jsx:131 | the sent speed is half the current one |
| AsteroidControls.FastForward | Frontend/src/components/AdvancedAsteroidControls.jsx:143 | the sent speed is twice the current one |
| AsteroidControls.SpeedButtons | Frontend/src/components/AdvancedAsteroidControls.jsx:131-143 | one press of each, in either order, restores the speed, and neither press changes its sign |
| AsteroidControls.PlayPauseIcon | Frontend/src/components/AdvancedAsteroidControls.jsx:140 | the play icon shows exactly while paused |
| AsteroidControls.ToggleExpanded | Frontend/src/components/AdvancedAsteroidControls.jsx:59 | flips the advanced view and keeps the details toggle |
| AsteroidControls.ToggleRiskPanel | Frontend/src/components/AdvancedAsteroidControls.jsx:176 | flips the details toggle and keeps the advanced view |
| AsteroidControls.Render | Frontend/src/components/AdvancedAsteroidControls.jsx:119-231 | time controls iff expanded; the asteroid panel iff also selected; the details iff also toggled on with an assessment, coloured by its level |
| AsteroidControls.InitiallyCollapsed | Frontend/src/components/AdvancedAsteroidControls.jsx:22-23 | at first nothing of the advanced part shows |
| AsteroidControls.CollapseKeepsDetails | Frontend/src/components/AdvancedAsteroidControls.jsx:59 | collapsing and expanding again restores the same view |
| AsteroidControls.NoSelectionNoDetails | Frontend/src/components/AdvancedAsteroidControls.jsx:167-183 | without a selected asteroid neither the panel nor the details show |

## Left out

- Floating point: all arithmetic is exact real arithmetic. Rounding, NaN, infinities and overflow are not modelled, nor are `round(...)`, `toFixed` and `toExponential` of the displayed values.
- Convergence and accuracy of the three Kepler solves are not claimed. Only their loop structure, their fixed points and their bounds are.
- Elliptic orbits: the Newton solves, the polar radius and the planet table require 0 ≤ e < 1 (and a ≠ 0). In JavaScript the other cases divide by zero and give Infinity or NaN.
- The fractional powers and logarithms of the impact effects (crater, fireball, thermal, seismic, atmospheric and long-term effects) are library calls. The model keeps only the radii the assessment reads and the ratios between them. The Palermo logarithms are the `log10` parameter.
- `odeint`, the state-vector conversion and the numpy rotation matrices of `Backend/orbital_calculator.py:19-98` are not part of this model.
- Flask routing, `request.get_json`, `jsonify`, `datetime.now()` and the observation and impact dates are not modelled. The handler's answer keeps only the energy, the probability, the constant "7 days" and the failure reasons.
- ImpactApi.PredictImpact: the text `str(e)` of an exception is not modelled, only that the answer is a 400 failure. A body field is abstracted to missing, convertible or unconvertible, so how Python's `float` parses strings is not modelled either.
- Rendering: shaders, textures, canvas drawing, geometry construction, materials, random vertex jitter and the light-direction update of the second Earth frame callback are left out. The random colour of a normalised record is a parameter (`Earth.Palette`).
- Three.js `applyAxisAngle` is a foreign call. It is a parameter of `Asteroids.OrbitLine`.
- `Date.now()` is a parameter (`now`, `mountTime`). The frame callback's `delta` and `simSpeed` are inputs of `Planets.PlanetAnimation.Frame`.
- The null checks on mesh refs before mounting are not modelled: frames are modelled only for mounted meshes.
- The asteroid component's `isSelected` (`asteroids.jsx:131`) compares with an undeclared `name`, so it is not modelled as a selection rule. For the same reason the click payload's name is a parameter.
- Earth.Normalize: fields are numbers or missing, and numeric strings passed through `Number(...)` are not modelled. A negative semi-major axis gives a NaN speed in the source, which the model writes as 0. The component's `speed || 1` treats both alike.
- RiskCalculator.AssessRisk: a close-approach speed is a number. A `kilometers_per_second` string that `float(...)` cannot parse (lines 36 and 128), a missing `relative_velocity` key, and a key present with the value `None` all raise in the source and are not modelled.
- AsteroidControls.AssessmentColored: the program never passes a risk assessment to the controls. The backend serves only `/api/predict-impact`, and the one mount of the controls (`Frontend/src/pages/Predictions.jsx:46`) passes no `riskAssessment`. The lemma says what the panel would show if it were passed one.
- AsteroidSelector: an undefined asteroid list is modelled as the empty list. The dropdown's `find` on an undefined list throws in the source and is not modelled.
- AsteroidControls: the date input, the scale slider (`Math.log10`, `Math.pow`) and the labels and orbits toggles only forward values to callbacks and are not modelled.
- The `isSelected` prop that `Frontend/src/Earth.jsx:390` passes is not read by the asteroid component, which computes its own. `Earth.IsSelected` models the prop as computed.
- `Frontend/src/Earth.jsx` defines `dummyAsteroids` but never uses it, so it is not modelled.

## Findings

| source | as written | input that shows it | evidently intended | confidence | as-written member | corrected member |
|---|---|---|---|---|---|---|
| Backend/risk_calculator.py:207 | the severe injuries are half the people on the severe-damage disc minus the destruction disc, with no clamp at zero; the severe-damage radius 1.1·E^0.33 is below the destruction radius 2·E^0.37 for every energy above about 3e-7 MT, so the count is negative | a 1 MT impact: radii 2 km and 1.1 km, severe injuries int(-1314.7) = -1314 | the people in the ring between the two discs, and none when there is no ring | not executed | RiskCalculator.EstimateCasualtiesAsWritten, RiskCalculator.NegativeSevereInjuriesAtOneMegaton, RiskCalculator.AssessRisk | RiskCalculator.EstimateCasualties, RiskCalculator.CasualtiesNonNegative, RiskCalculator.AssessRiskCorrected, RiskCalculator.AssessRiskCorrectedAgrees |
