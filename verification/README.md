# UnitySteer steering behaviours, modelled in Dafny

This project models the decision logic at the core of the UnitySteer
steering behaviours and proves properties of it:

- `MovementTracker`: the helper that samples a target transform at a
  fixed interval. It derives velocity, acceleration and angular velocity
  by finite differences over the time since its last sample, and it has a
  small reset/enable state machine. A reset re-seeds the pose but keeps the
  time of the last sample, so the first sample after a retarget divides the
  displacement since the reset by the whole time since the last sample (or,
  when it has never sampled, since time 0: the time of the last sample
  starts at 0 and the constructor does not set it). After a long pause, or
  for a tracker created late in play even without one, this makes a moving
  target look still on the first sample.
- `SteerForPursuit`: predicts where a quarry will be at interception. It
  uses a 3x3 table of time factors, caps the estimate at a maximum
  prediction time, and stops inside the arrival radius.
- `SteerForEvasion`: flees from the predicted position of a menace.
- `SteerForTether`: pulls a vehicle back into a band between two radii.
  The pull is proportional and deliberately not clamped.
- `SteerForCollision`: seeks a target until contact, then latches. A
  contact on any child of the target also counts, found by walking the
  collider's parent chain. The latch re-arms once the target moves far
  enough from the contact point.
- `SteerForWander`: a random walk of a jitter angle, applied on top of a
  push along the vehicle's heading.
- `SteerForNavmesh`: three rays (a centre ray and two whiskers) are cast
  against the navigation mesh.
  - The whiskers open while obstacles are met.
  - After a cooldown measured in clear ticks, they close again.
  - An off-mesh check pulls the vehicle back toward the closest edge.

Floats are reals. The engine's maths is taken as given functions,
collected in the record `Vector3.Engine`:

- the square root behind `magnitude`;
- rotation about the up axis;
- `ToAngleAxis` of the rotation between two samples;
- `Vector3.Lerp`.

The only law assumed of them, `Lawful`, is that the square root is the
non-negative root. `normalized` follows Unity: the zero vector at or
below a magnitude of 1e-5.

The scene is a function from object ids to poses. Reference equality of
transforms is equality of ids. The transform hierarchy is a parent map
with a rank that drops from child to parent.

The vehicle's seek vector and future-position predictor are function
fields of `Scene.Vehicle`. The navmesh queries are function fields of
`SteerForNavmesh.NavMesh`. The random draw of each wander tick and the
time of each tracker sample are parameters.

Each behaviour's mutable fields are an immutable record. Every operation
returns the new record: setters, `Awake`, `Update`, and `CalculateForce`
where it changes state.

The OpenSteer helpers `intervalComparison` and `perpendicularComponent`
are defined in UnityEngine / OpenSteerUtility, not modelled from their
code. The module `OpenSteerUtility` defines them with the conventions the
behaviours rely on:

- `intervalComparison` gives -1 below the interval, +1 above it and 0
  inside it, bounds included;
- `perpendicularComponent(v, u)` is v - (v . u) u.

## Model

| member | source | states |
|---|---|---|
| OpenSteerUtility.IntervalComparison | Behaviors/SteerForPursuit.cs:93-94 | the class is -1, 0 or 1: -1 exactly below the lower bound, 1 exactly above the upper bound, 0 exactly inside the closed interval |
| OpenSteerUtility.PerpendicularComponentIsOrthogonal | Behaviors/SteerForNavmesh.cs:181 | perpendicular plus parallel component rebuild the vector, and for a unit basis the perpendicular component is orthogonal to it |
| MovementTracker.Reset | Helpers/MovementTracker.cs:78-89 | afterwards every derived quantity is zero and current and previous pose are the target's pose (origin and identity without a target); target, flags, interval, tolerance and the time of the last sample are kept |
| MovementTracker.ResetForgetsHistory | Helpers/MovementTracker.cs:78-89 | two trackers with the same settings and the same time of last sample are equal after a reset whatever they sampled before, and resetting twice is resetting once |
| MovementTracker.SetTarget | Helpers/MovementTracker.cs:13-20 | assigning a target always stores it and resets, even when it is the current target; enabled, registration, interval and tolerance are unchanged |
| MovementTracker.SetEnabled | Helpers/MovementTracker.cs:23-37 | assigning the current value changes nothing; a new value resets and the tracker is registered with the tick queue exactly when enabled; registration keeps matching the flag |
| MovementTracker.New | Helpers/MovementTracker.cs:63-71 | a new tracker follows the given target, is enabled and registered, is at rest, is seeded from the target, and has the default tolerance |
| MovementTracker.IsMoving | Helpers/MovementTracker.cs:46-47 | with a non-negative squared tolerance a moving target has non-zero velocity; a negative one makes every target moving |
| MovementTracker.MovingTolerance | Helpers/MovementTracker.cs:48-50 | for a non-negative squared tolerance, the reading is its non-negative square root |
| MovementTracker.SetMovingTolerance | Helpers/MovementTracker.cs:51 | the stored squared tolerance is never negative, and nothing but the tolerance changes |
| MovementTracker.MovingToleranceRoundTrip | Helpers/MovementTracker.cs:48-52 | writing a tolerance and reading it back gives its absolute value, so a non-negative tolerance comes back exactly |
| MovementTracker.MovingToleranceWriteBack | Helpers/MovementTracker.cs:48-52 | reading the tolerance and writing it back leaves the tracker unchanged |
| MovementTracker.IsMovingMeansFasterThanTolerance | Helpers/MovementTracker.cs:46-52 | comparing squared speed with the squared tolerance is comparing speed with the tolerance: moving iff speed exceeds it |
| MovementTracker.MovingHasPositiveSpeed | Helpers/MovementTracker.cs:46 | a moving target has non-zero speed, which the evasion's division relies on |
| MovementTracker.WrapAngle | Helpers/MovementTracker.cs:99 | the angle is kept or shifted down by one turn; angles in [0, 360] land in (-180, 180]; angles already in (-180, 180] are kept |
| MovementTracker.AngularVelocity | Helpers/MovementTracker.cs:91-102 | a zero or non-finite axis gives zero; otherwise the result is the normalized axis times a rate whose product with dt is the wrapped angle |
| MovementTracker.Update | Helpers/MovementTracker.cs:104-137 | a disabled tracker, or one without a target, is unchanged; otherwise, with dt the time since the last sample, the time of the last sample becomes now, the new position is the target's, integrating the new velocity over dt from the previous position gives that position, integrating the new acceleration from the previous velocity gives the velocity, the smoothed values are lerped with dt*10 and dt*3, and the previous fields catch up; settings are kept |
| MovementTracker.FirstSampleAfterReseedUsesLastSampleTime | Helpers/MovementTracker.cs:116-136 | after a retarget, the first sample's velocity times the time since the last sample (not since the retarget) is the displacement since the retarget; the tolerance is kept |
| MovementTracker.FirstSampleAfterCreationUsesClockZero | Helpers/MovementTracker.cs:10-122 | a new tracker's first sample, at time now, reports a velocity whose product with now (not with the time since creation) is the displacement since creation |
| MovementTracker.StaleIntervalHidesMotion | Helpers/MovementTracker.cs:116-122 | a target moving 0.25 units in the quarter second after a retarget 60 seconds past the last sample is reported at speed 1/241 and not moving under the default tolerance |
| MovementTracker.ConstantVelocityIsTracked | Helpers/MovementTracker.cs:116-134 | when the tracker's previous position is where the target stood at its last sample and samples are dt apart, a target moving v*dt per sample is reported at velocity v by every sample; the first reports acceleration v/dt, every later one reports zero |
| SteerForPursuit.Default | Behaviors/SteerForPursuit.cs:12-22 | no tracker yet, arrival not reported, tracking interval 0.25 and maximum prediction time 5 |
| SteerForPursuit.Awake | Behaviors/SteerForPursuit.cs:63-68 | a tracker exists, follows the quarry, is at rest, and samples exactly when there is a quarry |
| SteerForPursuit.SetQuarry | Behaviors/SteerForPursuit.cs:42-60 | the same quarry is a no-op; a different one clears the arrival report, creates the tracker if missing, retargets and resets it, and enables it exactly when the quarry exists |
| SteerForPursuit.TimeFactorMatchesTable | Behaviors/SteerForPursuit.cs:101-145 | for each of the nine (forwardness, parallelness) classes the time factor is the tabled constant: ahead 4 / 1.8 / 0.85, aside 1 / 0.8 / 4, behind 0.5 / 2 / 2 |
| SteerForPursuit.TimeFactor | Behaviors/SteerForPursuit.cs:96-145 | every factor the classification can select lies in [0.5, 4], so it is positive |
| SteerForPursuit.ClassBoundsAreClosed | Behaviors/SteerForPursuit.cs:93-94 | both classifications use the thresholds -0.707 and 0.707, and a value exactly on a threshold falls in the middle class |
| SteerForPursuit.EstimatedTime | Behaviors/SteerForPursuit.cs:92-148 | the estimate times the pursuer's speed is distance times factor; a zero speed gives an unbounded estimate (None) |
| SteerForPursuit.CappedTime | Behaviors/SteerForPursuit.cs:149 | the capped time never exceeds the maximum prediction time; it is the estimate when that fits, and the maximum otherwise or when the estimate is unbounded |
| SteerForPursuit.Plan | Behaviors/SteerForPursuit.cs:82-152 | the two classes, the factor, the capped time and the target quarry position + tracked velocity * time, as the evaluation computes them |
| SteerForPursuit.CalculateForce | Behaviors/SteerForPursuit.cs:70-164 | zero without a quarry and zero at or inside the arrival radius; otherwise the seek vector toward the planned intercept point, without velocity matching |
| SteerForPursuit.InterceptTimeWithinHorizon | Behaviors/SteerForPursuit.cs:147-149 | with a non-negative horizon, the look-ahead lies between 0 and the maximum prediction time |
| SteerForPursuit.StationaryQuarryIsItsOwnTarget | Behaviors/SteerForPursuit.cs:152 | a quarry tracked at zero velocity is aimed at where it stands |
| SteerForPursuit.WorkedExample | Behaviors/SteerForPursuit.cs:92-149 | a quarry dead ahead on a parallel heading, 10 units away, with pursuer speed 5, gives factor 4 and estimate 8, capped at the horizon |
| SteerForEvasion.Default | Behaviors/SteerForEvasion.cs:12-22 | no tracker yet, prediction time 0 and tracking interval 0.25 |
| SteerForEvasion.Awake | Behaviors/SteerForEvasion.cs:56-61 | a tracker exists, follows the menace, and samples exactly when there is a menace |
| SteerForEvasion.SetMenace | Behaviors/SteerForEvasion.cs:41-53 | the menace is always stored; an existing tracker is retargeted, reset and enabled exactly when the menace exists; a missing tracker stays missing |
| SteerForEvasion.Min | Behaviors/SteerForEvasion.cs:75 | the result is one of the two arguments and no larger than either |
| SteerForEvasion.RoughTime | Behaviors/SteerForEvasion.cs:74 | zero for a menace the tracker does not see moving; otherwise its product with the menace's speed is the distance; never negative for a distance |
| SteerForEvasion.PredictedTarget | Behaviors/SteerForEvasion.cs:71-77 | the prediction minus the menace's position is the tracked velocity times the smaller of the rough time and the prediction time |
| SteerForEvasion.CalculateForce | Behaviors/SteerForEvasion.cs:63-82 | zero without a menace; otherwise force plus the vehicle's velocity is the flee vector from the predicted position to the vehicle |
| SteerForEvasion.PredictionTimeWithinHorizon | Behaviors/SteerForEvasion.cs:74-75 | the look-ahead never exceeds the prediction time and, for a non-negative prediction time, is never negative |
| SteerForEvasion.PredictionAlongTrack | Behaviors/SteerForEvasion.cs:74-77 | with a non-negative prediction time the prediction lies on the menace's track: its offset from the menace is the tracked velocity times some look-ahead in [0, prediction time] |
| SteerForEvasion.StillMenaceIsFledInPlace | Behaviors/SteerForEvasion.cs:74-81 | a menace not seen moving is predicted where it stands, and the force flees from that position |
| SteerForTether.Default | Behaviors/SteerForTether.cs:13-20 | outer radius 30, inner radius 20, the given centre, both radii non-negative |
| SteerForTether.NonNegative | Behaviors/SteerForTether.cs:37 | the clamp to [0, float.MaxValue] on reals: non-negative result, negatives become 0, everything else kept |
| SteerForTether.SetOuterRadius | Behaviors/SteerForTether.cs:29-39 | the outer radius becomes the clamped value; nothing else changes; both radii stay non-negative |
| SteerForTether.SetInnerRadius | Behaviors/SteerForTether.cs:45-55 | the inner radius becomes the clamped value; nothing else changes; both radii stay non-negative |
| SteerForTether.Percent | Behaviors/SteerForTether.cs:85-95 | 1 when the radii are equal; otherwise the percentage times the band width is the distance beyond the inner radius |
| SteerForTether.CalculateForce | Behaviors/SteerForTether.cs:74-101 | zero at or inside the inner radius; beyond it, the offset to the centre scaled by the percentage |
| SteerForTether.PercentAcrossBand | Behaviors/SteerForTether.cs:94 | the percentage is 0 at the inner radius and 1 at the outer radius |
| SteerForTether.EqualRadiiFullStrength | Behaviors/SteerForTether.cs:87-97 | with equal radii, any vehicle past them is pulled by exactly the offset to the centre |
| SteerForTether.PercentUnclamped | Behaviors/SteerForTether.cs:94 | past the outer radius of an ordered band, the percentage exceeds 1 |
| SteerForTether.PullsTowardCentre | Behaviors/SteerForTether.cs:94-97 | for an ordered band, the force beyond the inner radius is a positive multiple of the offset to the centre |
| SteerForTether.InvertedBandPushesAway | Behaviors/SteerForTether.cs:94-97 | for an outer radius below the inner one, the force beyond the inner radius is a negative multiple of the offset, so the vehicle is pushed away |
| SteerForCollision.Default | Behaviors/SteerForCollision.cs:8-41 | unlatched, velocity and sub-colliders considered, minimum move distance 0.5 |
| SteerForCollision.SetTargetObject | Behaviors/SteerForCollision.cs:50-58 | stores the target, clears the latch, zeroes the contact point and clears the arrival report; the settings are kept |
| SteerForCollision.Update | Behaviors/SteerForCollision.cs:93-99 | with a target more than the minimum move distance from the contact point the latch is cleared; otherwise nothing changes |
| SteerForCollision.RearmIffMovedAway | Behaviors/SteerForCollision.cs:95-98 | a latched behaviour re-arms iff the target is now strictly further than the minimum move distance from the contact point, so at exactly that distance it stays latched |
| SteerForCollision.LatchHoldsWhileTargetStays | Behaviors/SteerForCollision.cs:145-148 | the contact point recorded on latching is the target's position, so an update in the same world keeps the latch |
| SteerForCollision.CalculateForce | Behaviors/SteerForCollision.cs:104-111 | zero while latched; otherwise the seek vector toward the target's position, honouring the velocity setting, with the arrival flag off |
| SteerForCollision.LatchGatesForce | Behaviors/SteerForCollision.cs:93-111 | latched at the target's position the force is zero; an update keeps it zero while the target is within the minimum move distance of the contact point, and beyond it the force is the seek toward the target again |
| SteerForCollision.NewTargetIsSought | Behaviors/SteerForCollision.cs:50-58 | whatever was latched before, assigning a target makes the force the seek toward it |
| SteerForCollision.ChainContains | Behaviors/SteerForCollision.cs:134-143 | the walk from the collider's parent to the root terminates and finds the target iff the target is a proper ancestor of the collider |
| SteerForCollision.HandleCollision | Behaviors/SteerForCollision.cs:123-149 | a no-op once latched or without a target; otherwise a hit on the target itself, or with sub-colliders enabled on any descendant of it, latches and records the target's position; any other contact changes nothing |
| SteerForWander.Default | Behaviors/SteerForWander.cs:11-21 | angle 0, radius 0.4, maximum angle change 5, distance 0.6 |
| SteerForWander.SetRadius | Behaviors/SteerForWander.cs:28-38 | the radius is stored unchanged, without clamping; nothing else changes |
| SteerForWander.SetAngleMax | Behaviors/SteerForWander.cs:43-53 | the maximum angle change is stored unchanged, without clamping; nothing else changes |
| SteerForWander.SetDistance | Behaviors/SteerForWander.cs:58-68 | the distance is stored unchanged, without clamping; nothing else changes |
| SteerForWander.BaseDirection | Behaviors/SteerForWander.cs:78-80 | the normalized forward vector for a vehicle at zero speed, its normalized velocity otherwise |
| SteerForWander.CalculateForce | Behaviors/SteerForWander.cs:72-86 | the angle moves by the maximum change times the draw, so by at most the maximum; the jitter is the base direction turned by the new angle about up, times the radius; force minus jitter is the base direction times the distance; only angle and jitter change |
| SteerForWander.ScaledBound | Behaviors/SteerForWander.cs:75 | a factor of magnitude at most n scales a magnitude by at most n, so one draw in [-1, 1] moves the angle by at most the maximum change |
| SteerForWander.SumOfDrawsBound | Behaviors/SteerForWander.cs:75 | n draws in [-1, 1] sum to at most n in magnitude |
| SteerForWander.RunAngle | Behaviors/SteerForWander.cs:75 | the angle accumulates across ticks without wrapping or reset: after any number of ticks it has moved by the maximum change times the sum of the draws |
| SteerForWander.RunAngleBound | Behaviors/SteerForWander.cs:75 | after n ticks with draws in [-1, 1], the angle is within n times the maximum change of where it started |
| SteerForWander.TickAdvancesWalk | Behaviors/SteerForWander.cs:72-86 | one tick followed by the walk over the remaining draws equals the walk over all draws, so the walk describes successive ticks |
| SteerForNavmesh.Clamp | Behaviors/SteerForNavmesh.cs:60 | a well-ordered clamp lands in [lo, hi]; values inside are kept; values below give lo and values above give hi |
| SteerForNavmesh.SetAngle | Behaviors/SteerForNavmesh.cs:52-62 | the whisker angle is written through the clamp, so it stays in [min, max]; values in range are stored as given; heat is unchanged |
| SteerForNavmesh.SetHeat | Behaviors/SteerForNavmesh.cs:64-74 | heat is written through Max(0, .), so it is never negative; non-negative values are stored as given; the angle is unchanged |
| SteerForNavmesh.DefaultsWorkedExample | Behaviors/SteerForNavmesh.cs:13-35 | the default settings are well-ordered; the whiskers start at 15 degrees, a hit opens them to 17 with a cooldown of 10 clear ticks; a clear tick at heat 9 leaves the angle at 17, the tick at heat 1 closes them to 15 |
| SteerForNavmesh.Start | Behaviors/SteerForNavmesh.cs:154-158 | the whiskers start at the minimum angle with zero heat, a valid state |
| SteerForNavmesh.Cool | Behaviors/SteerForNavmesh.cs:265-269 | heat becomes max(0, heat - 1); the angle changes only when the heat is then 0, dropping by the collapse speed through the clamp; validity is kept |
| SteerForNavmesh.Heat | Behaviors/SteerForNavmesh.cs:272-273 | heat becomes max(0, cooldown) and the angle becomes clamp(angle + spread speed); the result is valid |
| SteerForNavmesh.Movement | Behaviors/SteerForNavmesh.cs:220-221 | moving by it from the vehicle's position reaches the predicted position after the minimum time to collision |
| SteerForNavmesh.IsOffMesh | Behaviors/SteerForNavmesh.cs:223-231 | never off the mesh with checking disabled; with checking enabled, off exactly when sampling below the probe point finds no mesh within the probe radius |
| SteerForNavmesh.BackToEdge | Behaviors/SteerForNavmesh.cs:233-241 | the pull is the normalized direction from the probe point to the closest edge, times maximum force and the avoidance factor |
| SteerForNavmesh.EdgePullStrength | Behaviors/SteerForNavmesh.cs:241 | away from the edge the pull's magnitude is the absolute avoidance strength and, for a non-negative strength, it points toward the edge |
| SteerForNavmesh.Cast | Behaviors/SteerForNavmesh.cs:259-261 | the centre ray follows the movement; the right and left whiskers are the movement turned by +angle and -angle about up, scaled by the length factor; all are cast from the vehicle's position |
| SteerForNavmesh.FirstHit | Behaviors/SteerForNavmesh.cs:275-280 | the answered probe is one that hit: the right whisker when it hit, otherwise the left whisker when it hit, otherwise the centre |
| SteerForNavmesh.CalculateForce | Behaviors/SteerForNavmesh.cs:212-283 | off the mesh the whiskers are untouched and the force pulls toward the closest edge, or is zero when none is found; a tick with no hit cools and returns zero; a tick with any hit heats and avoids the highest-priority hit |
| SteerForNavmesh.CalculateForceAdvances | Behaviors/SteerForNavmesh.cs:223-273 | every evaluation moves the whiskers exactly as its outcome (off mesh, clear, contact) says |
| SteerForNavmesh.RunStaysValid | Behaviors/SteerForNavmesh.cs:52-74 | from a valid state with min <= max, any sequence of ticks keeps the angle in [min, max] and the heat non-negative |
| SteerForNavmesh.Collapses | Behaviors/SteerForNavmesh.cs:266-268 | out of n clear ticks, every tick from the one that empties the heat onward closes the whiskers: n - heat + 1 of them, all n from heat 0 or 1, none before |
| SteerForNavmesh.ClearsDrainAndCollapse | Behaviors/SteerForNavmesh.cs:265-269 | after n clear ticks the heat is max(0, heat - n) and the angle has closed by the collapse speed once per collapsing tick, never below the minimum |
| SteerForNavmesh.ClosingIsProduct | Behaviors/SteerForNavmesh.cs:268 | k closings of s degrees add up to k * s |
| SteerForNavmesh.WhiskersEventuallyClose | Behaviors/SteerForNavmesh.cs:266-268 | n clear ticks with n at least the heat, whose n - heat collapses of s degrees cover the gap to the minimum ((n - heat) * s at least the gap), leave the whiskers fully closed and cold |
| SteerForNavmesh.WhiskerAngleMonotone | Behaviors/SteerForNavmesh.cs:266-273 | a hit never narrows the whiskers when the spread speed is non-negative, and a clear tick never widens them when the collapse speed is non-negative |
| SteerForNavmesh.Avoidance | Behaviors/SteerForNavmesh.cs:176-199 | the force minus the normalized movement direction is the normalized perpendicular component of the hit normal, scaled by maximum force times the avoidance factor |
| SteerForNavmesh.AvoidanceIsLateral | Behaviors/SteerForNavmesh.cs:176-199 | the avoidance force is the direction of movement plus a push with no component along that direction |

## Left out

- Unity lifecycle and editor plumbing are not modelled: component wiring,
  `[SerializeField]`, `AddComponentMenu`, Gizmos, `Debug` drawing and
  logging, and the `Profiler`. `Awake`/`Start` appear only as functions
  producing the initial state. The collision callbacks
  `OnCollisionEnter`/`OnCollisionStay` both just call `HandleCollision`,
  which is modelled.
- The tracker's tick queue (`TickedPriorityQueue`) and the finalizer that
  leaves it are reduced to the flag `registered`. `Time.time` is
  the parameter `now` of `MovementTracker.Update`, required to be after
  `lastUpdate` when a sample is taken.
- Engine code, defined in UnityEngine / OpenSteerUtility and not
  modelled, is taken as given functions:
  - the square root;
  - `Quaternion.AngleAxis` applied to a vector;
  - `Quaternion.Inverse` followed by `ToAngleAxis`;
  - `Vector3.Lerp` with its clamping of t;
  - the navmesh queries and their layer mask;
  - `Vehicle.GetSeekVector`, in both overloads, and `PredictFuturePosition`;
  - `Random.Range`, replaced by the draw passed to
    `SteerForWander.CalculateForce`.
- Float specials are not modelled: NaN, infinities, rounding, and the
  single-precision values of 0.707f, 1.8f, 0.85f, 0.8f, 0.1f, 0.0025f,
  0.4f, 0.6f, 0.7f and 0.2f (taken as exact reals). The one infinity the code relies on, distance divided by
  a pursuer speed of zero, is modelled as an unbounded estimate that the
  cap turns into the maximum prediction time.
- Unity's `Vector3 ==` compares with a tolerance of about 1e-5. The test
  `axis == Vector3.zero` in `CalculateAngularVelocity` is modelled as
  exact equality.
- MovementTracker.AngularVelocity: the source tests only `axis.x` against
  the two infinities. The model takes "the axis is finite" as a flag
  reported by the engine, so it does not distinguish which component is
  infinite.
- SteerForPursuit.CalculateForce: requires the tracker that `Awake`
  creates whenever there is a quarry. Before `Awake`, with a serialised
  quarry, the source would dereference a missing tracker outside the
  arrival radius. It also requires a non-negative arrival radius
  and speed. Speed is a magnitude. A negative arrival radius would let a
  zero distance through the gate and divide zero by zero, which is not
  modelled.
- SteerForPursuit.Plan: the time factor for classes outside -1..1 is 0,
  as in the source's switch, but `IntervalComparison` never produces such
  classes.
- SteerForCollision.CalculateForce: requires a target while unlatched.
  The source dereferences `TargetObject` unguarded there, which would
  throw on null.
- SteerForEvasion.CalculateForce: requires the tracker that `Awake`
  creates whenever there is a menace. The source would dereference a
  missing tracker.
- SteerForNavmesh.CalculateForce: the final `return Vector3.zero` after
  the three priority tests is unreachable, since the earlier no-hit branch
  has already returned. The model has no such branch.
- The plain property setters store their value unchanged and are field
  updates of the behaviour records:
  - `SteerForNavmesh`: AvoidanceForceFactor, MinTimeToCollision,
    OffMeshChecking, ProbePositionOffset, ProbeRadius;
  - `SteerForPursuit.MaxPredictionTime`;
  - `SteerForEvasion.PredictionTime`;
  - `SteerForTether.Position`;
  - `SteerForCollision`: ConsiderVelocity, ConsiderSubCollider,
    MinMoveDistance.
- SteerForPoint is not part of this model. It only forwards to the
  vehicle's seek vector.
