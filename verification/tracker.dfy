/** MovementTracker: samples a target transform at a fixed interval and
    derives velocity, acceleration and angular velocity from consecutive
    samples by finite differences.

    The tick queue the tracker registers with is reduced to the flag
    `registered`. The clock is the parameter `now` of `Update`; the tracker
    remembers when it last sampled in `lastUpdate`, and a sample's time
    step is `now - lastUpdate`. A reset does not touch `lastUpdate`. */
module MovementTracker {
  import opened Vector3
  import opened Scene

  /** Initial squared moving tolerance (a linear tolerance of 0.05). */
  const DefaultSqrMovingTolerance: real := 0.0025

  datatype Tracker = Tracker(
    target: Option<ObjectId>,
    enabled: bool,
    registered: bool,
    tickLength: real,
    lastUpdate: real,
    position: Vec3,
    positionPrev: Vec3,
    velocity: Vec3,
    velocityPrev: Vec3,
    velocitySmoothed: Vec3,
    acceleration: Vec3,
    accelerationSmoothed: Vec3,
    rotation: Quat,
    rotationPrev: Quat,
    angularVelocity: Vec3,
    angularVelocitySmoothed: Vec3,
    sqrMovingTolerance: real)

  /** The tracker sits in the tick queue exactly while it is enabled, and
      its squared tolerance is a square. */
  ghost predicate Valid(t: Tracker) {
    t.registered == t.enabled && t.sqrMovingTolerance >= 0.0
  }

  /** Every derived quantity is zero. */
  ghost predicate AtRest(t: Tracker) {
    && t.velocity == Zero && t.velocityPrev == Zero && t.velocitySmoothed == Zero
    && t.acceleration == Zero && t.accelerationSmoothed == Zero
    && t.angularVelocity == Zero && t.angularVelocitySmoothed == Zero
  }

  /** Current and previous pose are both the target's pose in `world`, or
      the origin and the identity rotation when there is no target. */
  ghost predicate SeededFrom(t: Tracker, world: World) {
    match t.target
    case Some(o) =>
      && t.position == world(o).position && t.positionPrev == world(o).position
      && t.rotation == world(o).rotation && t.rotationPrev == world(o).rotation
    case None =>
      && t.position == Zero && t.positionPrev == Zero
      && t.rotation == Identity && t.rotationPrev == Identity
  }

  /** The fields no sample or reset touches. */
  ghost predicate SameSettings(a: Tracker, b: Tracker) {
    && a.target == b.target && a.enabled == b.enabled && a.registered == b.registered
    && a.tickLength == b.tickLength && a.sqrMovingTolerance == b.sqrMovingTolerance
  }

  /** Drops the sampled history: derived quantities zeroed, pose re-seeded.
      The time of the last sample is kept. */
  function Reset(t: Tracker, world: World): (r: Tracker)
    ensures AtRest(r) && SeededFrom(r, world) && SameSettings(r, t)
    ensures r.lastUpdate == t.lastUpdate
  {
    var p := if t.target.Some? then world(t.target.value).position else Zero;
    var q := if t.target.Some? then world(t.target.value).rotation else Identity;
    t.(position := p, positionPrev := p,
       rotation := q, rotationPrev := q,
       velocity := Zero, velocityPrev := Zero, velocitySmoothed := Zero,
       acceleration := Zero, accelerationSmoothed := Zero,
       angularVelocity := Zero, angularVelocitySmoothed := Zero)
  }

  /** A reset state depends on the settings, the time of the last sample
      and the world only: whatever two trackers had sampled before,
      resetting makes them equal. */
  lemma ResetForgetsHistory(a: Tracker, b: Tracker, world: World)
    requires SameSettings(a, b) && a.lastUpdate == b.lastUpdate
    ensures Reset(a, world) == Reset(b, world)
    ensures Reset(Reset(a, world), world) == Reset(a, world)
  {
  }

  /** The `target` setter: always resets, even for the same target. */
  function SetTarget(t: Tracker, target: Option<ObjectId>, world: World): (r: Tracker)
    ensures r.target == target
    ensures AtRest(r) && SeededFrom(r, world)
    ensures r.enabled == t.enabled && r.registered == t.registered
    ensures r.tickLength == t.tickLength && r.sqrMovingTolerance == t.sqrMovingTolerance
    ensures r.lastUpdate == t.lastUpdate
  {
    Reset(t.(target := target), world)
  }

  /** The `enabled` setter: a no-op for the current value; otherwise it
      resets and joins or leaves the tick queue. */
  function SetEnabled(t: Tracker, on: bool, world: World): (r: Tracker)
    ensures t.enabled == on ==> r == t
    ensures t.enabled != on ==>
      && r.enabled == on && r.registered == on
      && AtRest(r) && SeededFrom(r, world)
      && r.target == t.target && r.tickLength == t.tickLength
      && r.sqrMovingTolerance == t.sqrMovingTolerance
    ensures r.lastUpdate == t.lastUpdate
    ensures Valid(t) ==> Valid(r)
  {
    if t.enabled == on then t
    else Reset(t.(enabled := on, registered := on), world)
  }

  /** Field initialisers before the constructor body runs; `lastUpdate`
      starts at time 0. */
  function Blank(tickLength: real): Tracker {
    Tracker(None, false, false, tickLength, 0.0,
            Zero, Zero, Zero, Zero, Zero, Zero, Zero,
            Quat(0.0, 0.0, 0.0, 0.0), Identity, Zero, Zero,
            DefaultSqrMovingTolerance)
  }

  /** The constructor: sets the target, then enables (and so registers). */
  function New(target: Option<ObjectId>, tickLength: real, world: World): (r: Tracker)
    ensures r.target == target && r.enabled && r.registered
    ensures AtRest(r) && SeededFrom(r, world)
    ensures r.tickLength == tickLength && r.sqrMovingTolerance == DefaultSqrMovingTolerance
    ensures r.lastUpdate == 0.0
    ensures Valid(r)
  {
    SetEnabled(SetTarget(Blank(tickLength), target, world), true, world)
  }

  /** `isMoving`: the squared speed exceeds the squared tolerance. With a
      non-negative tolerance, a tracker at rest is never moving. */
  function IsMoving(t: Tracker): (moving: bool)
    ensures t.sqrMovingTolerance >= 0.0 && moving ==> t.velocity != Zero
    ensures t.sqrMovingTolerance < 0.0 ==> moving
  {
    SqrMagnitude(t.velocity) > t.sqrMovingTolerance
  }

  /** The `movingTolerance` getter: the root of the stored square. */
  function MovingTolerance(e: Engine, t: Tracker): (tolerance: real)
    requires Lawful(e)
    ensures t.sqrMovingTolerance >= 0.0 ==>
      tolerance >= 0.0 && tolerance * tolerance == t.sqrMovingTolerance
  {
    e.sqrt(t.sqrMovingTolerance)
  }

  /** The `movingTolerance` setter: stores the square. */
  function SetMovingTolerance(t: Tracker, tolerance: real): (r: Tracker)
    ensures r.sqrMovingTolerance >= 0.0
    ensures r == t.(sqrMovingTolerance := r.sqrMovingTolerance)
  {
    SquareNonNegative(tolerance);
    t.(sqrMovingTolerance := tolerance * tolerance)
  }

  /** Writing a tolerance and reading it back gives its absolute value, so
      a non-negative tolerance round-trips exactly. */
  lemma MovingToleranceRoundTrip(e: Engine, t: Tracker, tolerance: real)
    requires Lawful(e)
    ensures MovingTolerance(e, SetMovingTolerance(t, tolerance)) == Abs(tolerance)
    ensures tolerance >= 0.0 ==> MovingTolerance(e, SetMovingTolerance(t, tolerance)) == tolerance
  {
    var a := Abs(tolerance);
    assert tolerance * tolerance == a * a;
    SqrtOfSquare(e, a);
  }

  /** Reading the tolerance and writing it back leaves the tracker as it was. */
  lemma MovingToleranceWriteBack(e: Engine, t: Tracker)
    requires Lawful(e)
    requires Valid(t)
    ensures SetMovingTolerance(t, MovingTolerance(e, t)) == t
  {
    var s := e.sqrt(t.sqrMovingTolerance);
    assert s * s == t.sqrMovingTolerance;
  }

  /** Comparing squares is comparing lengths: the tracker is moving exactly
      when its speed exceeds the linear tolerance. */
  lemma IsMovingMeansFasterThanTolerance(e: Engine, t: Tracker)
    requires Lawful(e)
    requires Valid(t)
    ensures IsMoving(t) <==> Magnitude(e, t.velocity) > MovingTolerance(e, t)
  {
    SqrtMonotone(e, t.sqrMovingTolerance, SqrMagnitude(t.velocity));
  }

  /** A moving tracker has a non-zero speed, so dividing by it is defined. */
  lemma MovingHasPositiveSpeed(e: Engine, t: Tracker)
    requires Lawful(e)
    requires Valid(t)
    requires IsMoving(t)
    ensures Magnitude(e, t.velocity) > 0.0
  {
    MagnitudeProperties(e, t.velocity);
  }

  /** Brings an angle reported in [0, 360] into (-180, 180]. */
  function WrapAngle(angle: real): (r: real)
    ensures r == angle || r == angle - 360.0
    ensures 0.0 <= angle <= 360.0 ==> -180.0 < r <= 180.0
    ensures -180.0 < angle <= 180.0 ==> r == angle
  {
    if angle > 180.0 then angle - 360.0 else angle
  }

  /** Angular velocity from the rotation between two samples: zero for a
      degenerate axis; otherwise the normalized axis scaled by a rate that,
      multiplied by `dt`, gives back the wrapped angle. */
  function AngularVelocity(e: Engine, prev: Quat, current: Quat, dt: real): (w: Vec3)
    requires dt != 0.0
    ensures var aa := e.deltaAngleAxis(prev, current);
      if aa.axis == Zero || !aa.axisFinite then w == Zero
      else exists rate :: rate * dt == WrapAngle(aa.angle) && w == Scale(Normalized(e, aa.axis), rate)
  {
    var aa := e.deltaAngleAxis(prev, current);
    if aa.axis == Zero || !aa.axisFinite then Zero
    else
      var rate := WrapAngle(aa.angle) / dt;
      assert rate * dt == WrapAngle(aa.angle);
      Scale(Normalized(e, aa.axis), rate)
  }

  /** One sample, taken at time `now`. A disabled tracker, or one without
      a target, is left exactly as it was. Otherwise the time step is the
      time since the last sample, `dt = now - lastUpdate`; velocity and
      acceleration are the finite differences of position and velocity over
      `dt` (integrating them over `dt` gives back the new sample), the
      "previous" fields catch up, and `lastUpdate` becomes `now`. */
  function Update(e: Engine, t: Tracker, world: World, now: real): (r: Tracker)
    requires t.enabled && t.target.Some? ==> now > t.lastUpdate
    ensures !t.enabled || t.target.None? ==> r == t
    ensures t.enabled && t.target.Some? ==>
      var dt := now - t.lastUpdate;
      && SameSettings(r, t)
      && r.lastUpdate == now
      && r.position == world(t.target.value).position
      && r.rotation == world(t.target.value).rotation
      && Add(t.positionPrev, Scale(r.velocity, dt)) == r.position
      && Add(t.velocityPrev, Scale(r.acceleration, dt)) == r.velocity
      && r.angularVelocity == AngularVelocity(e, t.rotationPrev, r.rotation, dt)
      && r.velocitySmoothed == e.lerp(t.velocitySmoothed, r.velocity, dt * 10.0)
      && r.accelerationSmoothed == e.lerp(t.accelerationSmoothed, r.acceleration, dt * 3.0)
      && r.angularVelocitySmoothed == e.lerp(t.angularVelocitySmoothed, r.angularVelocity, dt * 3.0)
      && r.positionPrev == r.position && r.rotationPrev == r.rotation
      && r.velocityPrev == r.velocity
  {
    if !t.enabled || t.target.None? then t
    else
      var dt := now - t.lastUpdate;
      var pose := world(t.target.value);
      var velocity := Div(Sub(pose.position, t.positionPrev), dt);
      var angular := AngularVelocity(e, t.rotationPrev, pose.rotation, dt);
      var acceleration := Div(Sub(velocity, t.velocityPrev), dt);
      DivUndoesScale(Sub(pose.position, t.positionPrev), dt);
      DivUndoesScale(Sub(velocity, t.velocityPrev), dt);
      t.(position := pose.position, rotation := pose.rotation,
         velocity := velocity, angularVelocity := angular, acceleration := acceleration,
         velocitySmoothed := e.lerp(t.velocitySmoothed, velocity, dt * 10.0),
         accelerationSmoothed := e.lerp(t.accelerationSmoothed, acceleration, dt * 3.0),
         angularVelocitySmoothed := e.lerp(t.angularVelocitySmoothed, angular, dt * 3.0),
         positionPrev := pose.position, rotationPrev := pose.rotation,
         velocityPrev := velocity,
         lastUpdate := now)
  }

  lemma DivUndoesScale(v: Vec3, d: real)
    requires d != 0.0
    ensures Scale(Div(v, d), d) == v
  {
  }

  /** The first sample after a reseed (a retarget, a re-enable or the
      constructor) divides the displacement since the reseed by the time
      since the last sample, not by the time since the reseed: the reseed
      keeps `lastUpdate`. */
  lemma FirstSampleAfterReseedUsesLastSampleTime(e: Engine, t: Tracker, o: ObjectId,
                                                 seeded: World, sampled: World, now: real)
    requires t.enabled && now > t.lastUpdate
    ensures var s := Update(e, SetTarget(t, Some(o), seeded), sampled, now);
      && Scale(s.velocity, now - t.lastUpdate) == Sub(sampled(o).position, seeded(o).position)
      && s.sqrMovingTolerance == t.sqrMovingTolerance
  {
    var r := SetTarget(t, Some(o), seeded);
    var s := Update(e, r, sampled, now);
    assert Add(r.positionPrev, Scale(s.velocity, now - t.lastUpdate)) == s.position;
  }

  /** The time of the last sample starts at 0 and the constructor leaves
      it there, so a tracker's very first sample divides the displacement
      since creation by the whole time since 0: a tracker created late in
      play under-reports its target's speed on that sample. */
  lemma FirstSampleAfterCreationUsesClockZero(e: Engine, o: ObjectId, tickLength: real,
                                               created: World, sampled: World, now: real)
    requires now > 0.0
    ensures var s := Update(e, New(Some(o), tickLength, created), sampled, now);
      Scale(s.velocity, now) == Sub(sampled(o).position, created(o).position)
  {
    var r := New(Some(o), tickLength, created);
    var s := Update(e, r, sampled, now);
    assert Add(r.positionPrev, Scale(s.velocity, now - r.lastUpdate)) == s.position;
  }

  /** A concrete case: a tracker whose last sample (or, when it has never
      sampled, time 0) was 60 seconds ago is pointed at a target that
      moves at 1 unit per second along x. The sample a quarter of a second
      later, 0.25 units on, reports a speed of 0.25 / 60.25 = 1/241,
      below the default tolerance of 0.05, so the target is not seen
      moving. */
  lemma StaleIntervalHidesMotion(e: Engine, t: Tracker, o: ObjectId,
                                 seeded: World, sampled: World, now: real)
    requires t.enabled && now == t.lastUpdate + 60.25
    requires t.sqrMovingTolerance == DefaultSqrMovingTolerance
    requires Sub(sampled(o).position, seeded(o).position) == Vec3(0.25, 0.0, 0.0)
    ensures var s := Update(e, SetTarget(t, Some(o), seeded), sampled, now);
      Scale(s.velocity, 241.0) == Vec3(1.0, 0.0, 0.0) && !IsMoving(s)
  {
    FirstSampleAfterReseedUsesLastSampleTime(e, t, o, seeded, sampled, now);
    var s := Update(e, SetTarget(t, Some(o), seeded), sampled, now);
    assert now - t.lastUpdate == 60.25;
    SlowSample(s.velocity);
    BelowToleranceIsNotMoving(s);
  }

  /** A velocity that covers 0.25 units along x in 60.25 seconds is
      1/241 units per second along x, which is below the default
      tolerance. */
  lemma SlowSample(w: Vec3)
    requires Scale(w, 60.25) == Vec3(0.25, 0.0, 0.0)
    ensures Scale(w, 241.0) == Vec3(1.0, 0.0, 0.0)
    ensures SqrMagnitude(w) <= DefaultSqrMovingTolerance
  {
    SlowVelocity(w);
    SlowSpeed(w);
  }

  lemma SlowVelocity(w: Vec3)
    requires Scale(w, 60.25) == Vec3(0.25, 0.0, 0.0)
    ensures w == Vec3(1.0 / 241.0, 0.0, 0.0)
  {
  }

  lemma SlowSpeed(w: Vec3)
    requires w == Vec3(1.0 / 241.0, 0.0, 0.0)
    ensures Scale(w, 241.0) == Vec3(1.0, 0.0, 0.0)
    ensures SqrMagnitude(w) <= DefaultSqrMovingTolerance
  {
  }

  lemma BelowToleranceIsNotMoving(t: Tracker)
    requires SqrMagnitude(t.velocity) <= t.sqrMovingTolerance
    ensures !IsMoving(t)
  {
  }

  /** Where a target drifting at constant velocity `v` from `start` sits
      at the k-th sample. */
  function DriftPosition(start: Vec3, v: Vec3, dt: real, k: nat): Vec3 {
    Add(start, Scale(v, (k as real) * dt))
  }

  /** A world in which every object sits at the k-th drift position. */
  function Drift(start: Vec3, v: Vec3, dt: real, k: nat, rotation: Quat, forward: Vec3): World {
    (o: ObjectId) => Pose(DriftPosition(start, v, dt, k), rotation, forward)
  }

  /** `n` consecutive samples, `dt` apart, of a target drifting at constant
      velocity `v`: each sample is taken `dt` after the previous one (the
      first `dt` after the tracker's last sample time), and the k-th one
      in `Drift(.., k, ..)`. */
  function SampleDrift(e: Engine, t: Tracker, start: Vec3, v: Vec3, dt: real,
                       rotation: Quat, forward: Vec3, n: nat): Tracker
    requires dt > 0.0
  {
    if n == 0 then t
    else
      var prev := SampleDrift(e, t, start, v, dt, rotation, forward, n - 1);
      Update(e, prev, Drift(start, v, dt, n, rotation, forward), prev.lastUpdate + dt)
  }

  /** One step of drift is a displacement of exactly `v * dt`. */
  lemma DriftStep(start: Vec3, v: Vec3, dt: real, k: nat)
    requires dt > 0.0
    ensures Div(Sub(DriftPosition(start, v, dt, k + 1), DriftPosition(start, v, dt, k)), dt) == v
  {
    var a := (k as real) * dt;
    var b := ((k + 1) as real) * dt;
    assert b == a + dt;
    assert v.x * b - v.x * a == v.x * dt;
    assert v.y * b - v.y * a == v.y * dt;
    assert v.z * b - v.z * a == v.z * dt;
  }

  /** One sample taken `dt` after the last one in the drift world `k + 1`,
      by a tracker whose previous position is the drift position `k`. */
  lemma DriftSample(e: Engine, t: Tracker, start: Vec3, v: Vec3, dt: real,
                    rotation: Quat, forward: Vec3, k: nat)
    requires dt > 0.0
    requires t.enabled && t.target.Some?
    requires t.positionPrev == DriftPosition(start, v, dt, k)
    ensures var s := Update(e, t, Drift(start, v, dt, k + 1, rotation, forward), t.lastUpdate + dt);
      && s.enabled && s.target == t.target
      && s.positionPrev == DriftPosition(start, v, dt, k + 1)
      && s.velocity == v && s.velocityPrev == v
      && s.acceleration == Div(Sub(v, t.velocityPrev), dt)
  {
    DriftStep(start, v, dt, k);
    assert (t.lastUpdate + dt) - t.lastUpdate == dt;
  }

  /** What `n` samples of a constant-velocity drift leave in the tracker. */
  ghost predicate TracksDrift(s: Tracker, t: Tracker, start: Vec3, v: Vec3, dt: real, n: nat)
    requires dt > 0.0
  {
    && s.enabled && s.target == t.target
    && s.positionPrev == DriftPosition(start, v, dt, n)
    && (n == 0 ==> s.velocityPrev == Zero)
    && (n >= 1 ==> s.velocity == v && s.velocityPrev == v)
    && (n == 1 ==> s.acceleration == Div(v, dt))
    && (n >= 2 ==> s.acceleration == Zero)
  }

  /** Tracking a target that moves `v * dt` per sample. The premise is that
      the tracker's previous position `start` is where the target stood at
      the time of its last sample, `lastUpdate` (a reset leaves the tracker
      at rest, with that time unchanged). Then the first sample already
      reports velocity `v` (and acceleration `v / dt`, the jump from rest);
      from the second sample on, velocity stays `v` and acceleration is
      zero. */
  lemma {:induction false} ConstantVelocityIsTracked(e: Engine, t: Tracker, start: Vec3, v: Vec3,
                                                     dt: real, rotation: Quat, forward: Vec3, n: nat)
    requires dt > 0.0
    requires t.enabled && t.target.Some?
    requires t.positionPrev == start && t.velocityPrev == Zero
    ensures TracksDrift(SampleDrift(e, t, start, v, dt, rotation, forward, n), t, start, v, dt, n)
  {
    if n == 0 {
      assert DriftPosition(start, v, dt, 0) == start;
    } else {
      ConstantVelocityIsTracked(e, t, start, v, dt, rotation, forward, n - 1);
      var prev := SampleDrift(e, t, start, v, dt, rotation, forward, n - 1);
      DriftSample(e, prev, start, v, dt, rotation, forward, n - 1);
      if n == 1 {
        assert Sub(v, Zero) == v;
      } else {
        assert Sub(v, v) == Zero;
        assert Div(Zero, dt) == Zero;
      }
    }
  }
}
