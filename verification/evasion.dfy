/** SteerForEvasion: flees from where the menace is predicted to be, the
    prediction horizon being the time the menace would need to cover the
    current distance at its tracked speed, capped at a fixed horizon. */
module SteerForEvasion {
  import opened Vector3
  import opened Scene
  import MovementTracker

  const DefaultTrackingInterval: real := 0.25

  datatype Evasion = Evasion(
    menace: Option<ObjectId>,
    tracker: Option<MovementTracker.Tracker>,
    predictionTime: real,
    trackingInterval: real)

  /** The field initialisers: no tracker yet, a prediction time of 0 (the
      field has no initialiser) and the default tracking interval. */
  function Default(menace: Option<ObjectId>): (ev: Evasion)
    ensures ev.menace == menace && ev.tracker.None?
    ensures ev.predictionTime == 0.0 && ev.trackingInterval == DefaultTrackingInterval
  {
    Evasion(menace, None, 0.0, DefaultTrackingInterval)
  }

  /** After `Awake`: a tracker exists, follows the menace, and samples
      exactly while there is a menace. */
  ghost predicate Valid(ev: Evasion) {
    && ev.tracker.Some?
    && MovementTracker.Valid(ev.tracker.value)
    && ev.tracker.value.target == ev.menace
    && ev.tracker.value.enabled == ev.menace.Some?
  }

  function Awake(ev: Evasion, world: World): (r: Evasion)
    ensures Valid(r)
    ensures r.menace == ev.menace && r.predictionTime == ev.predictionTime
  {
    var t := MovementTracker.New(ev.menace, ev.trackingInterval, world);
    ev.(tracker := Some(MovementTracker.SetEnabled(t, ev.menace.Some?, world)))
  }

  /** The `Menace` setter. Unlike the pursuit's quarry setter it does not
      skip an unchanged value and does not create a missing tracker: an
      existing tracker is retargeted (and so reset) and enabled exactly
      when the menace exists. */
  function SetMenace(ev: Evasion, value: Option<ObjectId>, world: World): (r: Evasion)
    ensures r.menace == value && r.predictionTime == ev.predictionTime
    ensures ev.tracker.None? ==> r.tracker.None?
    ensures ev.tracker.Some? ==>
      && r.tracker.Some?
      && r.tracker.value.target == value
      && r.tracker.value.enabled == value.Some?
      && MovementTracker.AtRest(r.tracker.value)
      && MovementTracker.SeededFrom(r.tracker.value, world)
    ensures Valid(ev) ==> Valid(r)
  {
    if ev.tracker.None? then ev.(menace := value)
    else
      var t1 := MovementTracker.SetTarget(ev.tracker.value, value, world);
      var t2 := MovementTracker.SetEnabled(t1, value.Some?, world);
      ev.(menace := value, tracker := Some(t2))
  }

  /** Unity's `Mathf.Min`. */
  function Min(a: real, b: real): (r: real)
    ensures r <= a && r <= b
    ensures r == a || r == b
  {
    if a < b then a else b
  }

  /** Time for the menace to cover `distance` at its tracked speed; zero
      when the tracker does not consider it moving. */
  function RoughTime(e: Engine, t: MovementTracker.Tracker, distance: real): (r: real)
    requires Lawful(e) && MovementTracker.Valid(t)
    ensures !MovementTracker.IsMoving(t) ==> r == 0.0
    ensures MovementTracker.IsMoving(t) ==> r * Magnitude(e, t.velocity) == distance
    ensures distance >= 0.0 ==> r >= 0.0
  {
    if MovementTracker.IsMoving(t) then
      MovementTracker.MovingHasPositiveSpeed(e, t);
      distance / Magnitude(e, t.velocity)
    else 0.0
  }

  /** Where the menace is expected to be: its position moved along its
      tracked velocity for the time it needs to cover the distance to the
      vehicle, but for `PredictionTime` at most. */
  function PredictedTarget(e: Engine, ev: Evasion, v: Vehicle, world: World): (target: Vec3)
    requires Lawful(e)
    requires ev.menace.Some? && ev.tracker.Some? && MovementTracker.Valid(ev.tracker.value)
    ensures var menace := world(ev.menace.value).position;
      var distance := Magnitude(e, Sub(menace, v.position));
      Sub(target, menace) == Scale(ev.tracker.value.velocity,
                                   Min(RoughTime(e, ev.tracker.value, distance), ev.predictionTime))
  {
    var menace := world(ev.menace.value).position;
    var distance := Magnitude(e, Sub(menace, v.position));
    var time := Min(RoughTime(e, ev.tracker.value, distance), ev.predictionTime);
    Add(menace, Scale(ev.tracker.value.velocity, time))
  }

  /** The evasion force: zero without a menace; otherwise the flee vector
      from the predicted position minus the vehicle's own velocity, so
      that force plus velocity points from the prediction to the vehicle. */
  function CalculateForce(e: Engine, ev: Evasion, v: Vehicle, world: World): (force: Vec3)
    requires Lawful(e)
    requires ev.menace.Some? ==> ev.tracker.Some? && MovementTracker.Valid(ev.tracker.value)
    ensures ev.menace.None? ==> force == Zero
    ensures ev.menace.Some? ==>
      Add(force, v.velocity) == Sub(v.position, PredictedTarget(e, ev, v, world))
  {
    if ev.menace.None? then Zero
    else Sub(Sub(v.position, PredictedTarget(e, ev, v, world)), v.velocity)
  }

  /** The look-ahead used for the prediction never exceeds the horizon,
      and with a non-negative horizon it is never negative. */
  lemma PredictionTimeWithinHorizon(e: Engine, t: MovementTracker.Tracker, distance: real, horizon: real)
    requires Lawful(e) && MovementTracker.Valid(t)
    requires distance >= 0.0
    ensures Min(RoughTime(e, t, distance), horizon) <= horizon
    ensures horizon >= 0.0 ==> Min(RoughTime(e, t, distance), horizon) >= 0.0
  {
  }

  /** The prediction lies on the menace's track: its offset from the
      menace is the tracked velocity times a look-ahead between 0 and the
      prediction time. */
  lemma PredictionAlongTrack(e: Engine, ev: Evasion, v: Vehicle, world: World)
    requires Lawful(e)
    requires ev.menace.Some? && ev.tracker.Some? && MovementTracker.Valid(ev.tracker.value)
    requires ev.predictionTime >= 0.0
    ensures exists k: real ::
      && 0.0 <= k <= ev.predictionTime
      && Sub(PredictedTarget(e, ev, v, world), world(ev.menace.value).position)
         == Scale(ev.tracker.value.velocity, k)
  {
    var menace := world(ev.menace.value).position;
    var distance := Magnitude(e, Sub(menace, v.position));
    MagnitudeProperties(e, Sub(menace, v.position));
    var k := Min(RoughTime(e, ev.tracker.value, distance), ev.predictionTime);
    assert 0.0 <= k <= ev.predictionTime;
    assert Sub(PredictedTarget(e, ev, v, world), menace) == Scale(ev.tracker.value.velocity, k);
  }

  /** A menace the tracker does not see moving is fled from where it
      stands (given a non-negative horizon). */
  lemma StillMenaceIsFledInPlace(e: Engine, ev: Evasion, v: Vehicle, world: World)
    requires Lawful(e)
    requires ev.menace.Some? && ev.tracker.Some? && MovementTracker.Valid(ev.tracker.value)
    requires !MovementTracker.IsMoving(ev.tracker.value)
    requires ev.predictionTime >= 0.0
    ensures PredictedTarget(e, ev, v, world) == world(ev.menace.value).position
    ensures CalculateForce(e, ev, v, world)
         == Sub(Sub(v.position, world(ev.menace.value).position), v.velocity)
  {
    var menace := world(ev.menace.value).position;
    assert Scale(ev.tracker.value.velocity, 0.0) == Zero;
    assert Add(menace, Zero) == menace;
  }
}
