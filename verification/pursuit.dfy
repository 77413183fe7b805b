/** SteerForPursuit: steers toward where the quarry is predicted to be at
    interception. The prediction horizon comes from a 3x3 table of time
    factors indexed by how far ahead the quarry is and how parallel its
    heading is to the pursuer's, capped at a maximum prediction time. */
module SteerForPursuit {
  import opened Vector3
  import opened Scene
  import opened OpenSteerUtility
  import MovementTracker

  const DefaultTrackingInterval: real := 0.25
  const DefaultMaxPredictionTime: real := 5.0

  /** Boundary of the middle heading class (about cos 45 degrees). */
  const ClassBound: real := 0.707

  datatype Pursuit = Pursuit(
    quarry: Option<ObjectId>,
    reportedArrival: bool,
    tracker: Option<MovementTracker.Tracker>,
    trackingInterval: real,
    maxPredictionTime: real)

  /** The field initialisers: no tracker yet, nothing reported, the
      default tracking interval and a five-second horizon. */
  function Default(quarry: Option<ObjectId>): (p: Pursuit)
    ensures p.quarry == quarry && p.tracker.None? && !p.reportedArrival
    ensures p.trackingInterval == DefaultTrackingInterval
    ensures p.maxPredictionTime == DefaultMaxPredictionTime
  {
    Pursuit(quarry, false, None, DefaultTrackingInterval, DefaultMaxPredictionTime)
  }

  /** After `Awake`: a tracker exists, follows the quarry, and samples
      exactly while there is a quarry. */
  ghost predicate Valid(p: Pursuit) {
    && p.tracker.Some?
    && MovementTracker.Valid(p.tracker.value)
    && p.tracker.value.target == p.quarry
    && p.tracker.value.enabled == p.quarry.Some?
  }

  /** Creates the tracker for the configured quarry and enables it only
      when there is one. */
  function Awake(p: Pursuit, world: World): (r: Pursuit)
    ensures Valid(r)
    ensures r.quarry == p.quarry && r.reportedArrival == p.reportedArrival
    ensures MovementTracker.AtRest(r.tracker.value)
  {
    var t := MovementTracker.New(p.quarry, p.trackingInterval, world);
    p.(tracker := Some(MovementTracker.SetEnabled(t, p.quarry.Some?, world)))
  }

  /** The `Quarry` setter. Assigning the current quarry changes nothing;
      a different one clears the arrival report, creates the tracker if
      needed, retargets it and enables it exactly when the quarry exists. */
  function SetQuarry(p: Pursuit, value: Option<ObjectId>, world: World): (r: Pursuit)
    ensures p.quarry == value ==> r == p
    ensures p.quarry != value ==>
      && r.quarry == value && !r.reportedArrival
      && r.tracker.Some?
      && r.tracker.value.target == value
      && r.tracker.value.enabled == value.Some?
      && MovementTracker.AtRest(r.tracker.value)
      && MovementTracker.SeededFrom(r.tracker.value, world)
      && (p.tracker.None? || MovementTracker.Valid(p.tracker.value) ==> Valid(r))
    ensures r.trackingInterval == p.trackingInterval && r.maxPredictionTime == p.maxPredictionTime
  {
    if p.quarry == value then p
    else
      var t0 := if p.tracker.Some? then p.tracker.value
                else MovementTracker.New(value, p.trackingInterval, world);
      var t1 := MovementTracker.SetTarget(t0, value, world);
      var t2 := MovementTracker.SetEnabled(t1, value.Some?, world);
      p.(reportedArrival := false, quarry := value, tracker := Some(t2))
  }

  /** The time factor for a (forwardness, parallelness) class pair; 0 for
      values outside -1..1, which the classification never produces. */
  function TimeFactor(forwardness: int, parallelness: int): (r: real)
    ensures -1 <= forwardness <= 1 && -1 <= parallelness <= 1 ==> 0.5 <= r <= 4.0
  {
    match forwardness
    case 1 =>
      (match parallelness case 1 => 4.0 case 0 => 1.8 case -1 => 0.85 case _ => 0.0)
    case 0 =>
      (match parallelness case 1 => 1.0 case 0 => 0.8 case -1 => 4.0 case _ => 0.0)
    case -1 =>
      (match parallelness case 1 => 0.5 case 0 => 2.0 case -1 => 2.0 case _ => 0.0)
    case _ => 0.0
  }

  /** The same nine constants as a table: rows ahead / aside / behind,
      columns parallel / perpendicular / anti-parallel. */
  const TimeFactorTable: seq<seq<real>> :=
    [[4.0, 1.8, 0.85],
     [1.0, 0.8, 4.0],
     [0.5, 2.0, 2.0]]

  lemma TimeFactorMatchesTable(forwardness: int, parallelness: int)
    requires -1 <= forwardness <= 1 && -1 <= parallelness <= 1
    ensures TimeFactor(forwardness, parallelness) == TimeFactorTable[1 - forwardness][1 - parallelness]
  {
  }

  /** Heading classes meet at +-0.707 and a value exactly on a bound
      belongs to the middle class. */
  lemma ClassBoundsAreClosed(x: real)
    ensures IntervalComparison(ClassBound, -ClassBound, ClassBound) == 0
    ensures IntervalComparison(-ClassBound, -ClassBound, ClassBound) == 0
    ensures x > ClassBound ==> IntervalComparison(x, -ClassBound, ClassBound) == 1
    ensures x < -ClassBound ==> IntervalComparison(x, -ClassBound, ClassBound) == -1
  {
  }

  /** The uncapped intercept estimate `(distance / speed) * timeFactor`,
      with a zero speed giving an unbounded estimate (None), as the
      floating-point division by zero does. */
  function EstimatedTime(distance: real, speed: real, timeFactor: real): (et: Option<real>)
    requires distance > 0.0 && speed >= 0.0
    ensures et.None? <==> speed == 0.0
    ensures et.Some? ==> et.value * speed == distance * timeFactor
  {
    if speed == 0.0 then None
    else
      var r := (distance / speed) * timeFactor;
      assert r * speed == distance * timeFactor;
      Some(r)
  }

  /** The estimate capped at the prediction horizon. */
  function CappedTime(et: Option<real>, maxPredictionTime: real): (etl: real)
    ensures etl <= maxPredictionTime
    ensures et.Some? && et.value <= maxPredictionTime ==> etl == et.value
    ensures et.None? || et.value > maxPredictionTime ==> etl == maxPredictionTime
  {
    match et
    case None => maxPredictionTime
    case Some(t) => if t > maxPredictionTime then maxPredictionTime else t
  }

  /** The intermediate results of one pursuit evaluation. */
  datatype Intercept = Intercept(
    forwardness: int,
    parallelness: int,
    timeFactor: real,
    time: real,
    target: Vec3)

  function Offset(p: Pursuit, v: Vehicle, world: World): Vec3
    requires p.quarry.Some?
  {
    Sub(world(p.quarry.value).position, v.position)
  }

  /** Classifies the geometry, looks up the time factor, caps the
      estimate, and extrapolates the quarry along its tracked velocity. */
  function Plan(e: Engine, p: Pursuit, v: Vehicle, world: World): (r: Intercept)
    requires p.quarry.Some? && p.tracker.Some?
    requires v.speed >= 0.0
    requires Magnitude(e, Offset(p, v, world)) > 0.0
    ensures var quarry := world(p.quarry.value);
      var distance := Magnitude(e, Offset(p, v, world));
      && r.parallelness == IntervalComparison(Dot(v.forward, quarry.forward), -ClassBound, ClassBound)
      && r.forwardness == IntervalComparison(Dot(v.forward, Div(Offset(p, v, world), distance)), -ClassBound, ClassBound)
      && r.timeFactor == TimeFactor(r.forwardness, r.parallelness)
      && r.time == CappedTime(EstimatedTime(distance, v.speed, r.timeFactor), p.maxPredictionTime)
      && r.time <= p.maxPredictionTime
      && r.target == Add(quarry.position, Scale(p.tracker.value.velocity, r.time))
  {
    var quarry := world(p.quarry.value);
    var offset := Offset(p, v, world);
    var distance := Magnitude(e, offset);
    var unitOffset := Div(offset, distance);
    var parallelness := Dot(v.forward, quarry.forward);
    var forwardness := Dot(v.forward, unitOffset);
    var f := IntervalComparison(forwardness, -ClassBound, ClassBound);
    var q := IntervalComparison(parallelness, -ClassBound, ClassBound);
    var factor := TimeFactor(f, q);
    var etl := CappedTime(EstimatedTime(distance, v.speed, factor), p.maxPredictionTime);
    Intercept(f, q, factor, etl, Add(quarry.position, Scale(p.tracker.value.velocity, etl)))
  }

  /** The pursuit force: zero without a quarry or once within the arrival
      radius; otherwise the seek vector toward the predicted intercept
      point, without velocity matching. */
  function CalculateForce(e: Engine, p: Pursuit, v: Vehicle, world: World): (force: Vec3)
    requires p.quarry.Some? ==> p.tracker.Some?
    requires v.speed >= 0.0 && v.arrivalRadius >= 0.0
    ensures p.quarry.None? ==> force == Zero
    ensures p.quarry.Some? && Magnitude(e, Offset(p, v, world)) <= v.arrivalRadius ==> force == Zero
    ensures p.quarry.Some? && Magnitude(e, Offset(p, v, world)) > v.arrivalRadius ==>
      force == v.seekDefault(Plan(e, p, v, world).target, false)
  {
    if p.quarry.None? then Zero
    else if Magnitude(e, Offset(p, v, world)) > v.arrivalRadius then
      v.seekDefault(Plan(e, p, v, world).target, false)
    else Zero
  }

  /** The prediction never looks further ahead than the horizon, and with
      a non-negative horizon it never looks back in time either. */
  lemma InterceptTimeWithinHorizon(e: Engine, p: Pursuit, v: Vehicle, world: World)
    requires p.quarry.Some? && p.tracker.Some?
    requires v.speed >= 0.0
    requires Magnitude(e, Offset(p, v, world)) > 0.0
    requires p.maxPredictionTime >= 0.0
    ensures 0.0 <= Plan(e, p, v, world).time <= p.maxPredictionTime
  {
    var r := Plan(e, p, v, world);
    var distance := Magnitude(e, Offset(p, v, world));
    var et := EstimatedTime(distance, v.speed, r.timeFactor);
    if et.Some? {
      assert -1 <= r.forwardness <= 1 && -1 <= r.parallelness <= 1;
      assert r.timeFactor > 0.0;
      MulPositive(distance, r.timeFactor);
      assert et.value * v.speed > 0.0;
    }
  }

  /** A quarry the tracker sees standing still is aimed at where it is. */
  lemma StationaryQuarryIsItsOwnTarget(e: Engine, p: Pursuit, v: Vehicle, world: World)
    requires p.quarry.Some? && p.tracker.Some?
    requires v.speed >= 0.0
    requires Magnitude(e, Offset(p, v, world)) > 0.0
    requires p.tracker.value.velocity == Zero
    ensures Plan(e, p, v, world).target == world(p.quarry.value).position
  {
  }

  /** Quarry dead ahead (class +1) on a parallel heading (class +1), ten
      units away, pursuer speed five: two seconds of direct travel times
      the factor 4 gives an estimate of 8, capped at the horizon. */
  lemma WorkedExample(maxPredictionTime: real)
    ensures TimeFactor(IntervalComparison(1.0, -ClassBound, ClassBound),
                       IntervalComparison(1.0, -ClassBound, ClassBound)) == 4.0
    ensures EstimatedTime(10.0, 5.0, 4.0) == Some(8.0)
    ensures CappedTime(Some(8.0), maxPredictionTime) == if 8.0 > maxPredictionTime then maxPredictionTime else 8.0
  {
  }
}
