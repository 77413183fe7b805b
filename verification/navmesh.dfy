/** SteerForNavmesh: keeps a vehicle on the navigation mesh. Three probes
    (a centre ray along the predicted movement and two "whiskers" turned
    left and right of it) are cast against the mesh; a hit produces an
    avoidance force. The whiskers open up while obstacles are met and
    close again, after a cooldown, once the way is clear. */
module SteerForNavmesh {
  import opened Vector3
  import opened Scene
  import opened OpenSteerUtility

  /** The behaviour's settings, with the source's defaults in `Defaults`. */
  datatype Config = Config(
    avoidanceForceFactor: real,
    minTimeToCollision: real,
    whiskerLengthFactor: real,
    minWhiskerAngle: real,
    maxWhiskerAngle: real,
    whiskerSpreadSpeed: real,
    whiskerCooldown: int,
    whiskerCollapseSpeed: real,
    offMeshChecking: bool,
    probePositionOffset: Vec3,
    probeRadius: real)

  const Defaults: Config := Config(0.1, 2.0, 0.7, 15.0, 70.0, 2.0, 10, 2.0, true, Vec3(0.0, 0.2, 0.0), 0.1)

  /** With the default settings the whiskers start at 15 degrees, a hit
      opens them by 2 degrees and arms a cooldown of 10 clear ticks, and the
      last of those ticks closes them by 2 degrees again. */
  lemma DefaultsWorkedExample()
    ensures WellConfigured(Defaults)
    ensures Start(Defaults) == Whiskers(15.0, 0)
    ensures Heat(Defaults, Start(Defaults)) == Whiskers(17.0, 10)
    ensures Cool(Defaults, Whiskers(17.0, 9)) == Whiskers(17.0, 8)
    ensures Cool(Defaults, Whiskers(17.0, 1)) == Whiskers(15.0, 0)
  {
  }

  /** The whisker state carried from tick to tick: the current opening
      angle (degrees) and the heat, the number of clear ticks left before
      the whiskers start to close. */
  datatype Whiskers = Whiskers(angle: real, heat: int)

  /** The result of one navmesh query. */
  datatype NavHit = NavHit(hit: bool, position: Vec3, normal: Vec3)

  /** The engine's navmesh queries, for the layer the behaviour uses:
      - raycast(from, to): `NavMesh.Raycast`;
      - samplePosition(p, radius): `NavMesh.SamplePosition`;
      - findClosestEdge(p): `NavMesh.FindClosestEdge`. */
  datatype NavMesh = NavMesh(
    raycast: (Vec3, Vec3) -> NavHit,
    samplePosition: (Vec3, real) -> NavHit,
    findClosestEdge: Vec3 -> NavHit)

  ghost predicate WellConfigured(c: Config) {
    c.minWhiskerAngle <= c.maxWhiskerAngle
  }

  /** The whisker state respects its two setters' clamps. */
  ghost predicate Valid(c: Config, w: Whiskers) {
    c.minWhiskerAngle <= w.angle <= c.maxWhiskerAngle && w.heat >= 0
  }

  /** Unity's `Mathf.Clamp`: the lower bound is tested first. */
  function Clamp(value: real, lo: real, hi: real): (r: real)
    ensures lo <= hi ==> lo <= r <= hi
    ensures lo <= value <= hi ==> r == value
    ensures value < lo ==> r == lo
    ensures lo <= hi && value > hi ==> r == hi
  {
    if value < lo then lo else if value > hi then hi else value
  }

  /** Unity's `Mathf.Max` on integers. */
  function MaxInt(a: int, b: int): (r: int)
    ensures r >= a && r >= b && (r == a || r == b)
  {
    if a > b then a else b
  }

  /** The `currentWhiskerAngle` setter. */
  function SetAngle(c: Config, w: Whiskers, value: real): (r: Whiskers)
    ensures r.heat == w.heat
    ensures WellConfigured(c) ==> c.minWhiskerAngle <= r.angle <= c.maxWhiskerAngle
    ensures c.minWhiskerAngle <= value <= c.maxWhiskerAngle ==> r.angle == value
  {
    w.(angle := Clamp(value, c.minWhiskerAngle, c.maxWhiskerAngle))
  }

  /** The `currentWhiskerHeat` setter. */
  function SetHeat(w: Whiskers, value: int): (r: Whiskers)
    ensures r.angle == w.angle
    ensures r.heat >= 0
    ensures value >= 0 ==> r.heat == value
    ensures value < 0 ==> r.heat == 0
  {
    w.(heat := MaxInt(0, value))
  }

  /** `Start`: the whiskers begin fully closed and cold. */
  function Start(c: Config): (w: Whiskers)
    ensures w.angle == c.minWhiskerAngle && w.heat == 0
    ensures WellConfigured(c) ==> Valid(c, w)
  {
    Whiskers(c.minWhiskerAngle, 0)
  }

  /** A clear tick: the heat drops by one (not below 0), and once it is 0
      the whiskers close by the collapse speed. */
  function Cool(c: Config, w: Whiskers): (r: Whiskers)
    ensures r.heat == MaxInt(0, w.heat - 1)
    ensures r.heat != 0 ==> r.angle == w.angle
    ensures r.heat == 0 ==> r.angle == Clamp(w.angle - c.whiskerCollapseSpeed, c.minWhiskerAngle, c.maxWhiskerAngle)
    ensures WellConfigured(c) && Valid(c, w) ==> Valid(c, r)
  {
    var cooled := SetHeat(w, w.heat - 1);
    if cooled.heat == 0 then SetAngle(c, cooled, cooled.angle - c.whiskerCollapseSpeed) else cooled
  }

  /** A tick with a hit: the heat is refilled to the cooldown and the
      whiskers open by the spread speed. */
  function Heat(c: Config, w: Whiskers): (r: Whiskers)
    ensures r.heat == MaxInt(0, c.whiskerCooldown)
    ensures r.angle == Clamp(w.angle + c.whiskerSpreadSpeed, c.minWhiskerAngle, c.maxWhiskerAngle)
    ensures WellConfigured(c) ==> Valid(c, r)
  {
    SetAngle(c, SetHeat(w, c.whiskerCooldown), w.angle + c.whiskerSpreadSpeed)
  }

  /** Where the vehicle expects to be after `minTimeToCollision`, relative
      to where it is: moving by it from the vehicle's position reaches the
      predicted position. */
  function Movement(c: Config, v: Vehicle): (m: Vec3)
    ensures Add(v.position, m) == v.predictFuturePosition(c.minTimeToCollision)
  {
    Sub(v.predictFuturePosition(c.minTimeToCollision), v.position)
  }

  function ProbePosition(c: Config, v: Vehicle): Vec3 {
    Add(v.position, c.probePositionOffset)
  }

  /** The three rays, all cast from the vehicle's position: the movement
      itself, and the movement turned by +angle (right) and -angle (left)
      about the up axis and shortened by the whisker length factor. */
  datatype Probes = Probes(center: NavHit, right: NavHit, left: NavHit)

  function Cast(e: Engine, c: Config, w: Whiskers, v: Vehicle, nav: NavMesh): (p: Probes)
    ensures p.center == nav.raycast(v.position, Add(v.position, Movement(c, v)))
    ensures p.right == nav.raycast(v.position,
      Add(v.position, Scale(e.rotateAboutUp(w.angle, Movement(c, v)), c.whiskerLengthFactor)))
    ensures p.left == nav.raycast(v.position,
      Add(v.position, Scale(e.rotateAboutUp(-w.angle, Movement(c, v)), c.whiskerLengthFactor)))
  {
    var movement := Movement(c, v);
    Probes(
      nav.raycast(v.position, Add(v.position, movement)),
      nav.raycast(v.position, Add(v.position, Scale(e.rotateAboutUp(w.angle, movement), c.whiskerLengthFactor))),
      nav.raycast(v.position, Add(v.position, Scale(e.rotateAboutUp(-w.angle, movement), c.whiskerLengthFactor))))
  }

  /** `CalculateAvoidanceForce`: the hit normal's component across the
      direction of movement, normalized and scaled to `maxForce * factor`,
      added to that direction. */
  function Avoidance(e: Engine, c: Config, v: Vehicle, movement: Vec3, hit: NavHit): (a: Vec3)
    ensures var direction := Normalized(e, movement);
      Sub(a, direction) == Scale(Normalized(e, PerpendicularComponent(hit.normal, direction)),
                                 v.maxForce * c.avoidanceForceFactor)
  {
    var direction := Normalized(e, movement);
    var lateral := Scale(Normalized(e, PerpendicularComponent(hit.normal, direction)),
                         v.maxForce * c.avoidanceForceFactor);
    Add(lateral, direction)
  }

  /** The force that pulls an off-mesh vehicle toward the closest edge:
      the direction from the probe to the edge at `maxForce * factor`. */
  function BackToEdge(e: Engine, c: Config, v: Vehicle, edge: Vec3): (f: Vec3)
    ensures f == Scale(Normalized(e, Sub(edge, ProbePosition(c, v))), v.maxForce * c.avoidanceForceFactor)
  {
    ScaleTwice(Normalized(e, Sub(edge, ProbePosition(c, v))), v.maxForce, c.avoidanceForceFactor);
    Scale(Scale(Normalized(e, Sub(edge, ProbePosition(c, v))), v.maxForce), c.avoidanceForceFactor)
  }

  /** The edge pull has the avoidance strength `|maxForce * factor|` and,
      for a non-negative strength, points toward the edge (unless the probe
      already sits on the edge, where it is zero). */
  lemma EdgePullStrength(e: Engine, c: Config, v: Vehicle, edge: Vec3)
    requires Lawful(e)
    requires Magnitude(e, Sub(edge, ProbePosition(c, v))) > NormalizeEpsilon
    ensures Magnitude(e, BackToEdge(e, c, v, edge)) == Abs(v.maxForce * c.avoidanceForceFactor)
    ensures v.maxForce * c.avoidanceForceFactor >= 0.0 ==>
      Dot(BackToEdge(e, c, v, edge), Sub(edge, ProbePosition(c, v))) >= 0.0
  {
    var d := Sub(edge, ProbePosition(c, v));
    var k := v.maxForce * c.avoidanceForceFactor;
    var n := Normalized(e, d);
    assert BackToEdge(e, c, v, edge) == Scale(n, k);
    NormalizedIsUnit(e, d);
    UnitScaleMagnitude(e, n, k);
    NormalizedAlong(e, d);
    DotScaleLeft(n, k, d);
    if k >= 0.0 {
      MulNonNegative(k, Magnitude(e, d));
    }
  }

  /** Which way a tick went. */
  datatype Outcome = OffMesh | Clear | Contact

  /** The vehicle is off the mesh when checking is on and the probe below
      it samples no mesh within the probe radius; with checking off it never
      is. */
  function IsOffMesh(c: Config, v: Vehicle, nav: NavMesh): (off: bool)
    ensures !c.offMeshChecking ==> !off
    ensures c.offMeshChecking ==> (off <==> !nav.samplePosition(ProbePosition(c, v), c.probeRadius).hit)
  {
    c.offMeshChecking && !nav.samplePosition(ProbePosition(c, v), c.probeRadius).hit
  }

  predicate AnyHit(p: Probes) {
    p.center.hit || p.right.hit || p.left.hit
  }

  /** The probe whose hit is answered: right, then left, then centre. */
  function FirstHit(p: Probes): (h: NavHit)
    requires AnyHit(p)
    ensures h.hit
    ensures p.right.hit ==> h == p.right
    ensures !p.right.hit && p.left.hit ==> h == p.left
    ensures !p.right.hit && !p.left.hit ==> h == p.center
  {
    if p.right.hit then p.right else if p.left.hit then p.left else p.center
  }

  datatype Tick = Tick(whiskers: Whiskers, force: Vec3)

  /** One evaluation of the behaviour. Off the mesh it returns the pull
      toward the closest edge (or nothing when no edge is found) and leaves
      the whiskers alone. On the mesh, a tick where no probe hits cools the
      whiskers and returns nothing; otherwise it heats them and avoids the
      highest-priority hit, using the angle the probes were cast with. */
  function CalculateForce(e: Engine, c: Config, w: Whiskers, v: Vehicle, nav: NavMesh): (t: Tick)
    ensures IsOffMesh(c, v, nav) ==>
      var edge := nav.findClosestEdge(ProbePosition(c, v));
      && t.whiskers == w
      && (edge.hit ==> t.force == BackToEdge(e, c, v, edge.position))
      && (!edge.hit ==> t.force == Zero)
    ensures !IsOffMesh(c, v, nav) && !AnyHit(Cast(e, c, w, v, nav)) ==>
      t.whiskers == Cool(c, w) && t.force == Zero
    ensures !IsOffMesh(c, v, nav) && AnyHit(Cast(e, c, w, v, nav)) ==>
      t.whiskers == Heat(c, w) && t.force == Avoidance(e, c, v, Movement(c, v), FirstHit(Cast(e, c, w, v, nav)))
  {
    if IsOffMesh(c, v, nav) then
      var edge := nav.findClosestEdge(ProbePosition(c, v));
      if edge.hit then Tick(w, BackToEdge(e, c, v, edge.position)) else Tick(w, Zero)
    else
      var probes := Cast(e, c, w, v, nav);
      var movement := Movement(c, v);
      if !probes.center.hit && !probes.left.hit && !probes.right.hit then
        Tick(Cool(c, w), Zero)
      else
        var heated := Heat(c, w);
        if probes.right.hit then Tick(heated, Avoidance(e, c, v, movement, probes.right))
        else if probes.left.hit then Tick(heated, Avoidance(e, c, v, movement, probes.left))
        else Tick(heated, Avoidance(e, c, v, movement, probes.center))
  }

  /** Which of the three kinds of tick `CalculateForce` performs. */
  function Classify(e: Engine, c: Config, w: Whiskers, v: Vehicle, nav: NavMesh): Outcome {
    if IsOffMesh(c, v, nav) then OffMesh
    else if AnyHit(Cast(e, c, w, v, nav)) then Contact
    else Clear
  }

  /** The whisker state after one tick of the given kind. */
  function Advance(c: Config, w: Whiskers, k: Outcome): Whiskers {
    match k
    case OffMesh => w
    case Clear => Cool(c, w)
    case Contact => Heat(c, w)
  }

  /** The whisker state after a sequence of ticks. */
  function Run(c: Config, w: Whiskers, ks: seq<Outcome>): Whiskers
    decreases |ks|
  {
    if |ks| == 0 then w else Run(c, Advance(c, w, ks[0]), ks[1..])
  }

  /** `CalculateForce` advances the whiskers exactly as its outcome says. */
  lemma CalculateForceAdvances(e: Engine, c: Config, w: Whiskers, v: Vehicle, nav: NavMesh)
    ensures CalculateForce(e, c, w, v, nav).whiskers == Advance(c, w, Classify(e, c, w, v, nav))
  {
  }

  /** Starting from `Start`, whatever the sequence of ticks, the angle stays
      within [min, max] and the heat is never negative. */
  lemma {:induction false} RunStaysValid(c: Config, w: Whiskers, ks: seq<Outcome>)
    requires WellConfigured(c) && Valid(c, w)
    ensures Valid(c, Run(c, w, ks))
    decreases |ks|
  {
    if |ks| > 0 {
      var next := Advance(c, w, ks[0]);
      assert Valid(c, next);
      RunStaysValid(c, next, ks[1..]);
    }
  }

  /** `n` clear ticks in a row. */
  function Clears(n: nat): seq<Outcome> {
    seq(n, _ => Clear)
  }

  /** How many of `n` clear ticks, starting at heat `heat`, find the heat
      at 0 afterwards and so close the whiskers: every tick from the one
      that empties the heat onward (all of them when it starts at 0). */
  function Collapses(heat: int, n: nat): (k: nat)
    ensures heat <= 1 ==> k == n
    ensures heat > 1 && n < heat ==> k == 0
    ensures heat > 1 && n >= heat ==> k == n - heat + 1
    decreases n
  {
    if n == 0 then 0
    else (if MaxInt(0, heat - 1) == 0 then 1 else 0) + Collapses(MaxInt(0, heat - 1), n - 1)
  }

  function MaxReal(a: real, b: real): real {
    if a > b then a else b
  }

  /** `k` closings of `s` degrees each, as a sum. */
  function Closing(k: nat, s: real): real
    decreases k
  {
    if k == 0 then 0.0 else s + Closing(k - 1, s)
  }

  lemma {:induction false} ClosingIsProduct(k: nat, s: real)
    ensures Closing(k, s) == (k as real) * s
    decreases k
  {
    if k > 0 {
      ClosingIsProduct(k - 1, s);
      assert (k as real) * s == ((k - 1) as real) * s + s;
    }
  }

  lemma {:induction false} ClosingMonotone(j: nat, k: nat, s: real)
    requires j <= k && s >= 0.0
    ensures Closing(j, s) <= Closing(k, s)
    decreases k
  {
    if j < k {
      ClosingMonotone(j, k - 1, s);
    }
  }

  /** After `n` clear ticks from a valid state the heat has drained by `n`
      (down to 0), and the angle has closed by the collapse speed once per
      collapsing tick, never below the minimum. */
  lemma {:induction false} ClearsDrainAndCollapse(c: Config, w: Whiskers, n: nat)
    requires WellConfigured(c) && Valid(c, w)
    requires c.whiskerCollapseSpeed >= 0.0
    ensures Run(c, w, Clears(n)).heat == MaxInt(0, w.heat - n)
    ensures Run(c, w, Clears(n)).angle
         == MaxReal(c.minWhiskerAngle, w.angle - Closing(Collapses(w.heat, n), c.whiskerCollapseSpeed))
    decreases n
  {
    if n > 0 {
      var next := Cool(c, w);
      RunClearsStep(c, w, n);
      ClearsDrainAndCollapse(c, next, n - 1);
      ClosingNonNegative(Collapses(next.heat, n - 1), c.whiskerCollapseSpeed);
    }
  }

  lemma {:induction false} ClosingNonNegative(k: nat, s: real)
    requires s >= 0.0
    ensures Closing(k, s) >= 0.0
    decreases k
  {
    if k > 0 {
      ClosingNonNegative(k - 1, s);
    }
  }

  lemma RunClearsStep(c: Config, w: Whiskers, n: nat)
    requires n > 0
    ensures Run(c, w, Clears(n)) == Run(c, Cool(c, w), Clears(n - 1))
  {
    assert Clears(n)[0] == Clear;
    assert Clears(n)[1..] == Clears(n - 1);
  }

  /** The whiskers close all the way: once the heat has drained, enough
      clear ticks to cover the gap to the minimum angle (`Closing` is
      `k * s`, see `ClosingIsProduct`) bring the heat to 0 and the angle
      to the minimum. */
  lemma {:induction false} WhiskersEventuallyClose(c: Config, w: Whiskers, n: nat)
    requires WellConfigured(c) && Valid(c, w)
    requires c.whiskerCollapseSpeed > 0.0
    requires n >= w.heat
    requires ((n - w.heat) as real) * c.whiskerCollapseSpeed >= w.angle - c.minWhiskerAngle
    ensures Run(c, w, Clears(n)) == Whiskers(c.minWhiskerAngle, 0)
  {
    EnoughClosing(n - w.heat, c.whiskerCollapseSpeed, w.angle - c.minWhiskerAngle);
    ClearsDrainAndCollapse(c, w, n);
    ClosingMonotone(n - w.heat, Collapses(w.heat, n), c.whiskerCollapseSpeed);
  }

  lemma EnoughClosing(k: nat, s: real, gap: real)
    requires (k as real) * s >= gap
    ensures Closing(k, s) >= gap
  {
    ClosingIsProduct(k, s);
  }

  /** A hit never narrows the whiskers when they spread at a non-negative
      speed, and a clear tick never widens them when they collapse at one. */
  lemma WhiskerAngleMonotone(c: Config, w: Whiskers)
    requires WellConfigured(c) && Valid(c, w)
    ensures c.whiskerSpreadSpeed >= 0.0 ==> Heat(c, w).angle >= w.angle
    ensures c.whiskerCollapseSpeed >= 0.0 ==> Cool(c, w).angle <= w.angle
  {
  }

  /** The avoidance force is the direction of movement plus a push across
      it: for a unit direction, the push has no component along it. */
  lemma AvoidanceIsLateral(e: Engine, c: Config, v: Vehicle, movement: Vec3, hit: NavHit)
    requires Lawful(e)
    requires Magnitude(e, movement) > NormalizeEpsilon
    ensures var direction := Normalized(e, movement);
      Dot(Sub(Avoidance(e, c, v, movement, hit), direction), direction) == 0.0
  {
    var direction := Normalized(e, movement);
    NormalizedIsUnit(e, movement);
    assert Dot(direction, direction) == SqrMagnitude(direction);
    var perp := PerpendicularComponent(hit.normal, direction);
    PerpendicularComponentIsOrthogonal(hit.normal, direction);
    assert Dot(perp, direction) == 0.0;
    var n := Normalized(e, perp);
    assert Dot(n, direction) == 0.0 by {
      if Magnitude(e, perp) > NormalizeEpsilon {
        DivKeepsOrthogonal(perp, Magnitude(e, perp), direction);
      }
    }
    DotScaleLeft(n, v.maxForce * c.avoidanceForceFactor, direction);
  }

  lemma DivKeepsOrthogonal(a: Vec3, d: real, b: Vec3)
    requires d != 0.0 && Dot(a, b) == 0.0
    ensures Dot(Div(a, d), b) == 0.0
  {
    assert Dot(Div(a, d), b) * d == Dot(a, b);
  }
}
