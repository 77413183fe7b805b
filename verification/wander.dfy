/** SteerForWander: a random walk of a jitter angle, applied as a small
    rotated offset on top of a push along the vehicle's heading. The random
    draw of each tick is an input here. */
module SteerForWander {
  import opened Vector3
  import opened Scene

  const DefaultRadius: real := 0.4
  const DefaultAngleMax: real := 5.0
  const DefaultDistance: real := 0.6

  datatype Wander = Wander(jitter: Vec3, angle: real, radius: real, angleMax: real, distance: real)

  function Default(): (w: Wander)
    ensures w.angle == 0.0 && w.jitter == Zero
    ensures w.radius == DefaultRadius && w.angleMax == DefaultAngleMax && w.distance == DefaultDistance
  {
    Wander(Zero, 0.0, DefaultRadius, DefaultAngleMax, DefaultDistance)
  }

  /** The three settings are stored as given, with no validation. */
  function SetRadius(w: Wander, value: real): (r: Wander)
    ensures r.radius == value
    ensures r.angle == w.angle && r.angleMax == w.angleMax && r.distance == w.distance && r.jitter == w.jitter
  {
    w.(radius := value)
  }

  function SetAngleMax(w: Wander, value: real): (r: Wander)
    ensures r.angleMax == value
    ensures r.angle == w.angle && r.radius == w.radius && r.distance == w.distance && r.jitter == w.jitter
  {
    w.(angleMax := value)
  }

  function SetDistance(w: Wander, value: real): (r: Wander)
    ensures r.distance == value
    ensures r.angle == w.angle && r.radius == w.radius && r.angleMax == w.angleMax && r.jitter == w.jitter
  {
    w.(distance := value)
  }

  /** Valid draws of `Random.Range(-1f, 1f)`: both ends included. */
  predicate IsDraw(x: real) {
    -1.0 <= x <= 1.0
  }

  /** The heading the force is built on: the (normalized) forward vector
      of a vehicle at rest, otherwise the direction of travel. */
  function BaseDirection(e: Engine, v: Vehicle): (b: Vec3)
    ensures v.speed == 0.0 ==> b == Normalized(e, v.forward)
    ensures v.speed != 0.0 ==> b == v.normalizedVelocity
  {
    if v.speed == 0.0 then Normalized(e, v.forward) else v.normalizedVelocity
  }

  datatype Tick = Tick(state: Wander, force: Vec3)

  /** One tick: the angle moves by `angleMax * random`, the jitter is the
      base direction turned by the new angle about the up axis and scaled to
      `radius`, and the force is the base direction at `distance` plus the
      jitter. Only the angle and the jitter are remembered. */
  function CalculateForce(e: Engine, w: Wander, v: Vehicle, random: real): (t: Tick)
    ensures IsDraw(random) ==> Abs(t.state.angle - w.angle) <= Abs(w.angleMax)
    ensures t.state.angle - w.angle == w.angleMax * random
    ensures t.state.jitter == Scale(e.rotateAboutUp(t.state.angle, BaseDirection(e, v)), w.radius)
    ensures Sub(t.force, t.state.jitter) == Scale(BaseDirection(e, v), w.distance)
    ensures t.state == w.(angle := t.state.angle, jitter := t.state.jitter)
  {
    var angle := w.angle + w.angleMax * random;
    assert IsDraw(random) ==> Abs(w.angleMax * random) <= Abs(w.angleMax) by {
      if IsDraw(random) { ScaledBound(w.angleMax, random, 1.0); }
    }
    var base := BaseDirection(e, v);
    var jitter := Scale(e.rotateAboutUp(angle, base), w.radius);
    Tick(w.(angle := angle, jitter := jitter), Add(Scale(base, w.distance), jitter))
  }

  lemma WalkStep(a0: real, a1: real, a2: real, m: real, d: real, rest: real)
    requires a1 == a0 + m * d && a2 == a1 + m * rest
    ensures a2 == a0 + m * (d + rest)
  {
  }

  function Sum(xs: seq<real>): real {
    if |xs| == 0 then 0.0 else xs[0] + Sum(xs[1..])
  }

  /** The jitter angle after one tick per draw, starting from `angle`:
      each tick adds `angleMax` times its draw, as `CalculateForce` does. */
  function AngleAfter(angle: real, angleMax: real, draws: seq<real>): real
    decreases |draws|
  {
    if |draws| == 0 then angle
    else AngleAfter(angle + angleMax * draws[0], angleMax, draws[1..])
  }

  /** The angle performs a random walk: after any number of ticks it has
      moved by `angleMax` times the sum of the draws. */
  lemma {:induction false} RunAngle(angle: real, angleMax: real, draws: seq<real>)
    ensures AngleAfter(angle, angleMax, draws) == angle + angleMax * Sum(draws)
    decreases |draws|
  {
    if |draws| > 0 {
      var next := angle + angleMax * draws[0];
      RunAngle(next, angleMax, draws[1..]);
      var total := Sum(draws);
      assert total == draws[0] + Sum(draws[1..]);
      WalkStep(angle, next, AngleAfter(angle, angleMax, draws), angleMax, draws[0], Sum(draws[1..]));
      assert AngleAfter(angle, angleMax, draws) == angle + angleMax * total;
    }
  }

  /** Draws sum to at most their count in absolute value. */
  lemma {:induction false} SumOfDrawsBound(draws: seq<real>)
    requires forall i :: 0 <= i < |draws| ==> IsDraw(draws[i])
    ensures Abs(Sum(draws)) <= |draws| as real
    decreases |draws|
  {
    if |draws| > 0 {
      var rest := draws[1..];
      assert forall i :: 0 <= i < |rest| ==> IsDraw(rest[i]) by {
        forall i | 0 <= i < |rest| ensures IsDraw(rest[i]) {
          assert rest[i] == draws[i + 1];
        }
      }
      SumOfDrawsBound(rest);
      assert IsDraw(draws[0]);
    }
  }

  /** |m * x| <= n |m| when |x| <= n. */
  lemma ScaledBound(m: real, x: real, n: real)
    requires Abs(x) <= n
    ensures Abs(m * x) <= n * Abs(m)
  {
    var a := Abs(m);
    var b := Abs(x);
    assert Abs(m * x) == a * b by {
      if m >= 0.0 && x < 0.0 {
        assert m * x == -(m * -x);
      } else if m < 0.0 && x >= 0.0 {
        assert m * x == -(-m * x);
      } else if m < 0.0 {
        assert m * x == (-m) * (-x);
      }
    }
    MulNonNegative(a, n - b);
    assert n * a - a * b == a * (n - b);
  }

  /** ... and so drifts by at most `angleMax` degrees per tick. */
  lemma RunAngleBound(angle: real, angleMax: real, draws: seq<real>)
    requires forall i :: 0 <= i < |draws| ==> IsDraw(draws[i])
    ensures Abs(AngleAfter(angle, angleMax, draws) - angle) <= (|draws| as real) * Abs(angleMax)
  {
    assert AngleAfter(angle, angleMax, draws) - angle == angleMax * Sum(draws) by {
      RunAngle(angle, angleMax, draws);
    }
    SumOfDrawsBound(draws);
    ScaledBound(angleMax, Sum(draws), |draws| as real);
  }

  /** A sequence of ticks walks the angle exactly as `AngleAfter` says:
      ticking once and then walking the remaining draws agrees with walking
      them all. */
  lemma TickAdvancesWalk(e: Engine, w: Wander, v: Vehicle, draws: seq<real>)
    requires |draws| > 0
    ensures var w1 := CalculateForce(e, w, v, draws[0]).state;
      AngleAfter(w1.angle, w1.angleMax, draws[1..]) == AngleAfter(w.angle, w.angleMax, draws)
  {
  }
}
