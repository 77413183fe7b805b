/** SteerForTether: keeps a vehicle within range of a fixed point. Inside
    the inner radius nothing happens; beyond it the vehicle is pulled back
    toward the centre in proportion to how far across the band between the
    two radii it has gone. */
module SteerForTether {
  import opened Vector3

  const DefaultOuterRadius: real := 30.0
  const DefaultInnerRadius: real := 20.0

  datatype Tether = Tether(outerRadius: real, innerRadius: real, position: Vec3)

  ghost predicate Valid(t: Tether) {
    t.outerRadius >= 0.0 && t.innerRadius >= 0.0
  }

  /** The serialised defaults: an outer radius of 30 and an inner radius of
      20 around the given centre. */
  function Default(position: Vec3): (t: Tether)
    ensures t.outerRadius == DefaultOuterRadius && t.innerRadius == DefaultInnerRadius
    ensures t.position == position
    ensures Valid(t)
  {
    Tether(DefaultOuterRadius, DefaultInnerRadius, position)
  }

  /** `Mathf.Clamp(value, 0, float.MaxValue)` on the reals: negative values
      become 0 and nothing else changes. */
  function NonNegative(value: real): (r: real)
    ensures r >= 0.0
    ensures value >= 0.0 ==> r == value
    ensures value < 0.0 ==> r == 0.0
  {
    if value < 0.0 then 0.0 else value
  }

  function SetOuterRadius(t: Tether, value: real): (r: Tether)
    ensures r.outerRadius == NonNegative(value)
    ensures r.innerRadius == t.innerRadius && r.position == t.position
    ensures Valid(t) ==> Valid(r)
  {
    t.(outerRadius := NonNegative(value))
  }

  function SetInnerRadius(t: Tether, value: real): (r: Tether)
    ensures r.innerRadius == NonNegative(value)
    ensures r.outerRadius == t.outerRadius && r.position == t.position
    ensures Valid(t) ==> Valid(r)
  {
    t.(innerRadius := NonNegative(value))
  }

  /** How strongly the tether pulls at `distance` beyond the inner radius:
      1 when the two radii coincide, otherwise the fraction of the band
      covered, which is not clamped and so exceeds 1 past the outer radius. */
  function Percent(t: Tether, distance: real): (p: real)
    ensures t.outerRadius == t.innerRadius ==> p == 1.0
    ensures t.outerRadius != t.innerRadius ==>
      p * (t.outerRadius - t.innerRadius) == distance - t.innerRadius
  {
    if t.outerRadius == t.innerRadius then 1.0
    else (distance - t.innerRadius) / (t.outerRadius - t.innerRadius)
  }

  /** The tether force: zero at or inside the inner radius, otherwise the
      offset toward the centre scaled by `Percent`. */
  function CalculateForce(e: Engine, t: Tether, vehiclePosition: Vec3): (force: Vec3)
    ensures Magnitude(e, Sub(t.position, vehiclePosition)) <= t.innerRadius ==> force == Zero
    ensures Magnitude(e, Sub(t.position, vehiclePosition)) > t.innerRadius ==>
      force == Scale(Sub(t.position, vehiclePosition),
                     Percent(t, Magnitude(e, Sub(t.position, vehiclePosition))))
  {
    var difference := Sub(t.position, vehiclePosition);
    var distance := Magnitude(e, difference);
    if distance > t.innerRadius then Scale(difference, Percent(t, distance)) else Zero
  }

  /** Across the band the pull grows from 0 at the inner radius to full
      strength at the outer one. */
  lemma PercentAcrossBand(t: Tether)
    requires t.outerRadius != t.innerRadius
    ensures Percent(t, t.innerRadius) == 0.0
    ensures Percent(t, t.outerRadius) == 1.0
  {
    var band := t.outerRadius - t.innerRadius;
    assert Percent(t, t.outerRadius) == band / band;
    DivSelf(band);
  }

  /** With equal radii any distance past them pulls at full strength. */
  lemma EqualRadiiFullStrength(e: Engine, t: Tether, vehiclePosition: Vec3)
    requires t.outerRadius == t.innerRadius
    requires Magnitude(e, Sub(t.position, vehiclePosition)) > t.innerRadius
    ensures CalculateForce(e, t, vehiclePosition) == Sub(t.position, vehiclePosition)
  {
  }

  /** The percentage is not clamped: past the outer radius of an ordered
      band the pull exceeds the offset itself. */
  lemma PercentUnclamped(t: Tether, distance: real)
    requires t.innerRadius < t.outerRadius < distance
    ensures Percent(t, distance) > 1.0
  {
    var p := Percent(t, distance);
    var band := t.outerRadius - t.innerRadius;
    assert p * band == distance - t.innerRadius;
    if p <= 1.0 {
      assert false;
    }
  }

  /** Within an ordered band the pull points toward the centre: it is the
      offset scaled by a positive factor. */
  lemma PullsTowardCentre(e: Engine, t: Tether, vehiclePosition: Vec3)
    requires t.innerRadius < t.outerRadius
    requires Magnitude(e, Sub(t.position, vehiclePosition)) > t.innerRadius
    ensures exists k: real :: k > 0.0 && CalculateForce(e, t, vehiclePosition) == Scale(Sub(t.position, vehiclePosition), k)
  {
    var distance := Magnitude(e, Sub(t.position, vehiclePosition));
    var p := Percent(t, distance);
    var band := t.outerRadius - t.innerRadius;
    assert p * band == distance - t.innerRadius;
    if p <= 0.0 {
      MulNonNegative(-p, band);
      assert false;
    }
    assert CalculateForce(e, t, vehiclePosition) == Scale(Sub(t.position, vehiclePosition), p);
  }

  /** With the radii the wrong way round (outer below inner), a vehicle
      past the inner radius is pushed away from the centre instead. */
  lemma InvertedBandPushesAway(e: Engine, t: Tether, vehiclePosition: Vec3)
    requires t.outerRadius < t.innerRadius
    requires Magnitude(e, Sub(t.position, vehiclePosition)) > t.innerRadius
    ensures exists k: real :: k < 0.0 && CalculateForce(e, t, vehiclePosition) == Scale(Sub(t.position, vehiclePosition), k)
  {
    var distance := Magnitude(e, Sub(t.position, vehiclePosition));
    var p := Percent(t, distance);
    var band := t.innerRadius - t.outerRadius;
    assert (-p) * band == distance - t.innerRadius;
    if p >= 0.0 {
      MulNonNegative(p, band);
      assert false;
    }
    assert CalculateForce(e, t, vehiclePosition) == Scale(Sub(t.position, vehiclePosition), p);
  }

  lemma DivSelf(x: real)
    requires x != 0.0
    ensures x / x == 1.0
  {
  }
}
