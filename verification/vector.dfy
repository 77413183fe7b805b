/** Real-valued stand-ins for Unity's Vector3 and Quaternion, plus the engine
    maths the behaviours call but whose implementation lives outside this
    model (square root, rotation about the up axis, angle/axis extraction,
    linear interpolation). */
module Vector3 {

  datatype Vec3 = Vec3(x: real, y: real, z: real)

  const Zero: Vec3 := Vec3(0.0, 0.0, 0.0)

  function Add(a: Vec3, b: Vec3): Vec3 {
    Vec3(a.x + b.x, a.y + b.y, a.z + b.z)
  }

  function Sub(a: Vec3, b: Vec3): Vec3 {
    Vec3(a.x - b.x, a.y - b.y, a.z - b.z)
  }

  function Scale(a: Vec3, k: real): Vec3 {
    Vec3(a.x * k, a.y * k, a.z * k)
  }

  /** Component-wise division, Unity's `v / d`. */
  function Div(a: Vec3, d: real): Vec3
    requires d != 0.0
  {
    Vec3(a.x / d, a.y / d, a.z / d)
  }

  function Dot(a: Vec3, b: Vec3): real {
    a.x * b.x + a.y * b.y + a.z * b.z
  }

  /** Unity's `sqrMagnitude`. */
  function SqrMagnitude(v: Vec3): (r: real)
    ensures r >= 0.0
  {
    SquareNonNegative(v.x);
    SquareNonNegative(v.y);
    SquareNonNegative(v.z);
    Dot(v, v)
  }

  lemma MulPositive(a: real, b: real)
    requires a > 0.0 && b > 0.0
    ensures a * b > 0.0
  {
  }

  lemma MulNonNegative(a: real, b: real)
    requires a >= 0.0 && b >= 0.0
    ensures a * b >= 0.0
  {
    if a > 0.0 && b > 0.0 {
      MulPositive(a, b);
    }
  }

  function Abs(x: real): (r: real)
    ensures r >= 0.0 && (r == x || r == -x)
  {
    if x < 0.0 then -x else x
  }

  lemma SquareNonNegative(a: real)
    ensures a * a >= 0.0
  {
    if a < 0.0 {
      assert a * a == (-a) * (-a);
      MulPositive(-a, -a);
    } else if a > 0.0 {
      MulPositive(a, a);
    }
  }

  /** A quaternion is only ever stored, compared and handed to the engine. */
  datatype Quat = Quat(x: real, y: real, z: real, w: real)

  const Identity: Quat := Quat(0.0, 0.0, 0.0, 1.0)

  /** Result of `ToAngleAxis`: the angle in degrees, the axis, and whether
      the axis came out finite (the engine reports infinities for a
      degenerate rotation). */
  datatype AngleAxis = AngleAxis(angle: real, axis: Vec3, axisFinite: bool)

  /** The engine maths the behaviours rely on, as opaque functions:
      - sqrt: `Mathf.Sqrt`, also underlying `magnitude`;
      - rotateAboutUp(a, v): `Quaternion.AngleAxis(a, Vector3.up) * v`;
      - deltaAngleAxis(p, c): `(Quaternion.Inverse(p) * c).ToAngleAxis`;
      - lerp: `Vector3.Lerp`. */
  datatype Engine = Engine(
    sqrt: real -> real,
    rotateAboutUp: (real, Vec3) -> Vec3,
    deltaAngleAxis: (Quat, Quat) -> AngleAxis,
    lerp: (Vec3, Vec3, real) -> Vec3)

  /** The one law assumed of the engine: its square root is the
      non-negative root. */
  ghost predicate Lawful(e: Engine) {
    forall x: real :: x >= 0.0 ==> e.sqrt(x) >= 0.0 && e.sqrt(x) * e.sqrt(x) == x
  }

  /** Unity's `magnitude`. */
  function Magnitude(e: Engine, v: Vec3): real {
    e.sqrt(SqrMagnitude(v))
  }

  /** Below this magnitude Unity's `normalized` returns the zero vector. */
  const NormalizeEpsilon: real := 0.00001

  /** Unity's `normalized`. */
  function Normalized(e: Engine, v: Vec3): (r: Vec3)
    ensures Magnitude(e, v) <= NormalizeEpsilon ==> r == Zero
  {
    var m := Magnitude(e, v);
    if m > NormalizeEpsilon then Div(v, m) else Zero
  }

  /** Two non-negative numbers with equal squares are equal. */
  lemma EqualSquares(s: real, t: real)
    requires s >= 0.0 && t >= 0.0
    requires s * s == t * t
    ensures s == t
  {
    if s > t {
      assert (s - t) * (s + t) == s * s - t * t;
      MulPositive(s - t, s + t);
    } else if s < t {
      assert (t - s) * (s + t) == t * t - s * s;
      MulPositive(t - s, s + t);
    }
  }

  lemma MagnitudeProperties(e: Engine, v: Vec3)
    requires Lawful(e)
    ensures Magnitude(e, v) >= 0.0
    ensures Magnitude(e, v) * Magnitude(e, v) == SqrMagnitude(v)
    ensures SqrMagnitude(v) > 0.0 ==> Magnitude(e, v) > 0.0
  {
    var s := SqrMagnitude(v);
    var m := e.sqrt(s);
    assert m >= 0.0 && m * m == s;
  }

  /** The engine's root inverts squaring on non-negative numbers. */
  lemma SqrtOfSquare(e: Engine, t: real)
    requires Lawful(e)
    requires t >= 0.0
    ensures e.sqrt(t * t) == t
  {
    SquareNonNegative(t);
    var s := e.sqrt(t * t);
    assert s >= 0.0 && s * s == t * t;
    EqualSquares(s, t);
  }

  /** A point is at distance zero from itself. */
  lemma DistanceToSelf(e: Engine, p: Vec3)
    requires Lawful(e)
    ensures Magnitude(e, Sub(p, p)) == 0.0
  {
    SqrtOfSquare(e, 0.0);
    calc {
      Magnitude(e, Sub(p, p));
      { assert Sub(p, p) == Zero; }
      Magnitude(e, Zero);
      { assert SqrMagnitude(Zero) == 0.0 * 0.0; }
      e.sqrt(0.0 * 0.0);
    }
  }

  /** Squaring is strictly monotone on non-negative numbers. */
  lemma SquareMonotone(s: real, t: real)
    requires s >= 0.0 && t >= 0.0
    ensures s < t <==> s * s < t * t
  {
    if s < t {
      assert (t - s) * (s + t) == t * t - s * s;
      MulPositive(t - s, s + t);
    } else if s > t {
      assert (s - t) * (s + t) == s * s - t * t;
      MulPositive(s - t, s + t);
    }
  }

  /** The engine's root is strictly monotone on non-negative numbers. */
  lemma SqrtMonotone(e: Engine, a: real, b: real)
    requires Lawful(e)
    requires a >= 0.0 && b >= 0.0
    ensures a < b <==> e.sqrt(a) < e.sqrt(b)
  {
    var sa, sb := e.sqrt(a), e.sqrt(b);
    assert sa >= 0.0 && sa * sa == a;
    assert sb >= 0.0 && sb * sb == b;
    SquareMonotone(sa, sb);
  }

  lemma ScaleTwice(a: Vec3, j: real, k: real)
    ensures Scale(Scale(a, j), k) == Scale(a, j * k)
  {
    assert (a.x * j) * k == a.x * (j * k);
    assert (a.y * j) * k == a.y * (j * k);
    assert (a.z * j) * k == a.z * (j * k);
  }

  lemma SqrMagnitudeScale(a: Vec3, k: real)
    ensures SqrMagnitude(Scale(a, k)) == (k * k) * SqrMagnitude(a)
  {
    assert (a.x * k) * (a.x * k) == (k * k) * (a.x * a.x);
    assert (a.y * k) * (a.y * k) == (k * k) * (a.y * a.y);
    assert (a.z * k) * (a.z * k) == (k * k) * (a.z * a.z);
  }

  /** Scaling a unit vector by `k` gives length `|k|`. */
  lemma UnitScaleMagnitude(e: Engine, u: Vec3, k: real)
    requires Lawful(e)
    requires SqrMagnitude(u) == 1.0
    ensures Magnitude(e, Scale(u, k)) == Abs(k)
  {
    var a := Abs(k);
    SqrMagnitudeScale(u, k);
    assert k * k == a * a;
    assert SqrMagnitude(Scale(u, k)) == a * a;
    SqrtOfSquare(e, a);
    assert Magnitude(e, Scale(u, k)) == e.sqrt(a * a);
  }

  /** A normalized vector's component along the original is its length. */
  lemma NormalizedAlong(e: Engine, v: Vec3)
    requires Lawful(e)
    requires Magnitude(e, v) > NormalizeEpsilon
    ensures Dot(Normalized(e, v), v) == Magnitude(e, v)
  {
    var m := Magnitude(e, v);
    MagnitudeProperties(e, v);
    var n := Div(v, m);
    assert n == Normalized(e, v);
    assert n.x * m == v.x && n.y * m == v.y && n.z * m == v.z;
    calc {
      Dot(n, v) * m;
      (n.x * m) * v.x + (n.y * m) * v.y + (n.z * m) * v.z;
      SqrMagnitude(v);
      m * m;
    }
  }

  /** A vector normalized from a magnitude above the threshold has unit
      squared length. */
  lemma NormalizedIsUnit(e: Engine, v: Vec3)
    requires Lawful(e)
    requires Magnitude(e, v) > NormalizeEpsilon
    ensures SqrMagnitude(Normalized(e, v)) == 1.0
  {
    var m := Magnitude(e, v);
    MagnitudeProperties(e, v);
    var n := Div(v, m);
    assert n == Normalized(e, v);
    assert n.x * m == v.x && n.y * m == v.y && n.z * m == v.z;
    calc {
      SqrMagnitude(n) * (m * m);
      (n.x * m) * (n.x * m) + (n.y * m) * (n.y * m) + (n.z * m) * (n.z * m);
      SqrMagnitude(v);
      m * m;
    }
    assert m * m > 0.0;
  }
}
