/** The two OpenSteer helpers the behaviours call. Their implementation is
    not part of this model; the conventions below are the ones assumed:
    - intervalComparison(x, lo, hi): -1 below lo, +1 above hi, 0 otherwise;
    - perpendicularComponent(v, u): v - (v . u) u, for a unit basis u. */
module OpenSteerUtility {
  import opened Vector3

  /** Classifies `x` against the closed interval [lower, upper]. */
  function IntervalComparison(x: real, lower: real, upper: real): (r: int)
    ensures -1 <= r <= 1
    ensures r == -1 <==> x < lower
    ensures r == 1 <==> !(x < lower) && x > upper
    ensures r == 0 <==> lower <= x <= upper
  {
    if x < lower then -1 else if x > upper then 1 else 0
  }

  function PerpendicularComponent(v: Vec3, unitBasis: Vec3): Vec3 {
    Sub(v, ParallelComponent(v, unitBasis))
  }

  function ParallelComponent(v: Vec3, unitBasis: Vec3): Vec3 {
    Scale(unitBasis, Dot(v, unitBasis))
  }

  lemma DotScaleLeft(a: Vec3, k: real, b: Vec3)
    ensures Dot(Scale(a, k), b) == k * Dot(a, b)
  {
    calc {
      Dot(Scale(a, k), b);
      (a.x * k) * b.x + (a.y * k) * b.y + (a.z * k) * b.z;
      k * (a.x * b.x) + k * (a.y * b.y) + k * (a.z * b.z);
      k * Dot(a, b);
    }
  }

  lemma DotSubLeft(a: Vec3, b: Vec3, c: Vec3)
    ensures Dot(Sub(a, b), c) == Dot(a, c) - Dot(b, c)
  {
  }

  /** The two components split `v` exactly, and for a unit basis the
      perpendicular one has no part along the basis. */
  lemma PerpendicularComponentIsOrthogonal(v: Vec3, u: Vec3)
    ensures Add(PerpendicularComponent(v, u), ParallelComponent(v, u)) == v
    ensures Dot(u, u) == 1.0 ==> Dot(PerpendicularComponent(v, u), u) == 0.0
  {
    var k := Dot(v, u);
    DotSubLeft(v, ParallelComponent(v, u), u);
    DotScaleLeft(u, k, u);
  }
}
