/** Unity's small vector and rounding toolkit, as the terrain and placement code uses it.
    Floats are modelled as reals; where a Unity routine has a rule of its own (approximate
    vector equality, round-half-to-even, clamping) that rule is written out. */
module Geometry {

  /** UnityEngine.Vector2: `y` is the world z coordinate when it carries a planar position. */
  datatype Vec2 = Vec2(x: real, y: real)

  /** UnityEngine.Vector3. */
  datatype Vec3 = Vec3(x: real, y: real, z: real)

  const Zero: Vec3 := Vec3(0.0, 0.0, 0.0)

  /** Vector2 addition. */
  function Plus2(a: Vec2, b: Vec2): Vec2 {
    Vec2(a.x + b.x, a.y + b.y)
  }

  /** Vector2 scaled by a float. */
  function Scale2(v: Vec2, k: real): Vec2 {
    Vec2(v.x * k, v.y * k)
  }

  /** Vector3.kEpsilon. */
  const Epsilon: real := 0.00001

  function Sq(v: real): (r: real)
    ensures r >= 0.0
  {
    v * v
  }

  /** Squared Euclidean distance in three dimensions (the square of Vector3.Distance). */
  function SqDist3(a: Vec3, b: Vec3): (r: real)
    ensures r >= 0.0
  {
    Sq(a.x - b.x) + Sq(a.y - b.y) + Sq(a.z - b.z)
  }

  /** Squared Euclidean distance in the plane (the square of Vector2.Distance). */
  function SqDist2(a: Vec2, b: Vec2): (r: real)
    ensures r >= 0.0
  {
    Sq(a.x - b.x) + Sq(a.y - b.y)
  }

  /** `v == Vector3.zero`: Unity's == on Vector3 is approximate, true when the squared
      length of the difference is below kEpsilon squared. */
  predicate IsSentinel(v: Vec3) {
    SqDist3(v, Zero) < Epsilon * Epsilon
  }

  /** `Vector3.Distance(p, q) < m`, decided on squared distances (see DistanceBelowIff). */
  predicate CloserThan(p: Vec3, q: Vec3, m: real) {
    m > 0.0 && SqDist3(p, q) < m * m
  }

  /** Square roots are monotone: comparing two distances is comparing their squares. */
  lemma SqrtMonotone(a: real, b: real, sa: real, sb: real)
    requires sa >= 0.0 && sb >= 0.0 && sa * sa == a && sb * sb == b
    ensures sa < sb <==> a < b
  {
    var m := sa * sb;
    if sa < sb {
      assert sa * sa <= m;
      assert m < sb * sb;
    } else {
      assert sb * sb <= m;
      assert m <= sa * sa;
    }
  }

  /** CloserThan is exactly the source's `Vector3.Distance(p, q) < m`, when d is that distance. */
  lemma DistanceBelowIff(p: Vec3, q: Vec3, m: real, d: real)
    requires d >= 0.0 && d * d == SqDist3(p, q)
    ensures CloserThan(p, q, m) <==> d < m
  {
    if m > 0.0 {
      SqrtMonotone(SqDist3(p, q), m * m, d, m);
    }
  }

  /** `distance` is Vector3.Distance: the non-negative square root of the squared 3-D distance. */
  ghost predicate EuclideanDistance(distance: (Vec3, Vec3) -> real) {
    forall p, q :: distance(p, q) >= 0.0 && distance(p, q) * distance(p, q) == SqDist3(p, q)
  }

  /** Mathf.Clamp(float value, float min, float max). */
  function Clamp(v: real, lo: real, hi: real): (r: real)
    ensures lo <= hi ==> lo <= r <= hi
    ensures lo <= v <= hi ==> r == v
    ensures v < lo ==> r == lo
    ensures lo <= v && hi < v ==> r == hi
  {
    if v < lo then lo else if v > hi then hi else v
  }

  /** Mathf.Clamp(int value, int min, int max): the int overload, kept apart from Clamp because the
      source calls it on ints (PlayerSpawner's vertex indices). */
  function ClampInt(v: int, lo: int, hi: int): (r: int)
    ensures lo <= hi ==> lo <= r <= hi
    ensures lo <= v <= hi ==> r == v
    ensures v < lo ==> r == lo
    ensures lo <= v && hi < v ==> r == hi
  {
    if v < lo then lo else if v > hi then hi else v
  }

  /** Mathf.Clamp01. */
  function Clamp01(v: real): (r: real)
    ensures 0.0 <= r <= 1.0
    ensures v <= 0.0 ==> r == 0.0
    ensures v >= 1.0 ==> r == 1.0
    ensures 0.0 < v < 1.0 ==> r == v
  {
    Clamp(v, 0.0, 1.0)
  }

  /** Mathf.Max(float a, float b) on ordinary numbers. */
  function Max(a: real, b: real): (r: real)
    ensures r >= a && r >= b && (r == a || r == b)
  {
    if a > b then a else b
  }

  /** Mathf.RoundToInt, i.e. Math.Round: the nearest integer, ties go to the even one. */
  function RoundToInt(v: real): (r: int)
    ensures -0.5 <= r as real - v <= 0.5
    ensures (r as real - v == 0.5 || v - r as real == 0.5) ==> r % 2 == 0
  {
    var f := v.Floor;
    var frac := v - f as real;
    if frac < 0.5 then f
    else if frac > 0.5 then f + 1
    else if f % 2 == 0 then f
    else f + 1
  }

  /** Rounding a value that lies between two integers stays between them. */
  lemma RoundToIntWithin(v: real, lo: int, hi: int)
    requires lo as real <= v <= hi as real
    ensures lo <= RoundToInt(v) <= hi
  {
    var f := v.Floor;
    assert lo <= f;
    if f < RoundToInt(v) {
      assert v > f as real;
      assert f < hi;
    }
  }
}
