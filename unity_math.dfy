/** The engine's scalar and vector helpers that the game scripts call
    (Mathf.Clamp, Clamp01, Lerp, MoveTowards, RoundToInt, FloorToInt, Sign,
    and C#'s integer division), written out on unbounded `int` and exact `real`. */
module UnityMath {

  datatype Option<T> = None | Some(value: T)

  /** A point or direction in world space. */
  datatype Vec3 = Vec3(x: real, y: real, z: real)

  function Add(a: Vec3, b: Vec3): Vec3 { Vec3(a.x + b.x, a.y + b.y, a.z + b.z) }

  function Scale(a: Vec3, k: real): Vec3 { Vec3(a.x * k, a.y * k, a.z * k) }

  function Sq(x: real): (s: real)
    ensures s >= 0.0
  {
    if x >= 0.0 then MulNonNegative(x, x); x * x else MulNonNegative(-x, -x); x * x
  }

  /** Squared length of the difference, `Vector3.SqrMagnitude(a - b)`. */
  function Dist2(a: Vec3, b: Vec3): (d: real)
    ensures d >= 0.0
  {
    Sq(a.x - b.x) + Sq(a.y - b.y) + Sq(a.z - b.z)
  }

  /** Squared distance after both points are dropped to the ground plane (y = 0). */
  function FlatDist2(a: Vec3, b: Vec3): (d: real)
    ensures d >= 0.0
    ensures d == Dist2(Vec3(a.x, 0.0, a.z), Vec3(b.x, 0.0, b.z))
  {
    Sq(a.x - b.x) + Sq(a.z - b.z)
  }

  /** `sqrt(d2) <= r`, stated without a square root: a distance is never negative. */
  predicate DistLe(d2: real, r: real)
  {
    0.0 <= r && d2 <= r * r
  }

  /** `sqrt(d2) < r`. */
  predicate DistLt(d2: real, r: real)
  {
    0.0 <= r && d2 < r * r
  }

  /** Comparing two distances through their squares agrees with comparing the distances. */
  lemma DistLeMonotone(d2: real, r: real, s: real)
    requires d2 >= 0.0 && DistLe(d2, r) && r <= s
    ensures DistLe(d2, s)
  {
    assert r * r <= s * s by {
      MulNonNegative(r, s - r);
      MulNonNegative(s, s - r);
    }
  }

  /** Where a quotient by a positive divisor lies relative to 0 and 1. */
  lemma DivBounds(a: real, d: real)
    requires d > 0.0
    ensures a <= 0.0 ==> a / d <= 0.0
    ensures a >= d ==> a / d >= 1.0
    ensures a >= 0.0 ==> a / d >= 0.0
    ensures a <= d ==> a / d <= 1.0
  {
    var r := a / d;
    assert r * d == a;
  }

  function MaxReal(a: real, b: real): real { if a >= b then a else b }
  function MinReal(a: real, b: real): real { if a <= b then a else b }
  function MaxInt(a: int, b: int): int { if a >= b then a else b }
  function MinInt(a: int, b: int): int { if a <= b then a else b }
  function AbsReal(a: real): real { if a < 0.0 then -a else a }
  function AbsInt(a: int): int { if a < 0 then -a else a }

  /** Mathf.Clamp on floats: the lower bound is checked first, so with `lo > hi`
      the result is one of the two bounds. */
  function Clamp(v: real, lo: real, hi: real): (r: real)
    ensures lo <= hi ==> lo <= r <= hi
    ensures lo <= v <= hi ==> r == v
    ensures lo <= hi && v < lo ==> r == lo
    ensures lo <= hi && v > hi ==> r == hi
  {
    if v < lo then lo else if v > hi then hi else v
  }

  /** Mathf.Clamp on ints, with the same order of tests. */
  function ClampInt(v: int, lo: int, hi: int): (r: int)
    ensures lo <= hi ==> lo <= r <= hi
    ensures lo <= v <= hi ==> r == v
    ensures v < lo ==> r == lo
    ensures lo <= hi && v > hi ==> r == hi
  {
    if v < lo then lo else if v > hi then hi else v
  }

  function Clamp01(v: real): (r: real)
    ensures 0.0 <= r <= 1.0
    ensures 0.0 <= v <= 1.0 ==> r == v
    ensures v < 0.0 ==> r == 0.0
    ensures v > 1.0 ==> r == 1.0
  {
    if v < 0.0 then 0.0 else if v > 1.0 then 1.0 else v
  }

  /** Mathf.Lerp clamps its parameter to [0, 1]. */
  function Lerp(a: real, b: real, t: real): (r: real)
    ensures a <= b ==> a <= r <= b
    ensures b <= a ==> b <= r <= a
    ensures t <= 0.0 ==> r == a
    ensures t >= 1.0 ==> r == b
  {
    a + PartOf(b - a, t)
  }

  /** The part `t`, clamped to [0, 1], of the distance `x`. */
  function PartOf(x: real, t: real): (p: real)
    ensures 0.0 <= x ==> 0.0 <= p <= x
    ensures x <= 0.0 ==> x <= p <= 0.0
    ensures t <= 0.0 ==> p == 0.0
    ensures t >= 1.0 ==> p == x
  {
    LerpBetween(x, Clamp01(t));
    x * Clamp01(t)
  }

  /** A blend factor in [0, 1] takes a part of the distance between the two ends. */
  lemma LerpBetween(x: real, c: real)
    requires 0.0 <= c <= 1.0
    ensures 0.0 <= x ==> 0.0 <= x * c <= x
    ensures x <= 0.0 ==> x <= x * c <= 0.0
  {
    if 0.0 <= x {
      MulNonNegative(x, c);
      MulNonNegative(x, 1.0 - c);
    } else {
      MulNonNegative(-x, c);
      MulNonNegative(-x, 1.0 - c);
    }
  }

  /** A later blend parameter moves the result further toward the second end. */
  lemma LerpMonotone(a: real, b: real, t1: real, t2: real)
    requires t1 <= t2
    ensures a <= b ==> Lerp(a, b, t1) <= Lerp(a, b, t2)
    ensures b <= a ==> Lerp(a, b, t2) <= Lerp(a, b, t1)
  {
    var c1, c2 := Clamp01(t1), Clamp01(t2);
    assert (b - a) * c2 - (b - a) * c1 == (b - a) * (c2 - c1);
    if a <= b {
      MulNonNegative(b - a, c2 - c1);
    } else {
      MulNonNegative(a - b, c2 - c1);
    }
  }

  lemma MulNonNegative(x: real, y: real)
    requires 0.0 <= x && 0.0 <= y
    ensures 0.0 <= x * y
  {
  }

  /** Mathf.Sign: 1 for zero and positive values, -1 otherwise. */
  function Sign(v: real): (r: real)
    ensures r == 1.0 || r == -1.0
    ensures (r == 1.0) <==> v >= 0.0
  {
    if v >= 0.0 then 1.0 else -1.0
  }

  /** Mathf.MoveTowards: reach the target when it is within `maxDelta`, else step by `maxDelta`. */
  function MoveTowards(current: real, target: real, maxDelta: real): (r: real)
    ensures maxDelta >= 0.0 ==> AbsReal(r - current) <= maxDelta
    ensures maxDelta >= 0.0 && current <= target ==> current <= r <= target
    ensures maxDelta >= 0.0 && target <= current ==> target <= r <= current
    ensures AbsReal(target - current) <= maxDelta ==> r == target
  {
    if AbsReal(target - current) <= maxDelta then target
    else current + Sign(target - current) * maxDelta
  }

  /** Mathf.FloorToInt. */
  function FloorToInt(v: real): (r: int)
    ensures r as real <= v < r as real + 1.0
  {
    v.Floor
  }

  /** Mathf.RoundToInt rounds to the nearest integer and sends exact halves to the even neighbour. */
  function RoundToInt(v: real): (r: int)
    ensures -0.5 <= v - r as real <= 0.5
    ensures v - r as real == 0.5 || r as real - v == 0.5 ==> r % 2 == 0
  {
    var f := v.Floor;
    var frac := v - f as real;
    if frac < 0.5 then f
    else if frac > 0.5 then f + 1
    else if f % 2 == 0 then f else f + 1
  }

  /** The nearest-integer rule pins the result down: no other integer satisfies RoundToInt's contract. */
  lemma RoundToIntUnique(v: real, k: int)
    requires -0.5 <= v - k as real <= 0.5
    requires v - k as real == 0.5 || k as real - v == 0.5 ==> k % 2 == 0
    ensures k == RoundToInt(v)
  {
  }

  /** C#'s `s / 2` on ints truncates toward zero (Dafny's `/` is Euclidean): the remainder
      takes the sign of `s`. */
  function CsHalf(s: int): (q: int)
    ensures s - 2 * q == (if s % 2 == 0 then 0 else if s > 0 then 1 else -1)
  {
    if s >= 0 then s / 2 else -((-s) / 2)
  }
}
