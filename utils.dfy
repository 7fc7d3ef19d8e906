/** Small numeric and geometric helpers and the rectangle type of the graphics library. */
module Utils {

  /** `value` forced into [lo, hi]: the larger of `lo` and the smaller of `hi` and `value`. */
  function Clamp(value: int, lo: int, hi: int): (r: int)
    ensures lo <= hi ==> lo <= r <= hi
    ensures lo <= value <= hi ==> r == value
    ensures lo <= hi && value < lo ==> r == lo
    ensures lo <= hi && hi < value ==> r == hi
    ensures hi < lo ==> r == lo
  {
    var m := if hi < value then hi else value;
    if lo < m then m else lo
  }

  /** Clamping twice is clamping once. */
  lemma ClampIdempotent(value: int, lo: int, hi: int)
    requires lo <= hi
    ensures Clamp(Clamp(value, lo, hi), lo, hi) == Clamp(value, lo, hi)
  {
  }

  /** Linear interpolation from `a` (at t = 0) to `b` (at t = 1). */
  function Lerp(a: real, b: real, t: real): real {
    a + (b - a) * t
  }

  /** The end points of the interpolation, and every t in [0, 1] stays between them. */
  lemma LerpEnds(a: real, b: real, t: real)
    ensures Lerp(a, b, 0.0) == a && Lerp(a, b, 1.0) == b
    ensures a <= b && 0.0 <= t <= 1.0 ==> a <= Lerp(a, b, t) <= b
  {
    if a <= b && 0.0 <= t <= 1.0 {
      var k := b - a;
      MulMonotone(k, t, 1.0);
      MulMonotone(k, 0.0, t);
      assert k * 1.0 == k && k * 0.0 == 0.0;
      assert Lerp(a, b, t) == a + k * t;
      assert k * t <= k;
      assert a + k == b;
    }
  }

  lemma MulMonotone(k: real, s: real, t: real)
    requires 0.0 <= k && s <= t
    ensures k * s <= k * t
  {
    assert k * t - k * s == k * (t - s);
    assert 0.0 <= k * (t - s);
  }

  /** The closed rectangle test: edges belong to the rectangle. */
  predicate PointInRect(px: real, py: real, rx: real, ry: real, rw: real, rh: real) {
    rx <= px <= rx + rw && ry <= py <= ry + rh
  }

  /** An axis-aligned rectangle: top-left corner and size. */
  datatype Rect = Rect(left: real, top: real, width: real, height: real)

  /** What the game takes from the maths and graphics libraries, as given functions:
      cosine, sine, the two-argument arctangent (y first) and rectangle overlap. */
  datatype Geometry = Geometry(
    cos: real -> real,
    sin: real -> real,
    atan2: (real, real) -> real,
    collide: (Rect, Rect) -> bool)
}
