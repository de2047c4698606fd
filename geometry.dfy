/**
 * Vectors, the window and the axis-aligned bounds used by the ball game's
 * boundary rules. Coordinates are mathematical reals; 32-bit float rounding is
 * not modelled.
 */
module Geometry {

  /** A plane vector (Bevy's `Vec2`). */
  datatype Vec2 = Vec2(x: real, y: real)

  /** A translation in space (the `translation` of a Bevy `Transform`). */
  datatype Vec3 = Vec3(x: real, y: real, z: real)

  /** The primary window's size, as read by a system in the current frame. */
  datatype Window = Window(width: real, height: real)

  /** The rectangle `[xMin, xMax] x [yMin, yMax]` a system keeps positions in. */
  datatype Bounds = Bounds(xMin: real, xMax: real, yMin: real, yMax: real)

  const ZERO2: Vec2 := Vec2(0.0, 0.0)

  /** A draw of `random::<f32>()`: a value in `[0, 1)`. */
  predicate UnitDraw(r: real) {
    0.0 <= r < 1.0
  }

  /** Squared Euclidean length of a plane vector. */
  function LengthSq(v: Vec2): (r: real)
    ensures r >= 0.0
  {
    v.x * v.x + v.y * v.y
  }

  /** Squared Euclidean distance between two translations. */
  function DistSq(a: Vec3, b: Vec3): (r: real)
    ensures r >= 0.0
    ensures a == b ==> r == 0.0
  {
    (a.x - b.x) * (a.x - b.x) + (a.y - b.y) * (a.y - b.y) + (a.z - b.z) * (a.z - b.z)
  }

  /**
   * The window shrunk by `margin` on every side: `x` in `[margin, width - margin]`
   * and `y` in `[margin, height - margin]`.
   */
  function Inset(w: Window, margin: real): (b: Bounds)
    ensures b.xMax - b.xMin == w.width - 2.0 * margin
    ensures b.yMax - b.yMin == w.height - 2.0 * margin
  {
    Bounds(0.0 + margin, w.width - margin, 0.0 + margin, w.height - margin)
  }

  predicate NonEmpty(b: Bounds) {
    b.xMin <= b.xMax && b.yMin <= b.yMax
  }

  predicate Contains(b: Bounds, x: real, y: real) {
    b.xMin <= x <= b.xMax && b.yMin <= y <= b.yMax
  }

  /**
   * The one-axis clamp every boundary rule of the game is written with:
   * below `lo` gives `lo`, else above `hi` gives `hi`, else the value itself.
   */
  function Clamp(v: real, lo: real, hi: real): (r: real)
    ensures lo <= hi ==> lo <= r <= hi
    ensures lo <= v <= hi ==> r == v
    ensures r == v || r == lo || r == hi
    ensures v < lo ==> r == lo
  {
    if v < lo then lo else if v > hi then hi else v
  }

  /** On a non-empty range, clamping twice is clamping once. */
  lemma ClampIdempotent(v: real, lo: real, hi: real)
    requires lo <= hi
    ensures Clamp(Clamp(v, lo, hi), lo, hi) == Clamp(v, lo, hi)
  {
  }

  /**
   * On an empty range (`lo > hi`, a window too small for the sprite) the clamp
   * is not idempotent: a value below `lo` goes to `lo`, which is above `hi`.
   */
  lemma ClampNotIdempotentOnEmptyRange(lo: real, hi: real)
    requires lo > hi
    ensures Clamp(lo - 1.0, lo, hi) == lo
    ensures Clamp(Clamp(lo - 1.0, lo, hi), lo, hi) == hi
  {
  }

  /**
   * Comparing a Euclidean distance `d` (the square root of a squared distance)
   * with a non-negative threshold `m` is the same as comparing the squares.
   * This is why the model compares `DistSq` with `m * m` and needs no square root.
   */
  lemma DistanceComparedBySquares(d: real, m: real)
    requires d >= 0.0 && m >= 0.0
    ensures d < m <==> d * d < m * m
    ensures d <= m <==> d * d <= m * m
  {
    assert m * m - d * d == (m - d) * (m + d);
    if d < m {
      PositiveProduct(m - d, m + d);
    } else if d == m {
    } else {
      PositiveProduct(d - m, m + d);
    }
  }

  /** The product of two positive reals is positive. */
  lemma PositiveProduct(a: real, b: real)
    requires a > 0.0 && b > 0.0
    ensures a * b > 0.0
  {
  }

  /**
   * `k` is the reciprocal of `v`'s length (glam's `length_recip`, a square
   * root this model takes as given rather than computes).
   */
  predicate IsLengthRecip(v: Vec2, k: real) {
    k > 0.0 && k * k * LengthSq(v) == 1.0
  }

  /** `v * k`. */
  function Scaled(v: Vec2, k: real): (r: Vec2) {
    Vec2(v.x * k, v.y * k)
  }

  /**
   * glam's `normalize` multiplies a vector by its reciprocal length; the result
   * has length one and points the same way.
   */
  lemma NormalizedIsUnit(v: Vec2, k: real)
    requires IsLengthRecip(v, k)
    ensures LengthSq(Scaled(v, k)) == 1.0
    ensures Scaled(v, k).x > 0.0 <==> v.x > 0.0
    ensures Scaled(v, k).y > 0.0 <==> v.y > 0.0
    ensures Scaled(v, k).x < 0.0 <==> v.x < 0.0
    ensures Scaled(v, k).y < 0.0 <==> v.y < 0.0
  {
    assert (v.x * k) * (v.x * k) + (v.y * k) * (v.y * k) == k * k * (v.x * v.x + v.y * v.y);
  }

  /** `translation += v * s` on `x` and `y`; `z` is left alone. */
  function Advanced(p: Vec3, v: Vec2, s: real): (q: Vec3)
    ensures q.z == p.z
    ensures s == 0.0 ==> q == p
  {
    Vec3(p.x + v.x * s, p.y + v.y * s, p.z)
  }

  /** Advancing along a unit vector by `s` moves exactly the distance `|s|`. */
  lemma AdvancedDistance(p: Vec3, v: Vec2, s: real)
    requires LengthSq(v) == 1.0
    ensures DistSq(p, Advanced(p, v, s)) == s * s
  {
    var q := Advanced(p, v, s);
    assert p.x - q.x == -(v.x * s) && p.y - q.y == -(v.y * s) && p.z - q.z == 0.0;
    assert (v.x * s) * (v.x * s) + (v.y * s) * (v.y * s) == (v.x * v.x + v.y * v.y) * (s * s);
  }
}
