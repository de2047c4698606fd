/** Where the ball game's collectible stars appear. */
module StarRules {
  import opened Geometry

  const STAR_NUMBERS: nat := 10
  const STAR_SPRITE_SIZE: real := 30.0

  /** The two `random::<f32>()` draws one star spawn consumes. */
  datatype StarDraw = StarDraw(randX: real, randY: real) {
    predicate Valid() {
      UnitDraw(randX) && UnitDraw(randY)
    }
  }

  /** `r * extent` with `r` in `[0, 1)` lies in `[0, extent)` for a positive extent. */
  lemma ScaledDrawInRange(r: real, extent: real)
    requires UnitDraw(r)
    ensures extent > 0.0 ==> 0.0 <= r * extent < extent
  {
    if extent > 0.0 {
      assert extent - r * extent == (1.0 - r) * extent;
      PositiveProduct(1.0 - r, extent);
    }
  }

  /** Both coordinates of a star draw scaled by positive extents stay below them. */
  lemma DrawInRange(d: StarDraw, xExtent: real, yExtent: real)
    requires d.Valid()
    ensures xExtent > 0.0 ==> 0.0 <= d.randX * xExtent < xExtent
    ensures yExtent > 0.0 ==> 0.0 <= d.randY * yExtent < yExtent
  {
    ScaledDrawInRange(d.randX, xExtent);
    ScaledDrawInRange(d.randY, yExtent);
  }

  /**
   * A star placed by `spawn_stars` at startup: a uniform point of the window
   * at depth 0, so `x` lies in `[0, width)` and `y` in `[0, height)`.
   */
  function StartupStar(w: Window, d: StarDraw): (p: Vec3)
    requires d.Valid()
    ensures p.z == 0.0
    ensures w.width > 0.0 ==> 0.0 <= p.x < w.width
    ensures w.height > 0.0 ==> 0.0 <= p.y < w.height
  {
    DrawInRange(d, w.width, w.height);
    Vec3(d.randX * w.width, d.randY * w.height, 0.0)
  }

  /**
   * A star placed by `spawn_star` when its timer finishes. As written, both
   * coordinates are scaled by the window's width, so `y` lies in `[0, width)`,
   * not `[0, height)`.
   */
  function TimedStar(w: Window, d: StarDraw): (p: Vec3)
    requires d.Valid()
    ensures p.z == 0.0
    ensures w.width > 0.0 ==> 0.0 <= p.x < w.width && 0.0 <= p.y < w.width
  {
    DrawInRange(d, w.width, w.width);
    Vec3(d.randX * w.width, d.randY * w.width, 0.0)
  }

  /**
   * On a window wider than it is tall, a timed star can land above the
   * window's top edge (`y` grows upwards): with the window 800 by 600 and a
   * `y` draw of 0.9 it lands at y = 720.
   */
  lemma TimedStarCanLeaveWideWindow()
    ensures TimedStar(Window(800.0, 600.0), StarDraw(0.5, 0.9)).y == 720.0
    ensures StartupStar(Window(800.0, 600.0), StarDraw(0.5, 0.9)).y == 540.0
  {
  }
}
