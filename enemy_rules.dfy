/**
 * The per-enemy rules of the ball game: safe spawn coordinates, a freshly drawn
 * direction, straight-line movement and reflection off the window's edges.
 * The world-level systems that apply them to every enemy are in `BallGame`.
 */
module EnemyRules {
  import opened Geometry

  const ENEMY_NUMBERS: nat := 3
  const ENEMY_SPEED: real := 200.0
  const ENEMY_SPRITE_SIZE: real := 64.0

  /** An enemy ball: where it is and the unit direction it travels in. */
  datatype Enemy = Enemy(position: Vec3, direction: Vec2)

  /**
   * The random draws one enemy spawn consumes, in the order it consumes them:
   * two for the direction, then two for the position. `recip` is the
   * reciprocal length of `(dirX, dirY)`, which `normalize` multiplies by.
   */
  datatype EnemyDraw = EnemyDraw(dirX: real, dirY: real, recip: real, posX: real, posY: real) {
    /**
     * Every draw is in `[0, 1)` and `recip` is the reciprocal length of the
     * direction draw (both direction draws zero would make `normalize` yield NaN).
     */
    predicate Valid() {
      && UnitDraw(dirX) && UnitDraw(dirY) && UnitDraw(posX) && UnitDraw(posY)
      && IsLengthRecip(Vec2(dirX, dirY), recip)
    }
  }

  /** The region spawn coordinates are pushed into: two sprite sizes from every edge. */
  function SafeBounds(w: Window, size: real): (b: Bounds) {
    Inset(w, size * 2.0)
  }

  /**
   * `get_savety_spawn_coordinates`: a uniformly drawn point of the window,
   * clamped one axis at a time into the safe region, at depth 0.
   */
  function SafeSpawnCoordinates(w: Window, size: real, randX: real, randY: real): (p: Vec3)
    ensures p.z == 0.0
    ensures NonEmpty(SafeBounds(w, size)) ==> Contains(SafeBounds(w, size), p.x, p.y)
    ensures SafeBounds(w, size).xMin <= randX * w.width <= SafeBounds(w, size).xMax ==> p.x == randX * w.width
    ensures SafeBounds(w, size).yMin <= randY * w.height <= SafeBounds(w, size).yMax ==> p.y == randY * w.height
  {
    var b := SafeBounds(w, size);
    Vec3(Clamp(randX * w.width, b.xMin, b.xMax), Clamp(randY * w.height, b.yMin, b.yMax), 0.0)
  }

  /**
   * The enemy `spawn_enemies` and `enemy_spawn_over_time` create from one draw:
   * the normalised direction draw, at the safe spawn coordinates.
   */
  function SpawnedEnemy(w: Window, d: EnemyDraw): (e: Enemy)
    requires d.Valid()
    ensures LengthSq(e.direction) == 1.0
    ensures e.direction.x >= 0.0 && e.direction.y >= 0.0
    ensures e.position == SafeSpawnCoordinates(w, ENEMY_SPRITE_SIZE, d.posX, d.posY)
  {
    NormalizedIsUnit(Vec2(d.dirX, d.dirY), d.recip);
    Enemy(SafeSpawnCoordinates(w, ENEMY_SPRITE_SIZE, d.posX, d.posY), Scaled(Vec2(d.dirX, d.dirY), d.recip))
  }

  /** `enemy_movement` for one enemy: `direction * ENEMY_SPEED * delta` added to x and y. */
  function Moved(e: Enemy, dt: real): (r: Enemy)
    ensures r.direction == e.direction
    ensures r.position.z == e.position.z
  {
    e.(position := Advanced(e.position, e.direction, ENEMY_SPEED * dt))
  }

  /** With a unit direction an enemy travels exactly `ENEMY_SPEED * delta` per frame. */
  lemma MovedDistance(e: Enemy, dt: real)
    requires LengthSq(e.direction) == 1.0
    ensures DistSq(e.position, Moved(e, dt).position) == (ENEMY_SPEED * dt) * (ENEMY_SPEED * dt)
  {
    AdvancedDistance(e.position, e.direction, ENEMY_SPEED * dt);
  }

  /** Where `update_enemy_direction` reflects: half a sprite in from every edge. */
  function ReflectionBounds(w: Window): (b: Bounds) {
    Inset(w, ENEMY_SPRITE_SIZE / 2.0)
  }

  predicate OutsideX(p: Vec3, b: Bounds) {
    p.x < b.xMin || p.x > b.xMax
  }

  predicate OutsideY(p: Vec3, b: Bounds) {
    p.y < b.yMin || p.y > b.yMax
  }

  /** The flag that makes `update_enemy_direction` play a bounce sound. */
  predicate Bounces(e: Enemy, w: Window) {
    OutsideX(e.position, ReflectionBounds(w)) || OutsideY(e.position, ReflectionBounds(w))
  }

  /** `reflect(Vec2::X)`: mirror about the vertical axis. */
  function ReflectX(v: Vec2): (r: Vec2) {
    Vec2(-v.x, v.y)
  }

  /** `reflect(Vec2::Y)`: mirror about the horizontal axis. */
  function ReflectY(v: Vec2): (r: Vec2) {
    Vec2(v.x, -v.y)
  }

  /**
   * `update_enemy_direction` for one enemy: each axis on which the enemy is past
   * the bounds has its direction component mirrored; both axes can flip in one
   * frame. The clamped translation is a local copy that is never written back,
   * so the position is unchanged.
   */
  function Reflected(e: Enemy, w: Window): (r: Enemy)
    ensures r.position == e.position
    ensures r.direction.x == if OutsideX(e.position, ReflectionBounds(w)) then -e.direction.x else e.direction.x
    ensures r.direction.y == if OutsideY(e.position, ReflectionBounds(w)) then -e.direction.y else e.direction.y
    ensures LengthSq(r.direction) == LengthSq(e.direction)
    ensures !Bounces(e, w) ==> r == e
  {
    var b := ReflectionBounds(w);
    var p := e.position;
    var afterX :=
      if p.x < b.xMin then ReflectX(e.direction)
      else if p.x > b.xMax then ReflectX(e.direction)
      else e.direction;
    var afterY :=
      if p.y < b.yMin then ReflectY(afterX)
      else if p.y > b.yMax then ReflectY(afterX)
      else afterX;
    e.(direction := afterY)
  }

  /** Reflection is an involution: applied twice in the same place it restores the enemy. */
  lemma ReflectedTwice(e: Enemy, w: Window)
    ensures Reflected(Reflected(e, w), w) == e
  {
  }

  /** An enemy inside the bounds keeps its direction; one past a wall bounces. */
  lemma BounceChangesDirection(e: Enemy, w: Window)
    requires e.direction.x != 0.0 && e.direction.y != 0.0
    ensures Bounces(e, w) <==> Reflected(e, w).direction != e.direction
  {
  }

  /**
   * A worked case: on an 800 by 600 window an enemy at (10, 300) heading left
   * turns to head right and stays at x = 10.
   */
  lemma LeftWallBounce()
    ensures Reflected(Enemy(Vec3(10.0, 300.0, 0.0), Vec2(-1.0, 0.0)), Window(800.0, 600.0))
         == Enemy(Vec3(10.0, 300.0, 0.0), Vec2(1.0, 0.0))
  {
  }
}
