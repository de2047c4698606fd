/**
 * The player's rules in the ball game: the direction the arrow keys give, the
 * normalised step, confinement to the window, and which enemies hit the
 * player and which stars it collects.
 */
module PlayerRules {
  import opened Geometry
  import opened EnemyRules
  import opened StarRules

  /** The arrow keys held this frame. */
  datatype Keys = Keys(left: bool, right: bool, up: bool, down: bool)

  /** One for a held key, zero otherwise. */
  function Held(b: bool): (r: real) {
    if b then 1.0 else 0.0
  }

  /**
   * The direction the held keys ask for: right minus left, up minus down, so
   * opposite keys cancel out.
   */
  function KeyDirection(k: Keys): (d: Vec2)
    ensures d.x == 0.0 <==> k.left == k.right
    ensures d.x == 1.0 <==> k.right && !k.left
    ensures d.x == -1.0 <==> k.left && !k.right
    ensures d.y == 0.0 <==> k.up == k.down
    ensures d.y == 1.0 <==> k.up && !k.down
    ensures d.y == -1.0 <==> k.down && !k.up
  {
    Vec2(Held(k.right) - Held(k.left), Held(k.up) - Held(k.down))
  }

  /** A component of a key direction. */
  predicate IsKeyComponent(c: real) {
    c == -1.0 || c == 0.0 || c == 1.0
  }

  /** `s` is one over the square root of two, the reciprocal length of a diagonal. */
  predicate IsInvSqrt2(s: real) {
    s > 0.0 && 2.0 * s * s == 1.0
  }

  /**
   * `direction.normalize()` for a non-zero key direction: unchanged along an
   * axis, scaled by one over the square root of two on a diagonal. The result
   * has length one and keeps the sign of each component.
   */
  function NormalizedKeyDirection(d: Vec2, invSqrt2: real): (n: Vec2)
    requires IsKeyComponent(d.x) && IsKeyComponent(d.y) && d != ZERO2
    requires IsInvSqrt2(invSqrt2)
    ensures LengthSq(n) == 1.0
    ensures (n.x > 0.0 <==> d.x > 0.0) && (n.x < 0.0 <==> d.x < 0.0)
    ensures (n.y > 0.0 <==> d.y > 0.0) && (n.y < 0.0 <==> d.y < 0.0)
  {
    if d.x == 0.0 || d.y == 0.0 then
      AxisIsUnit(d);
      d
    else
      DiagonalIsUnit(d, invSqrt2);
      Scaled(d, invSqrt2)
  }

  /** A key direction along one axis already has length one. */
  lemma AxisIsUnit(d: Vec2)
    requires IsKeyComponent(d.x) && IsKeyComponent(d.y) && d != ZERO2
    requires d.x == 0.0 || d.y == 0.0
    ensures LengthSq(d) == 1.0
  {
    if d.x == 0.0 {
      assert d.y * d.y == 1.0 by {
        if d.y == 1.0 {
        } else {
          assert d.y == -1.0;
        }
      }
    } else {
      assert d.x * d.x == 1.0 by {
        if d.x == 1.0 {
        } else {
          assert d.x == -1.0;
        }
      }
    }
  }

  /** A diagonal key direction scaled by one over the square root of two has length one and keeps its signs. */
  lemma DiagonalIsUnit(d: Vec2, s: real)
    requires (d.x == 1.0 || d.x == -1.0) && (d.y == 1.0 || d.y == -1.0)
    requires IsInvSqrt2(s)
    ensures LengthSq(Scaled(d, s)) == 1.0
    ensures (Scaled(d, s).x > 0.0 <==> d.x > 0.0) && (Scaled(d, s).x < 0.0 <==> d.x < 0.0)
    ensures (Scaled(d, s).y > 0.0 <==> d.y > 0.0) && (Scaled(d, s).y < 0.0 <==> d.y < 0.0)
  {
    assert d.x * s == s || d.x * s == -s by {
      if d.x == 1.0 {
      } else {
        assert d.x * s == -s;
      }
    }
    assert d.y * s == s || d.y * s == -s by {
      if d.y == 1.0 {
      } else {
        assert d.y * s == -s;
      }
    }
    assert (d.x * s) * (d.x * s) == s * s;
    assert (d.y * s) * (d.y * s) == s * s;
  }

  /**
   * `player_movement` applied to a player at `p`: no step for a zero key
   * direction, otherwise the normalised direction times `step` (the player's
   * speed times the frame's delta) added to `x` and `y`; `z` is never touched.
   */
  function PlayerMoved(p: Vec3, keys: Keys, step: real, invSqrt2: real): (q: Vec3)
    requires IsInvSqrt2(invSqrt2)
    ensures q.z == p.z
    ensures KeyDirection(keys) == ZERO2 ==> q == p
  {
    var d := KeyDirection(keys);
    if d == ZERO2 then p
    else
      var n := NormalizedKeyDirection(d, invSqrt2);
      Advanced(p, n, step)
  }

  /** The rectangle the player's centre is confined to: half a sprite in from every edge. */
  function PlayerBounds(w: Window, playerSize: real): (b: Bounds) {
    Inset(w, playerSize / 2.0)
  }

  /**
   * `confine_player_movement` applied to a player at `p`: `x` and `y` clamped
   * independently into the player bounds, `z` kept.
   */
  function Confined(p: Vec3, w: Window, playerSize: real): (q: Vec3)
    ensures q.z == p.z
    ensures NonEmpty(PlayerBounds(w, playerSize)) ==> Contains(PlayerBounds(w, playerSize), q.x, q.y)
    ensures Contains(PlayerBounds(w, playerSize), p.x, p.y) ==> q == p
  {
    var b := PlayerBounds(w, playerSize);
    Vec3(Clamp(p.x, b.xMin, b.xMax), Clamp(p.y, b.yMin, b.yMax), p.z)
  }

  /** Confining an already confined player changes nothing. */
  lemma ConfinedIdempotent(p: Vec3, w: Window, playerSize: real)
    requires NonEmpty(PlayerBounds(w, playerSize))
    ensures Confined(Confined(p, w, playerSize), w, playerSize) == Confined(p, w, playerSize)
  {
  }

  /**
   * A worked case: on an 800 by 600 window a 64-pixel player at (400, 300)
   * holding only the left key for one second at speed 500 ends at (32, 300).
   */
  lemma WalkIntoLeftWall(invSqrt2: real)
    requires IsInvSqrt2(invSqrt2)
    ensures Confined(PlayerMoved(Vec3(400.0, 300.0, 0.0), Keys(true, false, false, false), 500.0 * 1.0, invSqrt2),
                     Window(800.0, 600.0), 64.0)
         == Vec3(32.0, 300.0, 0.0)
  {
  }

  /** The centre distance below which an enemy hits the player. */
  function EnemyReach(playerSize: real): (r: real) {
    playerSize / 2.0 + ENEMY_SPRITE_SIZE / 2.0
  }

  /** The centre distance up to which the player collects a star. */
  function StarReach(playerSize: real): (r: real) {
    playerSize / 2.0 + STAR_SPRITE_SIZE / 2.0
  }

  /** An enemy hits the player when their centres are strictly closer than `reach`. */
  predicate EnemyHits(player: Vec3, enemy: Vec3, reach: real) {
    DistSq(player, enemy) < reach * reach
  }

  /** The player collects a star when their centres are at most `reach` apart. */
  predicate StarReached(player: Vec3, star: Vec3, reach: real) {
    DistSq(player, star) <= reach * reach
  }

  /**
   * Given the Euclidean distance `d` between the centres, the squared tests are
   * the source's `distance < reach` for enemies and `distance <= reach` for
   * stars; in particular a centre at exactly `reach` collects a star but does
   * not hit.
   */
  lemma CollisionTestsMatchDistance(player: Vec3, other: Vec3, reach: real, d: real)
    requires reach >= 0.0 && d >= 0.0 && d * d == DistSq(player, other)
    ensures EnemyHits(player, other, reach) <==> d < reach
    ensures StarReached(player, other, reach) <==> d <= reach
  {
    DistanceComparedBySquares(d, reach);
  }

  function Last<T>(s: seq<T>): (x: T)
    requires s != []
  {
    s[|s| - 1]
  }

  function DropLast<T>(s: seq<T>): (r: seq<T>)
    requires s != []
  {
    s[..|s| - 1]
  }

  /** How many of `enemies` hit a player at `p`: one `GameOver` is written for each. */
  function HitCount(enemies: seq<Enemy>, p: Vec3, reach: real): (n: nat)
    ensures n <= |enemies|
    decreases |enemies|
  {
    if enemies == [] then 0
    else HitCount(DropLast(enemies), p, reach) + (if EnemyHits(p, Last(enemies).position, reach) then 1 else 0)
  }

  /** No `GameOver` is written exactly when no enemy hits. */
  lemma {:induction false} HitCountZero(enemies: seq<Enemy>, p: Vec3, reach: real)
    ensures HitCount(enemies, p, reach) == 0
        <==> forall i :: 0 <= i < |enemies| ==> !EnemyHits(p, enemies[i].position, reach)
  {
    if enemies != [] {
      var init := DropLast(enemies);
      HitCountZero(init, p, reach);
      assert forall i :: 0 <= i < |init| ==> init[i] == enemies[i];
    }
  }

  /** When every enemy overlaps the player, one `GameOver` is written per enemy. */
  lemma {:induction false} HitCountAll(enemies: seq<Enemy>, p: Vec3, reach: real)
    ensures HitCount(enemies, p, reach) == |enemies|
        <==> forall i :: 0 <= i < |enemies| ==> EnemyHits(p, enemies[i].position, reach)
  {
    if enemies != [] {
      var init := DropLast(enemies);
      HitCountAll(init, p, reach);
      assert forall i :: 0 <= i < |init| ==> init[i] == enemies[i];
    }
  }

  /** The stars `player_hit_star` leaves in place, in their original order. */
  function Uncollected(stars: seq<Vec3>, p: Vec3, reach: real): (r: seq<Vec3>)
    ensures |r| <= |stars|
    ensures forall x :: x in r ==> x in stars && !StarReached(p, x, reach)
    decreases |stars|
  {
    if stars == [] then []
    else Uncollected(DropLast(stars), p, reach)
         + (if StarReached(p, Last(stars), reach) then [] else [Last(stars)])
  }

  /** How many stars `player_hit_star` collects, each adding one to the score. */
  function CollectedCount(stars: seq<Vec3>, p: Vec3, reach: real): (n: nat)
    ensures n <= |stars|
    decreases |stars|
  {
    if stars == [] then 0
    else CollectedCount(DropLast(stars), p, reach) + (if StarReached(p, Last(stars), reach) then 1 else 0)
  }

  /** Every star is either collected or left in place, never both. */
  lemma {:induction false} CollectedPartition(stars: seq<Vec3>, p: Vec3, reach: real)
    ensures |Uncollected(stars, p, reach)| + CollectedCount(stars, p, reach) == |stars|
  {
    if stars != [] {
      CollectedPartition(DropLast(stars), p, reach);
    }
  }

  /** A star out of reach is never removed. */
  lemma {:induction false} UnreachedStarsKept(stars: seq<Vec3>, p: Vec3, reach: real)
    ensures forall x :: x in stars && !StarReached(p, x, reach) ==> x in Uncollected(stars, p, reach)
  {
    if stars != [] {
      var init := DropLast(stars);
      UnreachedStarsKept(init, p, reach);
      assert stars == init + [Last(stars)];
    }
  }

  /** With no star in reach the stars and the score are untouched. */
  lemma {:induction false} NothingReachedNothingCollected(stars: seq<Vec3>, p: Vec3, reach: real)
    requires forall i :: 0 <= i < |stars| ==> !StarReached(p, stars[i], reach)
    ensures Uncollected(stars, p, reach) == stars
    ensures CollectedCount(stars, p, reach) == 0
  {
    if stars != [] {
      var init := DropLast(stars);
      var last := Last(stars);
      assert forall i :: 0 <= i < |init| ==> init[i] == stars[i];
      NothingReachedNothingCollected(init, p, reach);
      assert !StarReached(p, last, reach) by {
        assert last == stars[|stars| - 1];
      }
      assert stars == init + [last];
    }
  }
}
