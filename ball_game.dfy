/**
 * The ball game's entity store and the systems that update it once per frame.
 * Random draws, the window, held keys, the frame delta and the spawn timers'
 * `just_finished` are passed in as parameters.
 */
module BallGame {
  import opened Wrappers
  import opened Geometry
  import opened EnemyRules
  import opened StarRules
  import opened PlayerRules
  import S = GameStates

  /** The message `enemy_hit_player` writes, carrying the score at that moment. */
  datatype GameOver = GameOver(finalScore: nat)

  /** The messages written by `n` hits in one frame, all carrying the same score. */
  function GameOvers(n: nat, finalScore: nat): (r: seq<GameOver>)
    ensures |r| == n
    ensures forall i :: 0 <= i < n ==> r[i] == GameOver(finalScore)
  {
    seq(n, _ => GameOver(finalScore))
  }

  /**
   * Every entity of a running game and the resources the systems share: at most
   * one player, the enemies and stars in spawn order, the score, the
   * `GameOver` messages written so far, and the simulation state with its
   * pending next state.
   */
  class World {
    const playerSize: real
    const playerSpeed: real
    var player: Option<Vec3>
    var enemies: seq<Enemy>
    var stars: seq<Vec3>
    var score: nat
    var gameOvers: seq<GameOver>
    var simulation: S.SimulationState
    var nextSimulation: Option<S.SimulationState>

    /** The player's sprite size and speed are positive and every enemy heads along a unit vector. */
    ghost predicate Valid()
      reads this
    {
      && playerSize > 0.0 && playerSpeed > 0.0
      && forall i :: 0 <= i < |enemies| ==> LengthSq(enemies[i].direction) == 1.0
    }

    /** An empty world: no entities, a zero score and a paused simulation. */
    constructor (playerSize: real, playerSpeed: real)
      requires playerSize > 0.0 && playerSpeed > 0.0
      ensures Valid()
      ensures this.playerSize == playerSize && this.playerSpeed == playerSpeed
      ensures player == None && enemies == [] && stars == [] && score == 0 && gameOvers == []
      ensures simulation == S.INITIAL_SIMULATION && nextSimulation == None
    {
      this.playerSize, this.playerSpeed := playerSize, playerSpeed;
      player, enemies, stars, score, gameOvers := None, [], [], 0, [];
      simulation, nextSimulation := S.INITIAL_SIMULATION, None;
    }

    /** `spawn_player`: one player at the window's centre, at depth 0. */
    method SpawnPlayer(w: Window)
      requires Valid() && player == None
      modifies this`player
      ensures Valid()
      ensures player == Some(Vec3(w.width / 2.0, w.height / 2.0, 0.0))
    {
      player := Some(Vec3(w.width / 2.0, w.height / 2.0, 0.0));
    }

    /**
     * `player_movement`: the held keys are summed into a direction; a non-zero
     * one is normalised and moves the player by `playerSpeed * dt`. Without a
     * player nothing happens.
     */
    method PlayerMovement(keys: Keys, dt: real, invSqrt2: real)
      requires Valid() && IsInvSqrt2(invSqrt2)
      modifies this`player
      ensures Valid()
      ensures old(player).None? ==> player == None
      ensures old(player).Some? ==> player == Some(PlayerMoved(old(player).value, keys, playerSpeed * dt, invSqrt2))
    {
      if player.Some? {
        var direction := ZERO2;
        if keys.left {
          direction := direction.(x := direction.x - 1.0);
        }
        if keys.right {
          direction := direction.(x := direction.x + 1.0);
        }
        if keys.up {
          direction := direction.(y := direction.y + 1.0);
        }
        if keys.down {
          direction := direction.(y := direction.y - 1.0);
        }
        assert direction == KeyDirection(keys);
        if direction != ZERO2 {
          var delta := NormalizedKeyDirection(direction, invSqrt2);
          player := Some(Advanced(player.value, delta, playerSpeed * dt));
        }
      }
    }

    /** `confine_player_movement`: the player's `x` and `y` clamped into the player bounds. */
    method ConfinePlayerMovement(w: Window)
      requires Valid()
      modifies this`player
      ensures Valid()
      ensures old(player).None? ==> player == None
      ensures old(player).Some? ==> player == Some(Confined(old(player).value, w, playerSize))
    {
      if player.Some? {
        var b := PlayerBounds(w, playerSize);
        var translation := player.value;
        if translation.x < b.xMin {
          translation := translation.(x := b.xMin);
        } else if translation.x > b.xMax {
          translation := translation.(x := b.xMax);
        }
        if translation.y < b.yMin {
          translation := translation.(y := b.yMin);
        } else if translation.y > b.yMax {
          translation := translation.(y := b.yMax);
        }
        player := Some(translation);
      }
    }

    /**
     * `enemy_hit_player`: every enemy strictly closer than the sum of the radii
     * despawns the player and writes a `GameOver` with the current score. The
     * loop does not stop at the first hit, so k hits write k messages.
     */
    method EnemyHitPlayer()
      requires Valid()
      modifies this`player, this`gameOvers
      ensures Valid()
      ensures old(player).None? ==> player == None && gameOvers == old(gameOvers)
      ensures old(player).Some? ==>
        var hits := HitCount(enemies, old(player).value, EnemyReach(playerSize));
        && gameOvers == old(gameOvers) + GameOvers(hits, score)
        && player == (if hits == 0 then old(player) else None)
    {
      if player.Some? {
        var p := player.value;
        var reach := EnemyReach(playerSize);
        var i := 0;
        while i < |enemies|
          invariant 0 <= i <= |enemies|
          invariant gameOvers == old(gameOvers) + GameOvers(HitCount(enemies[..i], p, reach), score)
          invariant player == if HitCount(enemies[..i], p, reach) == 0 then old(player) else None
        {
          assert DropLast(enemies[..i + 1]) == enemies[..i];
          if EnemyHits(p, enemies[i].position, reach) {
            player := None;
            gameOvers := gameOvers + [GameOver(score)];
          }
          i := i + 1;
        }
        assert enemies[..i] == enemies;
      }
    }

    /**
     * `player_hit_star`: every star within the sum of the radii (inclusive) is
     * despawned and adds one to the score; the other stars stay, in order.
     */
    method PlayerHitStar()
      requires Valid()
      modifies this`stars, this`score
      ensures Valid()
      ensures player.None? ==> stars == old(stars) && score == old(score)
      ensures player.Some? ==>
        && stars == Uncollected(old(stars), player.value, StarReach(playerSize))
        && score == old(score) + CollectedCount(old(stars), player.value, StarReach(playerSize))
      ensures |stars| + score == |old(stars)| + old(score)
    {
      if player.Some? {
        var p := player.value;
        var reach := StarReach(playerSize);
        var all := stars;
        var kept := [];
        var i := 0;
        while i < |all|
          invariant 0 <= i <= |all|
          invariant kept == Uncollected(all[..i], p, reach)
          invariant score == old(score) + CollectedCount(all[..i], p, reach)
        {
          assert DropLast(all[..i + 1]) == all[..i];
          assert Last(all[..i + 1]) == all[i];
          if StarReached(p, all[i], reach) {
            score := score + 1;
          } else {
            kept := kept + [all[i]];
          }
          i := i + 1;
        }
        assert all[..i] == all;
        CollectedPartition(all, p, reach);
        stars := kept;
      }
    }

    /** `enemy_movement`: every enemy advances along its direction by `ENEMY_SPEED * dt`. */
    method EnemyMovement(dt: real)
      requires Valid()
      modifies this`enemies
      ensures Valid()
      ensures |enemies| == |old(enemies)|
      ensures forall i :: 0 <= i < |enemies| ==> enemies[i] == Moved(old(enemies)[i], dt)
    {
      var i := 0;
      while i < |enemies|
        invariant 0 <= i <= |enemies| == |old(enemies)|
        invariant forall k :: 0 <= k < i ==> enemies[k] == Moved(old(enemies)[k], dt)
        invariant forall k :: i <= k < |enemies| ==> enemies[k] == old(enemies)[k]
      {
        enemies := enemies[i := Moved(enemies[i], dt)];
        i := i + 1;
      }
    }

    /**
     * `update_enemy_direction`: each enemy past a wall has that axis of its
     * direction mirrored; positions stay as they are. `bounced[i]` is the flag
     * that makes the source play a sound for enemy `i`.
     */
    method UpdateEnemyDirection(w: Window) returns (bounced: seq<bool>)
      requires Valid()
      modifies this`enemies
      ensures Valid()
      ensures |enemies| == |old(enemies)| && |bounced| == |enemies|
      ensures forall i :: 0 <= i < |enemies| ==> enemies[i] == Reflected(old(enemies)[i], w)
      ensures forall i :: 0 <= i < |bounced| ==> (bounced[i] <==> Bounces(old(enemies)[i], w))
    {
      var b := ReflectionBounds(w);
      bounced := [];
      var i := 0;
      while i < |enemies|
        invariant 0 <= i <= |enemies| == |old(enemies)|
        invariant |bounced| == i
        invariant forall k :: 0 <= k < i ==> enemies[k] == Reflected(old(enemies)[k], w)
        invariant forall k :: 0 <= k < i ==> (bounced[k] <==> Bounces(old(enemies)[k], w))
        invariant forall k :: i <= k < |enemies| ==> enemies[k] == old(enemies)[k]
      {
        var enemy := enemies[i];
        var isDirectionChanged := false;
        if enemy.position.x < b.xMin {
          enemy := enemy.(direction := ReflectX(enemy.direction));
          isDirectionChanged := true;
        } else if enemy.position.x > b.xMax {
          enemy := enemy.(direction := ReflectX(enemy.direction));
          isDirectionChanged := true;
        }
        if enemy.position.y < b.yMin {
          enemy := enemy.(direction := ReflectY(enemy.direction));
          isDirectionChanged := true;
        } else if enemy.position.y > b.yMax {
          enemy := enemy.(direction := ReflectY(enemy.direction));
          isDirectionChanged := true;
        }
        enemies := enemies[i := enemy];
        bounced := bounced + [isDirectionChanged];
        i := i + 1;
      }
    }

    /** `spawn_enemies`: exactly `ENEMY_NUMBERS` enemies appended, one per draw. */
    method SpawnEnemies(w: Window, draws: seq<EnemyDraw>)
      requires Valid()
      requires |draws| == ENEMY_NUMBERS && forall i :: 0 <= i < |draws| ==> draws[i].Valid()
      modifies this`enemies
      ensures Valid()
      ensures |enemies| == |old(enemies)| + ENEMY_NUMBERS
      ensures enemies[..|old(enemies)|] == old(enemies)
      ensures forall i :: 0 <= i < ENEMY_NUMBERS ==> enemies[|old(enemies)| + i] == SpawnedEnemy(w, draws[i])
    {
      for k := 0 to ENEMY_NUMBERS
        invariant |enemies| == |old(enemies)| + k
        invariant enemies[..|old(enemies)|] == old(enemies)
        invariant forall i :: 0 <= i < k ==> enemies[|old(enemies)| + i] == SpawnedEnemy(w, draws[i])
        invariant Valid()
      {
        enemies := enemies + [SpawnedEnemy(w, draws[k])];
      }
    }

    /** `enemy_spawn_over_time`: one enemy appended when the spawn timer just finished. */
    method EnemySpawnOverTime(w: Window, justFinished: bool, d: EnemyDraw)
      requires Valid() && (justFinished ==> d.Valid())
      modifies this`enemies
      ensures Valid()
      ensures justFinished ==> enemies == old(enemies) + [SpawnedEnemy(w, d)]
      ensures !justFinished ==> enemies == old(enemies)
    {
      if justFinished {
        enemies := enemies + [SpawnedEnemy(w, d)];
      }
    }

    /** `spawn_stars`: exactly `STAR_NUMBERS` stars appended, one per draw. */
    method SpawnStars(w: Window, draws: seq<StarDraw>)
      requires Valid()
      requires |draws| == STAR_NUMBERS && forall i :: 0 <= i < |draws| ==> draws[i].Valid()
      modifies this`stars
      ensures Valid()
      ensures |stars| == |old(stars)| + STAR_NUMBERS
      ensures stars[..|old(stars)|] == old(stars)
      ensures forall i :: 0 <= i < STAR_NUMBERS ==> stars[|old(stars)| + i] == StartupStar(w, draws[i])
    {
      for k := 0 to STAR_NUMBERS
        invariant |stars| == |old(stars)| + k
        invariant stars[..|old(stars)|] == old(stars)
        invariant forall i :: 0 <= i < k ==> stars[|old(stars)| + i] == StartupStar(w, draws[i])
      {
        stars := stars + [StartupStar(w, draws[k])];
      }
    }

    /** `spawn_star`: one star appended when the star timer just finished. */
    method SpawnStar(w: Window, justFinished: bool, d: StarDraw)
      requires Valid() && (justFinished ==> d.Valid())
      modifies this`stars
      ensures Valid()
      ensures justFinished ==> stars == old(stars) + [TimedStar(w, d)]
      ensures !justFinished ==> stars == old(stars)
    {
      if justFinished {
        stars := stars + [TimedStar(w, d)];
      }
    }

    /**
     * `toggle_simulation`, gated on the game screen: a Space press asks for the
     * other simulation state; otherwise no next state is set.
     */
    method ToggleSimulation(app: S.AppState, spaceJustPressed: bool)
      requires Valid()
      modifies this`nextSimulation
      ensures Valid()
      ensures S.ToggleRuns(app) && spaceJustPressed ==> nextSimulation == Some(S.Toggled(simulation))
      ensures !(S.ToggleRuns(app) && spaceJustPressed) ==> nextSimulation == old(nextSimulation)
    {
      if S.ToggleRuns(app) && spaceJustPressed {
        match simulation
        case Paused => nextSimulation := Some(S.Running);
        case Running => nextSimulation := Some(S.Paused);
      }
    }

    /** The state transition between frames: a pending next state becomes current. */
    method ApplySimulationTransition()
      requires Valid()
      modifies this`simulation, this`nextSimulation
      ensures Valid()
      ensures old(nextSimulation).Some? ==> simulation == old(nextSimulation).value
      ensures old(nextSimulation).None? ==> simulation == old(simulation)
      ensures nextSimulation == None
    {
      if nextSimulation.Some? {
        simulation := nextSimulation.value;
      }
      nextSimulation := None;
    }

    /**
     * The enemy systems of one frame, run only on the game screen while the
     * simulation is running: the timed spawn, then the reflection, then the
     * movement.
     */
    method EnemyUpdate(app: S.AppState, w: Window, dt: real, timerFinished: bool, d: EnemyDraw)
      returns (bounced: seq<bool>)
      requires Valid() && (timerFinished ==> d.Valid())
      modifies this`enemies
      ensures Valid()
      ensures !S.EnemySystemsRun(app, simulation) ==> enemies == old(enemies) && bounced == []
      ensures S.EnemySystemsRun(app, simulation) ==>
        var spawned := old(enemies) + (if timerFinished then [SpawnedEnemy(w, d)] else []);
        && |enemies| == |spawned| == |bounced|
        && (forall i :: 0 <= i < |spawned| ==> enemies[i] == Moved(Reflected(spawned[i], w), dt))
        && (forall i :: 0 <= i < |spawned| ==> (bounced[i] <==> Bounces(spawned[i], w)))
    {
      if S.EnemySystemsRun(app, simulation) {
        EnemySpawnOverTime(w, timerFinished, d);
        bounced := UpdateEnemyDirection(w);
        EnemyMovement(dt);
      } else {
        bounced := [];
      }
    }
  }

  /** Pressing Space twice on the game screen, with a transition after each press, restores the state. */
  method ToggleTwice(world: World)
    requires world.Valid()
    modifies world`simulation, world`nextSimulation
    ensures world.Valid()
    ensures world.simulation == old(world.simulation) && world.nextSimulation == None
  {
    world.ToggleSimulation(S.Game, true);
    world.ApplySimulationTransition();
    world.ToggleSimulation(S.Game, true);
    world.ApplySimulationTransition();
    S.ToggledTwice(old(world.simulation));
  }
}
