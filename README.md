# Ball game rules and URL shortener: a Dafny model

This project models two small programs from a Rust lessons repository.

**The ball game (04-bevy-ball-game)** is built on Bevy's entity–component–system design.
- The player is a blue ball steered with the arrow keys. It is confined to the window.
- Red enemy balls spawn at safe coordinates, travel in straight lines and bounce off the window's edges.
- Stars appear at random and are collected for one point each.
- An enemy that overlaps the player ends the game with a `GameOver` message carrying the score.
- Space pauses or resumes the simulation while on the game screen.

The model keeps every entity in one store, the class `BallGame.World`:
- an optional player position;
- the enemies (position and direction) and the stars, in spawn order;
- the score and the `GameOver` messages written so far;
- the simulation state, and the next state a system has asked for.

Each Bevy system is a method of `World`. The rule it applies to one entity is a pure function in `EnemyRules`, `StarRules` or `PlayerRules`:
- The `World` method's contract ties the new state to those functions.
- The lemmas beside the functions prove what the game promises: bounds, idempotence, counts, and that nothing else changes.

Coordinates are reals.
- Distances are compared by their squares. `PlayerRules.CollisionTestsMatchDistance` shows this agrees with comparing the distance itself.
- `normalize` multiplies by a reciprocal length, which is passed in as a value. For enemies it comes with the random draw; for the player's diagonal it is one over the square root of two.
- Every `random::<f32>()` draw is a parameter in `[0, 1)`.
- The window, the held keys, the frame's delta and each spawn timer's `just_finished` are parameters too.

**The URL shortener (03-url-shortener)** has four parts:
- `InMemoryRepositories.InMemoryRepository` holds a `map<string, string>` from short id to full URL.
- `CreateShortUrl.CreateShortUrlCommand` takes an id from `IdProviders.FakeIdProvider`, saves the mapping and answers the id.
- `GetFullUrl.GetFullUrlQuery` looks the id up.
- `ShortenerApp.CreateAndGet` proves the round trip through one shared repository.

The model follows the code as written, including these details:
- `enemy_hit_player` writes one `GameOver` per overlapping enemy, because its loop never stops early.
- `player_hit_star` collects a star at exactly the touching distance (`<=`).
- `update_enemy_direction` clamps only a local copy of the translation, so an enemy's position is never changed by it.
- `spawn_star` scales the `y` draw by the window's width. `StarRules.TimedStarCanLeaveWideWindow` shows a timed star landing above the top edge of an 800 by 600 window, since `y` grows upwards.

## Model

| member | source | states |
|---|---|---|
| Geometry.DistSq | 04-bevy-ball-game/src/game/player/systems.rs:109 | The squared distance is non-negative and is zero between equal points. |
| Geometry.Inset | 04-bevy-ball-game/src/game/player/systems.rs:67-71 | Bounds `margin` in from every edge are `width - 2*margin` wide and `height - 2*margin` tall. |
| Geometry.Clamp | 04-bevy-ball-game/src/game/player/systems.rs:76-80 | The result lies in `[lo, hi]` when that range is non-empty. A value already inside is kept. The result is always the value, `lo` or `hi`, and a value below `lo` gives `lo`. |
| Geometry.ClampIdempotent | 04-bevy-ball-game/src/game/player/systems.rs:76-87 | On a non-empty range, clamping twice equals clamping once. |
| Geometry.ClampNotIdempotentOnEmptyRange | 04-bevy-ball-game/src/game/player/systems.rs:76-80 | When the window is too small for the sprite (`lo > hi`), a second clamp moves the value again, from `lo` to `hi`. |
| Geometry.DistanceComparedBySquares | 04-bevy-ball-game/src/game/player/systems.rs:109-111 | For non-negative `d` and `m`, `d < m` iff `d*d < m*m`, and the same holds for `<=`. |
| Geometry.NormalizedIsUnit | 04-bevy-ball-game/src/enemy/systems.rs:114 | Scaling a vector by its reciprocal length gives length one and keeps the sign of each component. |
| Geometry.Advanced | 04-bevy-ball-game/src/game/player/systems.rs:54-55 | Adding `v*s` to a translation never changes `z`, and a zero step changes nothing. |
| Geometry.AdvancedDistance | 04-bevy-ball-game/src/enemy/systems.rs:43 | Moving along a unit vector by `s` covers a squared distance of exactly `s*s`. |
| EnemyRules.SafeSpawnCoordinates | 04-bevy-ball-game/src/enemy/systems.rs:10-38 | The spawn point has `z = 0` and lies at least two sprite sizes from every edge when that region is non-empty. Each coordinate of a draw already inside the region is returned unchanged. |
| EnemyRules.SpawnedEnemy | 04-bevy-ball-game/src/enemy/systems.rs:113-119 | A spawned enemy heads along a unit vector with both components `>= 0`, at the safe spawn coordinates of its draw. |
| EnemyRules.Moved | 04-bevy-ball-game/src/enemy/systems.rs:40-44 | Moving an enemy keeps its direction and its `z`. |
| EnemyRules.MovedDistance | 04-bevy-ball-game/src/enemy/systems.rs:42-43 | An enemy with a unit direction travels exactly `ENEMY_SPEED * delta` in one frame. |
| EnemyRules.Reflected | 04-bevy-ball-game/src/enemy/systems.rs:61-85 | The position is unchanged. `direction.x` is negated iff `x` is outside `[x_min, x_max]`, and likewise for `y`, independently. The direction's length is preserved, and an enemy inside the bounds is unchanged. |
| EnemyRules.ReflectedTwice | 04-bevy-ball-game/src/enemy/systems.rs:61-85 | Reflecting twice in the same place restores the enemy. |
| EnemyRules.BounceChangesDirection | 04-bevy-ball-game/src/enemy/systems.rs:62-90 | For a direction with no zero component, the bounce flag is set iff the direction changes. |
| EnemyRules.LeftWallBounce | 04-bevy-ball-game/src/enemy/systems.rs:66-69 | An enemy at (10, 300) heading left in an 800 by 600 window turns right and stays at x = 10. |
| StarRules.ScaledDrawInRange | 04-bevy-ball-game/src/game/star/systems.rs:17-18 | A draw in `[0, 1)` times a positive extent lies in `[0, extent)`. |
| StarRules.DrawInRange | 04-bevy-ball-game/src/game/star/systems.rs:17-18 | Both scaled coordinates of a star draw lie below their positive extents. |
| StarRules.StartupStar | 04-bevy-ball-game/src/game/star/systems.rs:17-22 | A startup star is at depth 0 with `x` in `[0, width)` and `y` in `[0, height)`. |
| StarRules.TimedStar | 04-bevy-ball-game/src/game/star/systems.rs:41-48 | A timed star is at depth 0 with both `x` and `y` in `[0, width)`. |
| StarRules.TimedStarCanLeaveWideWindow | 04-bevy-ball-game/src/game/star/systems.rs:43-44 | On an 800 by 600 window a `y` draw of 0.9 puts a timed star at y = 720, above the window's top edge; a startup star gets y = 540. |
| GameStates.Toggled | 04-bevy-ball-game/src/game/systems.rs:11-14 | The requested state always differs from the current one. |
| GameStates.ToggledTwice | 04-bevy-ball-game/src/game/systems.rs:11-14 | Toggling twice returns the original state. |
| GameStates.EnemySystemsNeedRunningGame | 04-bevy-ball-game/src/game/enemy/mod.rs:22-31 | The enemy systems run only where the toggle also runs, on the game screen. They do not run in the initial `Paused` state. |
| PlayerRules.KeyDirection | 04-bevy-ball-game/src/game/player/systems.rs:37-50 | `x` is 1, -1 or 0 exactly when only Right, only Left, or neither or both are held; `y` follows the same rule with Up and Down. |
| PlayerRules.NormalizedKeyDirection | 04-bevy-ball-game/src/game/player/systems.rs:53 | The normalised key direction has length one and the signs of the key direction. |
| PlayerRules.AxisIsUnit | 04-bevy-ball-game/src/game/player/systems.rs:53 | A key direction along one axis already has length one, so `normalize` leaves it as it is. |
| PlayerRules.DiagonalIsUnit | 04-bevy-ball-game/src/game/player/systems.rs:53 | A diagonal key direction scaled by one over the square root of two has length one and keeps its signs. |
| PlayerRules.PlayerMoved | 04-bevy-ball-game/src/game/player/systems.rs:52-56 | `z` is never touched, and a zero key direction does not move the player. |
| PlayerRules.Confined | 04-bevy-ball-game/src/game/player/systems.rs:67-89 | `x` and `y` end inside the player bounds when these are non-empty. A player already inside is unchanged, and `z` is kept. |
| PlayerRules.ConfinedIdempotent | 04-bevy-ball-game/src/game/player/systems.rs:76-87 | On non-empty player bounds, confining twice equals confining once. |
| PlayerRules.WalkIntoLeftWall | 04-bevy-ball-game/src/game/player/systems.rs:39-89 | A 64-pixel player at (400, 300) holding Left for a 500-pixel step on an 800 by 600 window is stopped at (32, 300). |
| PlayerRules.CollisionTestsMatchDistance | 04-bevy-ball-game/src/game/player/systems.rs:109-111 | The squared tests agree with the source's `distance < reach` for enemies and `distance <= reach` for stars. So a centre at exactly `reach` collects a star but is not hit. |
| PlayerRules.HitCount | 04-bevy-ball-game/src/game/player/systems.rs:108-117 | At most one `GameOver` is written per enemy. |
| PlayerRules.HitCountZero | 04-bevy-ball-game/src/game/player/systems.rs:108-117 | No `GameOver` is written iff no enemy is strictly within reach. |
| PlayerRules.HitCountAll | 04-bevy-ball-game/src/game/player/systems.rs:108-117 | The count equals the number of enemies iff every enemy overlaps, so k overlapping enemies write k messages. |
| PlayerRules.Uncollected | 04-bevy-ball-game/src/game/player/systems.rs:129-137 | The stars left in place are stars of the input, none of them within reach, and no more of them than there were. |
| PlayerRules.CollectedCount | 04-bevy-ball-game/src/game/player/systems.rs:129-136 | No more stars are collected than exist. |
| PlayerRules.CollectedPartition | 04-bevy-ball-game/src/game/player/systems.rs:129-137 | Stars left plus stars collected equals the stars before: each star is either despawned and scored or kept. |
| PlayerRules.UnreachedStarsKept | 04-bevy-ball-game/src/game/player/systems.rs:130-137 | A star out of reach is never removed. |
| PlayerRules.NothingReachedNothingCollected | 04-bevy-ball-game/src/game/player/systems.rs:129-145 | With no star within reach, the stars and the score are unchanged. |
| BallGame.World.constructor | 04-bevy-ball-game/src/game/mod.rs:34-38 | A new world is empty with a zero score, and its simulation starts `Paused`. |
| BallGame.World.SpawnPlayer | 04-bevy-ball-game/src/game/player/systems.rs:21-23 | Exactly one player is placed at `(width/2, height/2, 0)`. |
| BallGame.World.PlayerMovement | 04-bevy-ball-game/src/game/player/systems.rs:31-58 | The accumulated key direction moves the player as `PlayerRules.PlayerMoved` does, by the player's speed times the delta. With no player nothing happens. |
| BallGame.World.ConfinePlayerMovement | 04-bevy-ball-game/src/game/player/systems.rs:60-91 | The player's new position is `PlayerRules.Confined` of the old one. With no player nothing happens. |
| BallGame.World.EnemyHitPlayer | 04-bevy-ball-game/src/game/player/systems.rs:93-119 | One `GameOver` with the current score is appended per enemy within reach, and the player is despawned iff there was at least one. The score is unchanged, and with no player nothing happens. |
| BallGame.World.PlayerHitStar | 04-bevy-ball-game/src/game/player/systems.rs:121-146 | Stars within reach are removed and the rest kept in order. The score rises by the number removed, so stars plus score is conserved. With no player nothing changes. |
| BallGame.World.EnemyMovement | 04-bevy-ball-game/src/enemy/systems.rs:40-45 | Every enemy moves as `EnemyRules.Moved` does; the count and every direction stay as they were. |
| BallGame.World.UpdateEnemyDirection | 04-bevy-ball-game/src/enemy/systems.rs:47-104 | Every enemy is reflected as `EnemyRules.Reflected` does, and no position changes. `bounced[i]` is set iff enemy `i` was out of bounds on some axis. Directions stay unit. |
| BallGame.World.SpawnEnemies | 04-bevy-ball-game/src/enemy/systems.rs:106-126 | Exactly `ENEMY_NUMBERS` enemies are appended, one per draw, and the existing ones are kept. |
| BallGame.World.EnemySpawnOverTime | 04-bevy-ball-game/src/enemy/systems.rs:132-153 | One enemy is appended iff the spawn timer just finished; otherwise the enemies are unchanged. |
| BallGame.World.SpawnStars | 04-bevy-ball-game/src/game/star/systems.rs:9-29 | Exactly `STAR_NUMBERS` startup stars are appended, one per draw. |
| BallGame.World.SpawnStar | 04-bevy-ball-game/src/game/star/systems.rs:35-55 | One timed star is appended iff the star timer just finished. |
| BallGame.World.ToggleSimulation | 04-bevy-ball-game/src/game/systems.rs:5-16 | On the game screen, a Space press requests the other simulation state. Otherwise no request is made. |
| BallGame.World.ApplySimulationTransition | 04-bevy-ball-game/src/game/systems.rs:8-14 | A pending request becomes the current state and is cleared; without one the state stays. |
| BallGame.World.EnemyUpdate | 04-bevy-ball-game/src/game/enemy/mod.rs:22-31 | On the game screen while running, the enemies are spawned, reflected and moved in turn. Otherwise nothing changes. |
| BallGame.ToggleTwice | 04-bevy-ball-game/src/game/systems.rs:10-15 | Two Space presses on the game screen, each followed by a transition, restore the simulation state. |
| InMemoryRepositories.InMemoryRepository.constructor | 03-url-shortener/src/adapters/in_memory_repository.rs:15-17 | The repository starts with the given store. |
| InMemoryRepositories.InMemoryRepository.Save | 03-url-shortener/src/adapters/in_memory_repository.rs:21-25 | Save always answers `Ok`. The key maps to the new URL, overwriting any old one; no key is lost and every other key keeps its URL. |
| InMemoryRepositories.InMemoryRepository.Get | 03-url-shortener/src/adapters/in_memory_repository.rs:29-35 | Get answers `Ok` iff the key is present, with the stored URL, and `Err("Not Found")` otherwise. It changes nothing. |
| InMemoryRepositories.SaveThenGet | 03-url-shortener/src/adapters/in_memory_repository.rs:21-35 | After `save(f, s)`, `get(s)` answers `Ok(f)` and every other key answers as before. |
| IdProviders.FakeIdProvider.constructor | 03-url-shortener/src/id_provider.rs:22-24 | The new provider holds the given id. |
| IdProviders.FakeIdProvider.SetId | 03-url-shortener/src/id_provider.rs:26-28 | The held id is replaced. |
| IdProviders.FakeIdProvider.Provide | 03-url-shortener/src/id_provider.rs:32-34 | Provide answers the held id without changing state. |
| IdProviders.ProvideRepeatsUntilSet | 03-url-shortener/src/id_provider.rs:26-34 | Two calls in a row answer the same id, and after `set_id(x)` the answer is `x`. |
| CreateShortUrl.Propagate | 03-url-shortener/src/app/command/create_short_url.rs:27-28 | The `?` operator: `Ok(id)` iff the save succeeded; a failed save's own error is answered otherwise. |
| CreateShortUrl.CreateShortUrlCommand.constructor | 03-url-shortener/src/app/command/create_short_url.rs:21-23 | The command holds the given provider and repository. |
| CreateShortUrl.CreateShortUrlCommand.Execute | 03-url-shortener/src/app/command/create_short_url.rs:25-29 | Execute answers `Ok` of exactly the provider's id. The store afterwards maps that id to the full URL, with every other entry unchanged. |
| CreateShortUrl.ExecuteWithFakeId | 03-url-shortener/src/app/command/create_short_url.rs:46-57 | With a fake provider holding "123", the answer is `Ok("123")` and never `Ok("")`. |
| CreateShortUrl.ExecuteOnEmptyStore | 03-url-shortener/src/app/command/create_short_url.rs:77-89 | One execute on an empty store leaves exactly one entry, mapping the answered id to the URL. |
| GetFullUrl.GetFullUrlQuery.constructor | 03-url-shortener/src/app/query/get_full_url.rs:15-17 | The query holds the given repository. |
| GetFullUrl.GetFullUrlQuery.Execute | 03-url-shortener/src/app/query/get_full_url.rs:19-21 | Execute answers the repository's result: the stored URL for a present key and `Err("Not Found")` otherwise. It changes nothing. |
| GetFullUrl.LookupTwoKeys | 03-url-shortener/src/app/query/get_full_url.rs:71-89 | Two keys stored side by side each answer their own URL. |
| ShortenerApp.CreateAndGet | 03-url-shortener/src/app/mod.rs:17-36 | Creating a short URL and querying the answered id gives back the original URL, whatever the store held before. |

## Left out

- Rendering, the camera, sprites and asset loading are not modelled; they are presentation only.
- Sound and printing are left out. This covers the bounce sound choice in `update_enemy_direction`, the star pickup sound, `println`, `handle_game_over` and `update_score`. Only the bounce flag is kept, as the `bounced` result of `BallGame.World.UpdateEnemyDirection`.
- `exit_game` and raw keyboard polling are left out. Held keys and the Space press are boolean inputs.
- `tick_enemy_spawn_timer` and `tick_star_spawn_timer` are left out. Bevy's timer is library code, so the world holds no timer state; each spawner takes the timer's `just_finished` as a parameter. Neither tick changes an entity or the score.
- `random::<f32>()` is not modelled; each draw is a parameter constrained to `[0, 1)`.
- Square roots are not computed, because the reals have no square root here. `normalize` multiplies by a reciprocal length that is supplied with its defining equation.
- Enemy spawn draws whose two direction values are both zero are excluded by `EnemyRules.EnemyDraw.Valid`. For them `normalize` yields NaN.
- 32-bit float rounding and overflow are not modelled; every coordinate is an exact real.
- BallGame.World.UpdateEnemyDirection: the final `normalize()` of each direction is not modelled as a separate step. `World.Valid` keeps every direction at unit length and reflection preserves length, so on reals that `normalize` is the identity.
- BallGame.World.SpawnPlayer: it requires that no player exists yet. The startup system runs once on an empty world, and the source does not guard against a second player.
- BallGame.World.EnemyUpdate: Bevy may run the four enemy systems in any order within a frame; the model fixes spawn, then reflection, then movement.
- Deferred `Commands` are applied within the same step. A despawn or spawn takes effect at once, and `BallGame.World.PlayerHitStar` assigns the surviving stars after its loop.
- Bevy plugin and schedule wiring is reduced to the gates `GameStates.ToggleRuns` and `GameStates.EnemySystemsRun`. The older ungated enemy and star plugins supply only constants.
- PlayerRules.PlayerMoved: the distance of one player step is not stated as one contract. It follows from `PlayerRules.NormalizedKeyDirection` (unit length) and `Geometry.AdvancedDistance`.
- The id provider and repository traits are not modelled as traits. The command is modelled with `FakeIdProvider` and `InMemoryRepository`, and the query with `InMemoryRepository`. The query test's always-`Ok("123")` fake repository is therefore not modelled.
- `NanoIdProvider` is not part of this model: its ids come from a random foreign call. The "two executes give different ids" test depends on that randomness.
- CreateShortUrl.CreateShortUrlCommand.Execute: the error path of `?` never fires with the in-memory repository, whose save always succeeds. It is modelled once, by `CreateShortUrl.Propagate`, for any save result.
- `DashMap`, `Arc`, async execution, tokio's `join!`, the HTTP routers, servers, handlers and dependency-injection containers are left out. They are concurrency and transport plumbing; the repository's store is a plain map with one writer at a time.
