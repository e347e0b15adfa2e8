# Nazi Horde: enemy and player systems in Dafny

Nazi Horde is a small 2D shooter written in Rust on the Bevy engine. This
project models the game rules of two of its files. Each Bevy system becomes a
method on a world object, and the per-entity arithmetic becomes pure
functions with proved properties.

- `src/enemy/mod.rs`:
  - the spawn system is capped by `ENEMY_MAX`;
  - the flight step homes each enemy in on a point of its formation path and starts advancing the formation phase once the enemy is close enough (the *lock-on gate*);
  - the fire system drops one falling laser below every enemy.
- `src/player.rs`:
  - the player spawns at the bottom centre of the window;
  - its velocity is integrated each frame;
  - the arrow keys set its horizontal velocity.

Files:

- `components.dfy` (module `Components`) holds the shared records: `Vec3`, `Transform`, `Velocity`, `SpriteSize`, `Movable`. It also holds:
  - the `Config` record for the crate constants `ENEMY_MAX`, `TIME_STEP`, `BASE_SPEED`, `SPRITE_SCALE`, `PLAYER_SIZE`, `ENEMY_SIZE` and `ENEMY_LASER_SIZE`;
  - the `Math` record for `f32::cos`, `f32::sqrt` and `PI`. `ValidMath` requires only that `PI` is positive and that `sqrt` returns the non-negative square root. Nothing is assumed about `cos`.
- `enemy.dfy` (module `EnemySystems`) holds the `Formation`, enemy and laser entities, the per-enemy functions, and the class `EnemyWorld`. Its fields are the `EnemyCount` resource, the enemy entities and the spawned lasers. Its methods are the three systems.
- `player.dfy` (module `PlayerSystems`) holds the player entity, its functions, and the class `PlayerWorld` with the three player systems.

Inputs the game reads from the engine become parameters:

- the window height;
- the formation produced by the formation maker, whose source is not part of this model;
- the keyboard state, as two booleans.

Values are `real`. Within the model's assumptions (see "Left out"), the arithmetic matches the source's f32 expressions operation for operation.

## Model

| member | source | states |
|---|---|---|
| EnemySystems.NextCount | src/enemy/mod.rs:45-65 | below the cap the counter rises by exactly one; at or above the cap it stays; a counter within the cap stays within it |
| EnemySystems.CountAfterRunsClosedForm | src/enemy/mod.rs:45-65 | after `n` spawn runs the counter is `min(count + n, ENEMY_MAX)`, or unchanged if it started at or above the cap |
| EnemySystems.CountStaysBounded | src/enemy/mod.rs:45-65 | no number of spawn runs pushes a counter within the cap beyond `ENEMY_MAX` |
| EnemySystems.SpawnedEnemy | src/enemy/mod.rs:47-62 | the new enemy sits at the formation's start point at depth 10; it has scale `(SPRITE_SCALE, SPRITE_SCALE, 1)`, the default rotation, the given formation and sprite size `ENEMY_SIZE` |
| EnemySystems.EnemyWorld.SpawnEnemy | src/enemy/mod.rs:38-66 | below the cap one spawned enemy is appended and the counter rises by one; otherwise nothing changes; the counter keeps equal to the population and within the cap |
| EnemySystems.Direction | src/enemy/mod.rs:85 | the direction is `1` or `-1`, and it is `1` exactly when the formation starts left of centre |
| EnemySystems.CandidateAngle | src/enemy/mod.rs:89-91 | with positive time step and speed, the phase increases exactly when the formation starts left of centre and decreases otherwise; with zero time step or speed it is unchanged |
| EnemySystems.Target | src/enemy/mod.rs:93-95 | every target point lies on the line through the pivot with slope `radius.y / radius.x`, because both coordinates use the cosine |
| EnemySystems.Distance | src/enemy/mod.rs:97-100 | the distance is non-negative; its square is `dx² + dy²`; it is zero exactly when both offsets are zero |
| EnemySystems.Ratio | src/enemy/mod.rs:101-105 | the ratio is 0 at zero distance and otherwise satisfies `ratio * distance == max_distance`; a target within reach gives a ratio of at least 1; a target out of reach gives a ratio below 1 |
| EnemySystems.ClampedStep | src/enemy/mod.rs:107-113 | for a non-negative ratio the new coordinate lies between the old one and the target; a ratio of at least 1 lands exactly on the target; a ratio up to 1 gives the unclamped step; a zero ratio or zero gap leaves the coordinate unchanged |
| EnemySystems.StepEnemy | src/enemy/mod.rs:76-122 | only the x/y translation and the phase change; the phase takes the candidate value exactly when the lock-on gate holds, and otherwise keeps its old value. The step is built from helpers without contracts of their own: `MaxDistance` is `TIME_STEP * speed` (:81); `TargetOf` is the target point at the candidate phase (:89-95); `DistanceToTarget` is the distance to it (:97-100); `LockedOn` is the lock-on gate `distance < max_distance * speed / 20` (:116) |
| EnemySystems.StepNeverOvershoots | src/enemy/mod.rs:107-113 | with a non-negative time step and speed, each new coordinate lies between the old one and the target's, so the move never overshoots |
| EnemySystems.StepTravelsAtMostMaxDistance | src/enemy/mod.rs:81-121 | with a non-negative time step and speed, the enemy moves by exactly the smaller of its distance to the target and `TIME_STEP * speed`, so in no direction does it move farther than one frame allows |
| EnemySystems.StepTravel | src/enemy/mod.rs:97-113 | one step covers the distance to the target or `max_distance`, whichever is less |
| EnemySystems.FarStepTravel | src/enemy/mod.rs:101-113 | going for a target out of reach covers exactly `max_distance` |
| EnemySystems.NearStepTravel | src/enemy/mod.rs:101-113 | going for a target within reach covers exactly the distance to it |
| EnemySystems.StepAtTarget | src/enemy/mod.rs:101-113 | an enemy already on its target does not move |
| EnemySystems.StepReachesTarget | src/enemy/mod.rs:101-113 | a target no farther than `max_distance` is reached exactly |
| EnemySystems.StepApproachesTarget | src/enemy/mod.rs:97-113 | a target farther than `max_distance` comes exactly `max_distance` closer |
| EnemySystems.StepShrinksGap | src/enemy/mod.rs:97-113 | one step leaves a distance of `max(0, d - max_distance)` to the target |
| EnemySystems.HomingProgress | src/enemy/mod.rs:81-121 | an enemy outside the lock-on gate keeps its formation and its target; it comes `TIME_STEP * speed` closer, or reaches the target |
| EnemySystems.Flight | src/enemy/mod.rs:76-122 | over any number of frames only the x/y translation and the formation phase change; depth, rotation, scale, sprite size and every other formation field are kept |
| EnemySystems.GapAfterClosedForm | src/enemy/mod.rs:81-113 | `n` frames of approach close `n * TIME_STEP * speed` of the gap, or all of it |
| EnemySystems.HomingFlight | src/enemy/mod.rs:81-121 | an enemy that stays outside the gate for `n` frames keeps its formation; its distance to the fixed target is the initial distance less `n * TIME_STEP * speed`, floored at zero |
| EnemySystems.LocksOnOnceGapCloses | src/enemy/mod.rs:81-118 | if `n` frames of approach would close the gap, the enemy passes the lock-on gate at one of the frames `0 .. n` |
| EnemySystems.EventuallyLocksOn | src/enemy/mod.rs:115-118 | with positive time step and speed, an enemy whose distance is at most `n * TIME_STEP * speed` passes the lock-on gate at one of the frames `0 .. n` |
| EnemySystems.EnemyWorld.MoveEnemies | src/enemy/mod.rs:71-123 | every enemy takes exactly one flight step; the population and its invariant are kept |
| EnemySystems.EnemyLaser | src/enemy/mod.rs:141-158 | the laser sits 15 units below its enemy at depth 0; it is flipped about x, has scale `(SPRITE_SCALE, SPRITE_SCALE, 1)`, falls with velocity `(0, -1)`, auto-despawns, is tagged `FromEnemy` and has size `ENEMY_LASER_SIZE` |
| EnemySystems.FiredLasers | src/enemy/mod.rs:139-159 | exactly one laser per enemy, in query order, each the laser of the enemy at the same index |
| EnemySystems.FiredLasersAppend | src/enemy/mod.rs:139-159 | firing over two groups of enemies spawns the lasers of the first group followed by those of the second |
| EnemySystems.EnemyWorld.FireEnemyLasers | src/enemy/mod.rs:134-160 | the lasers of all enemies are appended to the existing ones; nothing else changes |
| PlayerSystems.SpawnedPlayer | src/player.rs:24-36 | the player is centred horizontally at depth 10 with its scaled sprite's bottom edge 5 units above the window's bottom edge; it has scale `(SPRITE_SCALE, SPRITE_SCALE, 1)` and zero velocity |
| PlayerSystems.PlayerWorld.SpawnPlayer | src/player.rs:19-37 | exactly one spawned player is added |
| PlayerSystems.Integrated | src/player.rs:41-43 | the displacement on each axis is the velocity times `FrameSpeed`, which is `TIME_STEP * BASE_SPEED`; depth, rotation, scale and velocity are kept; a player at rest does not move |
| PlayerSystems.ReverseUndoesMove | src/player.rs:41-43 | a frame with the opposite velocity brings the player back to where it was |
| PlayerSystems.MovedClosedForm | src/player.rs:39-45 | after `n` frames the player is displaced by `n` times one frame's displacement, in a straight line at constant velocity |
| PlayerSystems.PlayerWorld.MovePlayers | src/player.rs:39-45 | every player takes exactly one frame of movement |
| PlayerSystems.KeyVelocityX | src/player.rs:53-59 | the result is `-1`, `0` or `1`: `-1` exactly when Left is held, `1` exactly when only Right is held, `0` exactly when neither is |
| PlayerSystems.Steered | src/player.rs:52-60 | a key event sets only the horizontal velocity, to the keyboard's choice |
| PlayerSystems.SteeringMovesPlayer | src/player.rs:42-59 | with a positive frame speed, the next frame moves the player left exactly when Left is held and right exactly when only Right is held; with neither key held it does not move horizontally |
| PlayerSystems.PlayerWorld.KeyboardEvent | src/player.rs:48-61 | with exactly one player its velocity is steered; with none or several nothing changes |

## Left out

- `enemy_fire_criteria` (src/enemy/mod.rs:125-132) draws a random 1-in-60 chance before each fire run. Randomness is outside the model, so `FireEnemyLasers` models one run that did fire.
- The Bevy schedule is not modelled: the 0.2 s fixed step of the spawn system, and the order and frequency of the systems.
- The formation maker (`FormationMaker::make` and `Formation` in the `formation` submodule) is not part of this model. The spawn method takes its output as a parameter and assumes only positive semi-axes (`ValidFormation`), since the flight step divides by the smaller one.
- The crate constants are not in the files modelled here, so they are carried as `Config` fields rather than fixed values. The one visible value, `PLAYER_SIZE = (144., 75.)` (src/main.rs:8), has the height as its second component, which is the one `SpawnedPlayer` uses.
- f32 rounding, overflow, NaN and infinities are not modelled, because values are exact reals. `cos`, `sqrt` and `PI` are parameters; `sqrt` is taken to be the exact non-negative root.
- The unused clock reading `now` (src/enemy/mod.rs:75) is left out because it affects nothing.
- Textures, sprite bundles, the `Enemy`, `Player` and `Laser` marker components and `Commands` plumbing are left out. Only the component values are modelled.
- Despawning, collisions, lasers moving and the player firing are not in these two files and are not modelled.
- `PlayerSystems.KeyVelocityX`: the source calls `kb.press(KeyCode::Left)`. In Bevy that method registers a key press and returns nothing, so it cannot be the condition as written. The model reads it as the evidently meant "Left is held" (`pressed`), as the Right branch does.
- `EnemySystems.StepNeverOvershoots`: the no-overshoot property is stated only for a non-negative time step and speed. With a negative speed the source's `max_distance` is negative and the enemy moves away from its target.
- `EnemySystems.Target`: the source computes both target coordinates with `cos`, so the path is a line segment through the pivot rather than an ellipse. The model keeps the code as written and states that collinearity.
