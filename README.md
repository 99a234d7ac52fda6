# Bouncing-meteor arcade game: the simulation core, in Dafny

This project models the game logic of `juego.py`, a small pygame arcade game. The player
steers a ship (`Character`) around an 800×600 playfield. Ten meteors (`Enemy`) bounce off the
edges. A meteor that overlaps the ship kills it, and any key press brings it back to the centre.
All drawing is removed. What is left is an integer state machine, because pygame rectangles
have integer coordinates:

- `config.dfy`, module `Config`: the game's constants (playfield 800×600, radii 25, speeds 5
  and 2, ten meteors, headings 0/90/180/270).
- `collision.dfy`, module `Collision`: `check_collision_circles`, which compares squared
  centre distance with the squared sum of the radii, using strict `<`. A sprite's centre is
  `left + size // 2`.
- `player.dfy`, module `Player`: the `Character` class. Its fields are the rectangle corner,
  `direction`, `is_alive` and the start time. Its methods are `update`, `get_elapsed_time`,
  `die` and `respawn`. Each state-changing method is proved against a function on the value
  `PlayerState` (`Updated`, `Killed`, `Respawned`), and the lemmas are about those functions.
- `obstacle.dfy`, module `Obstacle`: the `Enemy` class. It has the random initial state as
  parameters (`Spawn`) and bounces each axis on its own (`BounceAxis`, `EnemyStep`). It also
  has the inductive invariant that bounds the overshoot.
- `simulation.dfy`, module `Simulation`: the non-drawing body of `main`'s loop. The class
  `Game` holds the player and the ten meteors. `Game.Tick` is one pass: the event loop, the
  player update, the meteor updates and the collision pass. `Game.Play` is the outer
  `while running` loop. `Game.Tick` is proved against the function `TickWorld` on the value
  `World`, and `Game.Play` against `RunWorld`.

The clock is an integer count of milliseconds passed in as `now`. With whole milliseconds,
the truncation done by `int(time.time() - start_time)` can be seen (`WholeSeconds`). Python's
`//` and `%` by 60 floor; Dafny's `/` and `%` by a positive divisor give the same result.
Coordinates live in a pygame rectangle, which stores C integers and refuses a
value out of range rather than wrapping it. Dafny's integers are unbounded. The two agree here
because every coordinate stays bounded: `Player.InBounds` keeps a player inside the playfield,
and `Obstacle.EnemyInv` and `Obstacle.NeverEscapes` keep an obstacle's corner within
[−2, 752] × [−2, 552]. So no coordinate ever comes near the C integer range.

Obstacles are never clamped, so their boxes can be up to `ENEMY_SPEED` past an edge
(`Obstacle.NeverEscapes` gives the exact bound, `Obstacle.LeftEdgeBounce` a concrete case).
Meteors move on every pass of the loop, whether the player is alive or dead. Positions are
integer rectangle corners.

## Model

| member | source | states |
|---|---|---|
| `Collision.Center` | juego.py:36 | a sprite centre (`low + size // 2`) lies inside the sprite's box |
| `Collision.CirclesCollide` | juego.py:35-38 | `check_collision_circles`: strict squared test; when it holds (and the radius sum is non-negative), the centres are closer than the radius sum on each axis |
| `Collision.CollideSymmetric` | juego.py:35-38 | the collision test gives the same answer with its arguments swapped |
| `Collision.TangentDoesNotCollide` | juego.py:35-38 | circles whose squared centre distance equals the squared sum of their radii (tangent circles) do not collide |
| `Collision.SameCentreCollides` | juego.py:27-38 | two circles with the same centre and positive radii always collide |
| `Collision.CollideOnRow` | juego.py:35-38 | for centres on one row, the squared test holds exactly when the plain gap between centres is below the sum of the radii |
| `Player.Initial` | juego.py:48-53 | a new player is alive, facing up, has its timer started now, lies in the playfield and has its centre at (400, 300) |
| `Player.Clamp` | juego.py:71-79 | the clamped coordinate lies in the allowed range |
| `Player.ClampNearest` | juego.py:71-79 | the clamped coordinate is the point of the range nearest to the unclamped one |
| `Player.Delta` | juego.py:58-68 | a held pair of keys moves one axis by at most `CHAR_SPEED`; both or neither held gives no move; the move is negative exactly when only the low-side key is held |
| `Player.PlayerCircle` | juego.py:36-37 | the ship's circle has radius `CHAR_RADIUS` and sits exactly in the middle of its 50×50 box (`rect.centerx/centery`) |
| `Player.Heading` | juego.py:58-69 | headings stay among 0, 90, 180, 270 |
| `Player.Updated` | juego.py:55-79 | a dead player is unchanged; a live player ends inside the playfield (left ≥ 0, right ≤ 800, top ≥ 0, bottom ≤ 600); the alive flag and timer are untouched; the player invariant is kept |
| `Player.UpdateMovesAtMostSpeed` | juego.py:58-79 | starting inside the playfield, each coordinate moves by at most `CHAR_SPEED` |
| `Player.OppositeKeysCancel` | juego.py:58-63 | holding left and right together leaves x unchanged; the heading is then right (270) unless a vertical key is held |
| `Player.LeftEdgeHolds` | juego.py:58-73 | a player at x = 0 holding left stays at x = 0 |
| `Player.Killed` | juego.py:91-93 | dying clears the alive flag and changes nothing else |
| `Player.KilledIdempotent` | juego.py:91-93 | dying twice is the same as dying once |
| `Player.Respawned` | juego.py:95-99 | respawning makes the player alive with its centre at (400, 300), restarts its timer at now (so zero seconds have passed), keeps its heading and keeps the invariant |
| `Player.WholeSeconds` | juego.py:86 | milliseconds become whole seconds truncated toward zero, for negative differences too |
| `Player.Character.constructor` | juego.py:42-53 | the new object's state is `Initial(now)` |
| `Player.Character.Update` | juego.py:55-79 | the step-by-step key handling and clamping produce exactly `Updated`: the moves add up, the last held key sets the heading in the order left, right, up, down, and a dead player is untouched |
| `Player.Character.GetElapsedTime` | juego.py:84-89 | returns minutes and seconds with 0 ≤ seconds < 60 and minutes·60 + seconds equal to the truncated elapsed seconds |
| `Player.Character.Die` | juego.py:91-93 | the new state is `Killed` of the old one |
| `Player.Character.Respawn` | juego.py:95-99 | the new state is `Respawned` of the old one |
| `Obstacle.EnemyCircle` | juego.py:36-37 | an obstacle's circle has radius `ENEMY_RADIUS` and sits exactly in the middle of its 50×50 box |
| `Obstacle.BounceAxis` | juego.py:118-127 | on one axis the position moves by exactly the old velocity; the speed is kept; the velocity is negated exactly when the new box crosses an edge of that axis |
| `Obstacle.EnemyStep` | juego.py:116-127 | x and y move by exactly the old dx and dy, and \|dx\| and \|dy\| are kept |
| `Obstacle.AxesIndependent` | juego.py:121-127 | each axis's result depends only on that axis's position and velocity |
| `Obstacle.BounceAxisKeepsInv` | juego.py:116-127 | one axis step keeps the invariant: speed ±2, at most 2 past an edge, already heading back when past an edge |
| `Obstacle.EnemyStepKeepsInv` | juego.py:116-127 | one tick keeps the obstacle invariant on both axes |
| `Obstacle.Spawned` | juego.py:110-114 | a freshly spawned obstacle lies inside the playfield and satisfies the invariant |
| `Obstacle.StepN` | juego.py:116-127 | `Enemy.update` applied n times keeps \|dx\| and \|dy\| |
| `Obstacle.NeverEscapes` | juego.py:110-127 | after any number of ticks a spawned obstacle moves at speed 2 on each axis, and its box is at most `ENEMY_SPEED` outside the playfield |
| `Obstacle.LeftEdgeBounce` | juego.py:118-123 | an obstacle at x = 0 moving left reaches x = −2 with dx turned to +2, and is back at x = 0 a tick later |
| `Obstacle.Enemy.constructor` | juego.py:103-114 | the new object's state is `Spawned` of the random choices |
| `Obstacle.Enemy.Update` | juego.py:116-127 | moving and then testing each edge step by step produces exactly `EnemyStep` |
| `Simulation.InitialWorld` | juego.py:131-142 | the world at the start satisfies the world invariant: ten obstacles, player in bounds with a valid heading, every obstacle within its invariant |
| `Simulation.HandleEvent` | juego.py:150-152 | one event: a key press makes the player alive; any other event, or any event while alive, changes nothing; the player invariant is kept |
| `Simulation.HandleEvents` | juego.py:147-152 | the event loop leaves the player as it was or respawned at `now`, and keeps the player invariant |
| `Simulation.HandleEventsResult` | juego.py:147-152 | the event loop respawns a dead player exactly when the events contain a key press, and leaves a live player unchanged |
| `Simulation.FirstKeyDownRespawns` | juego.py:147-152 | for a dead player, events before the first key press do nothing, that press respawns, and later presses change nothing |
| `Simulation.Overlaps` | juego.py:165-167 | a collision between the player and an obstacle needs their boxes to intersect on both axes |
| `Simulation.AnyOverlap` | juego.py:165-168 | no obstacles means no collision; a collision means some obstacle's box intersects the player's |
| `Simulation.MovedPlayer` | juego.py:147-159 | after the events and its own update the player is alive exactly when it was alive or a key was pressed; a live one is inside the playfield; the invariant is kept |
| `Simulation.StepAll` | juego.py:162 | every obstacle takes exactly one `EnemyStep` |
| `Simulation.TickWorld` | juego.py:147-168 | after a tick the obstacles are the old ones stepped once, whatever the player's state |
| `Simulation.EnemiesIgnorePlayer` | juego.py:158-166 | obstacle motion does not depend on the player, the events or the keys, so obstacles move even while the player is dead |
| `Simulation.TickDeathIff` | juego.py:147-168 | the player ends a tick dead exactly when it was dead and got no key press, or when, alive after its own update, some moved obstacle overlaps it |
| `Simulation.DeadWithoutKeyStays` | juego.py:150-165 | a dead player with no key press keeps its whole state through the tick |
| `Simulation.TickKeepsInv` | juego.py:145-168 | a tick keeps the world invariant |
| `Simulation.StackedObstacleKills` | juego.py:158-168 | a live, still player with an obstacle on the same spot is dead after the tick |
| `Simulation.RunWorld` | juego.py:145-168 | repeated ticks keep the number of obstacles |
| `Simulation.RunWorldStep` | juego.py:145-168 | playing one more frame is one more tick on the world reached so far |
| `Simulation.RunMovesEnemies` | juego.py:145-162 | after n frames each obstacle is exactly n of its own `Enemy.update` steps from where it started, whatever the player did |
| `Simulation.RunKeepsInv` | juego.py:145-168 | any number of ticks keeps the world invariant |
| `Simulation.Game.constructor` | juego.py:131-142 | the new game's state is `InitialWorld`, with ten distinct obstacle objects |
| `Simulation.Game.ProcessEvents` | juego.py:147-152 | the event loop returns "running" exactly when no quit event came, and updates the player as `HandleEvents` does |
| `Simulation.Game.MoveEnemies` | juego.py:161-162 | the obstacle group's update turns the obstacle states into `StepAll` of the old ones |
| `Simulation.Game.CheckCollisions` | juego.py:164-168 | the collision pass kills the live player exactly when some obstacle overlaps it, and changes nothing else |
| `Simulation.Game.Tick` | juego.py:145-168 | one pass keeps the game invariant, reports a quit event, and produces exactly `TickWorld` of the old state |
| `Simulation.Game.Play` | juego.py:144-168 | the loop stops after the first frame with a quit event (that frame still runs to the end) or when the frames run out; the state is then `RunWorld` of the frames played, and the invariant holds |

## Left out

- Drawing: image loading and scaling, `transform.rotate` and `transform.flip`, fonts, text, `screen.blit` and `display.flip` (juego.py:13-24, 45-47, 82, 106-108, 124, 127, 170-190). These are calls into pygame that change nothing the simulation reads. The image (`self.image`) is not modelled, so "update changes nothing while dead" is stated for position, heading, alive flag and timer.
- Input polling: `pygame.event.get` becomes a list of `Event` values (`Quit`, `KeyDown`, `Other`). `pygame.key.get_pressed` becomes four flags, each meaning "arrow key or its letter".
- Randomness: `random.randrange` and `random.choice` become the parameters of `Spawn`, limited to the ranges those calls produce.
- Clock: `time.time()` becomes an integer millisecond count `now`. Its float precision below the millisecond is not modelled. `clock.tick(60)` is frame pacing and is left out.
- Process plumbing: `pygame.init`, `pygame.quit` and `sys.exit` are left out.
- Sprite groups: `all_sprites` is used only for drawing and is left out. `all_enemies` becomes a sequence of distinct `Enemy` objects.
