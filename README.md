# Neon platformer simulation core in Dafny

This project models the simulation core of a browser auto-runner platformer. The avatar moves right at a
constant speed through a level of spikes, platforms and mode-switching portals. In cube mode it falls
under gravity and jumps from the ground. In ship mode it thrusts up while the jump key is held and sinks
otherwise. A spike hit kills the run, and passing the finish column wins it.

The model covers the following parts of the game:

- the per-frame `update()`: forward motion, the jump-buffer countdown, cube gravity and landing, ship
  thrust, portals, platforms, the spike test, the win check, the camera, the completion percentage and
  the fading trail;
- `die()`;
- the run state machine: `loadLevel`, `resetPlayer`, `startGame`, and the state logic of `handleInput`
  and `handleKeyUp`;
- `generateSpikes` and the `LEVELS` table.

The modules are:

- `Levels` (levels.dfy) holds the level schema. `GenerateSpikes` is the nested push loop, proved equal
  to the recursive specification `Expand`, and lemmas give the expander's output its meaning: row,
  members, order and count. `CATALOGUE` holds the two built-in levels as written: the name, the spike
  patterns, platforms, portals, `endX` and `length`. `BuildLevels` evaluates it the way the `LEVELS`
  literal does, with one `generateSpikes` call per level.
- `Session` (session.dfy) holds the constants of game.js and `State`, one value that holds every global
  `update()` and the handlers read or write except the current level record `level`. `Step.Tick` takes
  that record as a parameter, and `Invariants.Apply` looks it up in the built catalogue by `levelIndex`.
  `player.rotation` is also left out of `State` (see the `player.rotation` line under "## Left out").
- `Step` (step.dfy) defines one `update()` and `die()` as functions on `State`. Their parts (`Motion`,
  `ScanPortals`, `ScanPlatforms`, `AnyHit`, `Finish`) follow the source's code order.
- `StepProperties` (step_properties.dfy) has the lemmas about one tick.
- `Control` (control.dfy) defines the state machine as functions and proves lemmas about it.
- `Invariants` (invariants.dfy) defines the predicate `Sane`. Every event preserves it, so every state
  reachable from start-up by any sequence of frames, presses and releases satisfies it.
- `Simulation` (game.dfy) is the imperative model. It has a `Player` object and a `Game` object whose
  fields are the script's globals. Its methods update those fields in the order the source does, using
  the source's loops: the portal loop, the platform loop, the spike loop with its early exit, the
  30-push burst and the backward splice over the trail. Each method is proved to move `Snapshot()`
  exactly as the matching `Step` or `Control` function does. `Update` and the handlers also keep
  `Valid()`.

Numbers are exact `real`s. Where game.js mixes integers and floats, the tile coordinates are `int` and
scaled by `TILE_SIZE`.

## Model

| member | source | states |
|---|---|---|
| Levels.GenerateSpikes | levels.js:81-94 | The nested loops return exactly `Expand(length, patterns)`: each pattern's run, in pattern order. |
| Levels.PushRun | levels.js:86-90 | The inner stepped loop appends exactly the pattern's run to the list built so far. |
| Levels.RunOnRow | levels.js:83-89 | Every spike of one pattern's run is on row 8, lies between the current column and `end`, and lies before `length`. |
| Levels.RunMembers | levels.js:86-88 | `Spike(c, 8)` is in a run iff `c = x + k*every` for some k >= 0 with `c <= end` and `c < length`. |
| Levels.RunIncreasing | levels.js:86-89 | With `every >= 1`, the columns within one pattern's run strictly increase. |
| Levels.RunLength | levels.js:86-90 | A run has as many spikes as there are k >= 0 with `start + k*every <= min(end, length-1)`. |
| Levels.ExpandLength | levels.js:82-93 | The output length is the sum of these counts over the patterns; no patterns give no spikes. |
| Levels.ExpandOnRow | levels.js:83-89 | Every generated spike is on row 8 with `x < length`. |
| Levels.ExpandMembers | levels.js:85-91 | A spike is generated iff it is on row 8 at a column that some pattern produces. |
| Levels.ExpandAppend | levels.js:85-91 | The spikes come out in pattern order: expanding `ps + qs` gives the expansion of `ps` followed by that of `qs`. |
| Levels.Build | levels.js:2-78 | A level record keeps its blueprint's name, platforms, portals, `endX` and `length`, and its spikes lie on row 8 at columns before `length`. |
| Levels.BuildLevels | levels.js:1-79 | Evaluating the table gives one record per blueprint, in order, each built from its blueprint's own patterns. |
| Levels.CatalogueShape | levels.js:27-77 | There are two levels, with `endX`/`length` 390/400 and 410/420 and no platforms. |
| Levels.CatalogueSound | levels.js:7-78 | Every built-in level has forward strides, `0 < endX < length`, `length >= 20` and no platforms, and so does its built record. |
| Levels.NeonGatewayPortals | levels.js:28-37 | Neon Gateway's portals alternate ship, cube, ..., and their columns strictly increase. |
| Levels.CosmicTunnelPortals | levels.js:65-75 | Cosmic Tunnel's portals alternate ship, cube, ..., and their columns strictly increase. |
| Levels.LevelsPortals | levels.js:28-75 | In every built-in level, portal modes alternate starting with ship and portal columns strictly increase. |
| Step.Thrust | game.js:121-128 | Holding thrusts up and stops at -9; releasing sinks and stops at 10; a speed in [-9, 10] stays in [-9, 10]. |
| StepProperties.IdleUnlessPlaying | game.js:110-111 | A tick outside the playing state changes nothing. |
| StepProperties.TickAdvances | game.js:113-119 | A playing tick counts one frame and moves the avatar exactly 6 to the right. |
| StepProperties.ScanPortalsKeeps | game.js:170-192 | The portal loop touches none of the bookkeeping fields and leaves the jump buffer alone. |
| StepProperties.ScanPlatformsKeeps | game.js:198-224 | The platform loop keeps the mode, the bookkeeping and the ship speed; it can only clear the buffer by firing a jump. |
| StepProperties.IntegrateKeeps | game.js:113-224 | Everything before the spike test keeps the bookkeeping fields as motion left them. |
| StepProperties.BufferWindow | game.js:115-117 | A fresh 150 ms buffer is still positive after 8 countdowns and spent from the 9th on. |
| StepProperties.TickBuffer | game.js:115-117 | After a tick the buffer is the counted-down value, or 0 because a held or buffered jump fired. |
| StepProperties.FlyStaysInRange | game.js:121-134 | Ship mode keeps `shipVY` in [-9, 10] and moves the avatar by it, with no ground clamp. |
| StepProperties.LandOutcome | game.js:150-160 | A landing puts the bottom on the surface; a held or buffered jump then sets vy -14, airborne, buffer 0, otherwise vy 0 and grounded. |
| StepProperties.FallStaysAboveGround | game.js:136-162 | Cube gravity never leaves the avatar's bottom below the ground. A fall that stays above the ground only adds gravity. A landing without a jump rests at `groundY - height`, and a landing with one jumps. |
| StepProperties.RestingTick | game.js:110-270 | On a course with no spikes, portals or platforms, with no input and short of the finish, one tick moves a cube resting on the ground 6 to the right. It is still playing and resting, and nothing else of the avatar changes. |
| StepProperties.RestingStaysResting | game.js:136-162 | A cube at rest on the ground with no jump pending stays at rest. |
| StepProperties.PlatformLanding | game.js:198-224 | A platform lands the avatar only when it overlaps and comes from above with `vy > 0` and `bottom - vy <= platY + 5`. Otherwise the platform changes nothing. |
| StepProperties.SameModePortal | game.js:176 | A portal to the current mode changes nothing. |
| StepProperties.PortalToShip | game.js:179-182 | Entering a ship portal sets `shipVY = 0`, `shipRotation = 0` and `y = portal.y*45`. |
| StepProperties.PortalToCube | game.js:183-188 | Entering a cube portal lifts y to at most `(GROUND_Y-1)*45 - height`, with vy 0 and grounded. |
| StepProperties.ScanSameMode | game.js:170-192 | A scan in which every portal asks for the current mode is a no-op. |
| StepProperties.ScanCanSwitchBack | game.js:170-192 | The loop has no `break`, so a later portal in the same scan switches straight back. |
| StepProperties.DeathTick | game.js:226-240 | A spike hit leaves the avatar dead in the dead state, with exactly 30 opaque particles appended at its centre. Camera, score and trail are untouched. |
| StepProperties.DeadIffHit | game.js:226-240 | A playing tick ends dead exactly when some spike is within the collision size. |
| StepProperties.CameraInView | game.js:247-249 | The camera lies in `[0, (length-20)*45]` when `length >= 20`. |
| StepProperties.ScoreBounds | game.js:251 | The score is at most 100, at least 0 for `x >= 0`, and 100 from `endX*45` on. |
| StepProperties.ScoreMonotone | game.js:251 | The score never drops as x grows. |
| StepProperties.ScoreNeverDrops | game.js:110-251 | When a tick leaves the session running, the score after the following tick is at least the score after this one. |
| StepProperties.FadedAlive | game.js:264-269 | The fade never grows the trail, leaves no sample at alpha 0 or below, and keeps only faded copies of earlier samples. |
| StepProperties.FadedKeeps | game.js:264-269 | A sample that is still visible after fading is kept. |
| StepProperties.SurvivedTick | game.js:242-269 | A survived tick has the camera in view and the score in [0, 100] (100 past the finish). It is a win iff x passed `endX*45`, and otherwise still playing. Every trail sample is alive. The camera and the score follow the new x, on a win as well. |
| StepProperties.RestingRun | game.js:110-270 | On an empty course with no input, n ticks move the resting cube 6n to the right. It stays on the ground, alive or not as before, at the same height with vy 0, still playing in cube mode, and the buffer is unchanged. |
| Control.LoadLevelSelects | game.js:66-85 | `loadLevel` selects the index, or 0 past the last level. It resets the run and keeps the held key, the buffer and the run state. |
| Control.ResetPlayerRestores | game.js:87-103 | `resetPlayer` resets the run and also releases the jump and clears the buffer, keeping the level, the state and the frame count. |
| Control.OtherKeysIgnored | game.js:589 | A key that is not a jump key changes nothing. |
| Control.InputRestarts | game.js:599-610 | From the menu or after a death, a jump input starts the same level afresh at the start position. |
| Control.InputAdvancesLevel | game.js:611-616 | After a win, a jump input plays level `(i+1) mod LEVELS.length` from the start. |
| Control.InputWhilePlaying | game.js:592-605 | While playing, a jump input jumps only from the ground. A key press also holds the jump, and in the air it arms the buffer. |
| Control.JumpThenRise | game.js:601-605 | A jump by a grounded cube at or above the ground line sets vy -14, and the next tick's motion rises with vy -13.2. |
| Control.KeyUpReleases | game.js:619-623 | Releasing a jump key clears `jumpHeld` and changes nothing else. |
| Control.InitialState | game.js:26-50 | The start-up state (the globals' initial values, then the `loadLevel(0)` at game.js:635) is the menu on level 0 at the start position, with no jump held. |
| Invariants.MotionSafe | game.js:113-162 | Motion keeps the ship speed and the buffer in range and a cube above the ground. |
| Invariants.ScanPortalsSafe | game.js:170-192 | Portals keep the ship speed in range and never put a cube below the ground. |
| Invariants.ScanPlatformsSafe | game.js:198-224 | Platforms above the ground keep a cube above the ground. |
| Invariants.IntegrateSafe | game.js:113-224 | Everything before the spike test keeps the ship speed, the buffer and the cube's height in range. |
| Invariants.TrailSafe | game.js:254-269 | Appending a sample and fading keeps every opacity in (0, 1]. |
| Invariants.TickPreservesSane | game.js:110-270 | `update()` keeps every invariant (including dead iff the dead state, and the score in [0, 100]) and keeps the camera in view. |
| Invariants.InputPreservesSane | game.js:584-617 | `handleInput` keeps every invariant; the camera either stays on the same level or is reset to 0. |
| Invariants.RespondPreservesSane | game.js:599-616 | So does the state-dependent branch alone. |
| Invariants.KeyUpPreservesSane | game.js:619-623 | `handleKeyUp` keeps every invariant and the level. |
| Invariants.InitialSane | game.js:26-50 | The start-up state satisfies every invariant, with the camera at 0. |
| Invariants.CatalogueReady | levels.js:1-79 | The built table has two playable records whose platforms are above the ground. |
| Invariants.Apply | game.js:566-575 | A frame, a press or a release keeps the level index valid; a frame keeps the level. |
| Invariants.Replay | game.js:566-575 | Any sequence of events keeps the level index valid. |
| Invariants.ApplySane | game.js:566-623 | Every event preserves the invariant and the camera bound. |
| Invariants.ReachableSane | game.js:625-637 | Every state reachable from start-up by any sequence of events satisfies the invariant and has the camera inside its level. |
| Simulation.Player.constructor | game.js:35-44 | The player object starts at x 100, y 0, at rest, in the air and alive. |
| Simulation.Player.Rest | game.js:72-77 | The avatar stands alive on the ground row at x 100, with vy 0. |
| Simulation.Game.constructor | game.js:26-50 | Start-up builds every level from its blueprint, sets the globals, and runs the `loadLevel(0)` of game.js:635. Its state equals `Control.Initial()` and satisfies `Valid()`. |
| Simulation.Game.LoadLevel | game.js:66-85 | The fields move as `Control.LoadLevel`, and `level` becomes the selected record. |
| Simulation.Game.ResetPlayer | game.js:87-103 | The fields move as `Control.ResetPlayer`; the level is unchanged. |
| Simulation.Game.ResetRun | game.js:72-84 | The fields move as `Control.ResetRun`, keeping the level and its index. |
| Simulation.Game.StartGame | game.js:577-582 | The fields move as `Control.StartGame`. |
| Simulation.Game.HandleInput | game.js:584-617 | The fields move as `Control.HandleInput`, and `Valid()` is kept. |
| Simulation.Game.HoldJump | game.js:592-597 | A jump key press holds the jump and, in the air, arms the buffer with 150. |
| Simulation.Game.Respond | game.js:599-616 | The fields move as `Control.Respond`; after a win, `level` is the next record. |
| Simulation.Game.HandleKeyUp | game.js:619-623 | The fields move as `Control.HandleKeyUp`, and `Valid()` is kept. |
| Simulation.Game.Update | game.js:110-270 | One call moves the fields as `Step.Tick` on the loaded level and keeps `Valid()`. |
| Simulation.Game.Advance | game.js:113-162 | The counter, the buffer, forward motion and the mode's vertical step move the fields as `Step.Motion`. |
| Simulation.Game.Glide | game.js:121-134 | As `Step.Fly`. |
| Simulation.Game.Drop | game.js:136-162 | As `Step.Fall`. |
| Simulation.Game.LandOn | game.js:150-160 | As `Step.Land`. |
| Simulation.Game.EnterPortals | game.js:170-192 | The portal loop moves the fields as `Step.ScanPortals` over all portals in order. |
| Simulation.Game.TryPortal | game.js:171-191 | One pass moves the fields as `Step.EnterPortal`. |
| Simulation.Game.LandOnPlatforms | game.js:195-224 | The platform loop moves the fields as `Step.ScanPlatforms` with the bottom and top taken before it. |
| Simulation.Game.TryPlatform | game.js:199-223 | One pass moves the fields as `Step.MeetPlatform`. |
| Simulation.Game.SpikeHit | game.js:226-240 | The loop reports a hit iff some spike's centre is within the collision size of the avatar's centre. |
| Simulation.Game.Die | game.js:272-291 | The fields move as `Step.Die`: dead, the dead state, and 30 particles pushed. |
| Simulation.Game.Finish | game.js:242-269 | The fields move as `Step.Finish`; a win does not skip the camera, score and trail. |
| Simulation.Game.Track | game.js:247-251 | `cameraX` becomes `Camera(x, length)` and `score` becomes `Score(x, endX)`; nothing else changes. |
| Simulation.Game.LeaveTrail | game.js:254-269 | The trail becomes the faded trail with the new sample appended every third frame. |
| Simulation.Game.FadeTrail | game.js:264-269 | The backward splice loop leaves exactly `Faded(trail)`. |

## Left out

- Rendering, the DOM and the event wiring are I/O: `showScreen`, the draw functions, `render`, the HUD
  score text, `requestAnimationFrame` in `gameLoop`, and the listeners.
- `gameLoop` is modelled only as the event sequences in `Invariants`: a frame runs `update()`.
  `updateDeathParticles` is purely visual decay and is not modelled, so a frame spent dead changes
  nothing.
- `initStars` and the random parts of `die()` are not modelled. These are the particles' velocity (which
  uses `Math.cos` and `Math.sin`), size and colour. A particle is only its position and opacity.
- `player.rotation` is not modelled: it is cosmetic and its snapping uses `Math.round` and pi. The trail
  sample therefore does not carry a rotation. `shipRotation` is kept, because it is exact arithmetic.
- Floating point: every quantity is an exact real, so IEEE-754 rounding (for example in `16.67` steps
  and in `player.x / (endX * 45)`) is not captured.
- The spike test compares squared distances instead of taking `Math.sqrt`. For non-negative sizes
  this is the same test.
- Classifying an event from its `type` and `code` strings, and `preventDefault`, are abstracted to
  `Press` (a key that is or is not a jump key, or a pointer event). `handleKeyUp` takes whether the
  released key was a jump key.
- The `data` tile strings of each level are left out; nothing in the simulation reads them.
- `level.portals` is always present in the table, so its truthiness guard is not modelled.
- Step.Tick: requires `endX > 0`, since the score divides by `endX * 45`. JavaScript would divide by
  zero. Every built-in level satisfies it.
- Levels.GenerateSpikes: requires every pattern to be empty or to step forward (`every >= 1`). For
  other patterns the JavaScript loop never ends. All built-in patterns satisfy this.
- Simulation.Game.constructor: builds the levels when the game object is created, which is where
  the script evaluates `LEVELS`.
- Invariants.ReachableSane: takes the level records as a parameter that is ready to play, rather than
  the built table itself. `Invariants.CatalogueReady` and `Simulation.Game.constructor` connect the two.
