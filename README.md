# Neon runner physics engine, in Dafny

This project models `NeonPhysicsEngine`, the engine of an endless-runner game. The player
runs at a rising speed. Obstacles and orbs scroll in from the right. A hit ends the game,
and an orb adds to the score. The engine owns one snapshot of the game (`GameState`) and
the following:

- the last frame timestamp (`lastTime`);
- an entity-id counter (`entityIdCounter`);
- whether the jump button is held (`holdingJump`).

It also exposes five operations:

- `tick(nanos)` advances the world by one frame;
- `jumpStart`, `jumpEnd`, `fastFall` and `reset` are player commands;
- `spawnManager`, `createExplosion` and `createParticle` are the private helpers that
  `tick` and `jumpStart` use.

The model has two layers.

- **Value layer** (modules `Config`, `Lists`, `Entities`, `Particles`, `Physics`,
  `Spawning`, `Collision` and `Simulation`). Each step of a tick is a function:
  speed ramp, gravity with the ground clamp, scroll and cull, particle ageing, trail,
  spawning, obstacle collision and orb pickup. The whole engine is a state machine
  `Simulation.Engine` with `Tick`, `Reset`, `JumpStart`, `JumpEnd` and `FastFall`.
  `Simulation.StateInvariant` is what every published snapshot satisfies:
  - the player is never below the ground line;
  - a grounded player rests on it with no velocity;
  - speed stays under its cap and the camera shake is not negative;
  - nothing sits left of the culling line;
  - every particle is alive;
  - within each list, ids increase and all stay below the id counter;
  - no id is carried by two lists.

  Lemmas prove that the invariant holds at start, holds after every tick and command, and
  holds along any run of inputs.
- **Imperative layer** (module `GameEngine`). The class `NeonPhysicsEngine` has the
  engine's mutable fields. Its methods follow the Kotlin code statement by statement,
  with loops where the code loops. Each method is proved equal to the corresponding
  value-layer function, for example `Model() == Simulation.Tick(cfg, old(Model()), nanos, rng)`.

Some engine constants come from a configuration object whose values are not part of this
model: gravity, jump velocity, ground line, player column, acceleration and speed cap.
They are a `Config` parameter, constrained by `ValidConfig`. The literal numbers the
engine writes inline are named constants in module `Config`.

Floats are real numbers. Y grows downward.

`kotlin.random.Random` is a stream `rng: nat -> Unit` of values in [0, 1) plus a cursor
`draws`, which advances by one per draw:
- `nextFloat()` is one draw;
- `nextBoolean()` is a draw below 0.5;
- `entries.random()` takes the kind at index `floor(3u)` of a draw `u`.

Where the engine's documentation and its code differ, the model follows the code:
- `reset()` clears the snapshot and the timestamp only. The id counter and the held
  flag survive it.
- `dt` is capped at 0.1 s but has no lower bound. A timestamp that goes backward gives a
  negative `dt`.
- A floating obstacle's collision box reaches down to the ground line, because its
  "bottom" is `top + height`.
- `fastFall` and `jumpEnd` act during game over as well: neither checks for it.
- The spawn gate is a fixed position: a new obstacle can appear only once the last one is
  left of x = 2000. The gap does not grow with speed.

## Model

| member | source | states |
|---|---|---|
| Config.Trunc | composeApp/src/commonMain/kotlin/com/app/multiplatform/engine/GameEngine.kt:134 | `toLong()` truncates toward zero: for a non-negative argument the result is its integer part, and for a negative one the integer at or just above it, never positive |
| Entities.Initial | composeApp/src/commonMain/kotlin/com/app/multiplatform/engine/GameEngine.kt:64-67 | the fresh snapshot: running, airborne, score 0, speed 15, no obstacles, orbs or particles |
| Particles.MakeParticle | composeApp/src/commonMain/kotlin/com/app/multiplatform/engine/GameEngine.kt:206-210 | a particle takes the current counter as its id, starts at full life at the given point, and advances the counter by one; a burst particle uses two draws and has both velocities in [-300, 300); a trail particle uses one draw, moves left at 200 and drifts vertically within [-25, 25) |
| Particles.Burst | composeApp/src/commonMain/kotlin/com/app/multiplatform/engine/GameEngine.kt:200-204 | `count` particles, the i-th with id counter+i, full life, placed at (playerX+30, y-30); the counter advances by `count` and the stream by `2*count` |
| Particles.BurstIdsFresh | composeApp/src/commonMain/kotlin/com/app/multiplatform/engine/GameEngine.kt:200-210 | the ids of a burst increase and lie between the old and the new counter |
| Particles.AgeParticles | composeApp/src/commonMain/kotlin/com/app/multiplatform/engine/GameEngine.kt:114-121 | the aged list holds exactly the particles whose life after `2*dt` of decay is still positive, each moved by its velocity times `dt`; every survivor is alive |
| Particles.AgeKeepsOrder | composeApp/src/commonMain/kotlin/com/app/multiplatform/engine/GameEngine.kt:114-121 | ageing keeps the particles in their order, so increasing ids stay increasing |
| Particles.AgeKeepsIds | composeApp/src/commonMain/kotlin/com/app/multiplatform/engine/GameEngine.kt:114-121 | ageing keeps ids increasing and below any bound they were below |
| Particles.AgeAddsNoIds | composeApp/src/commonMain/kotlin/com/app/multiplatform/engine/GameEngine.kt:114-121 | every particle that survives ageing carries the id of one it came from |
| Physics.Delta | composeApp/src/commonMain/kotlin/com/app/multiplatform/engine/GameEngine.kt:73 | the step is the elapsed nanoseconds in seconds when that is at most 0.1 s, and exactly 0.1 s otherwise; it is zero for equal timestamps and non-negative for non-decreasing ones |
| Physics.NextSpeed | composeApp/src/commonMain/kotlin/com/app/multiplatform/engine/GameEngine.kt:80 | the new speed is the old speed plus acceleration times `dt` when that stays at or under the cap, and the cap otherwise; it never exceeds the cap, and with a non-negative step it never decreases |
| Physics.DecayShake | composeApp/src/commonMain/kotlin/com/app/multiplatform/engine/GameEngine.kt:77 | the shake is the old shake minus `5*dt` when that is not negative, and zero otherwise; never larger than before for a non-negative step |
| Physics.Fall | composeApp/src/commonMain/kotlin/com/app/multiplatform/engine/GameEngine.kt:83-95 | the player never ends below the ground line; it lands exactly when the unclamped position reaches the ground, and then rests on it at zero velocity; otherwise it moves by the accelerated velocity times `dt` |
| Physics.SoftenedGravity | composeApp/src/commonMain/kotlin/com/app/multiplatform/engine/GameEngine.kt:85-86 | while the jump is held and the player rises, only 70 percent of gravity applies, otherwise all of it; gravity never makes the player rise faster |
| Physics.ScrollObstacles | composeApp/src/commonMain/kotlin/com/app/multiplatform/engine/GameEngine.kt:103-106 | every obstacle moves left by the scroll distance; exactly those still at or right of -200 remain |
| Physics.ScrollOrbs | composeApp/src/commonMain/kotlin/com/app/multiplatform/engine/GameEngine.kt:108-111 | every orb moves left by the scroll distance; exactly the uncollected ones still at or right of -200 remain |
| Physics.ScrollObstaclesKeepOrder | composeApp/src/commonMain/kotlin/com/app/multiplatform/engine/GameEngine.kt:103-106 | scrolling keeps the obstacles in their order, so increasing ids stay increasing |
| Physics.ScrollOrbsKeepOrder | composeApp/src/commonMain/kotlin/com/app/multiplatform/engine/GameEngine.kt:108-111 | scrolling keeps the orbs in their order, so increasing ids stay increasing |
| Physics.ScrollKeepsIds | composeApp/src/commonMain/kotlin/com/app/multiplatform/engine/GameEngine.kt:103-111 | scrolling keeps the ids of both lists increasing and below any bound they were below |
| Physics.ScrollAddsNoIds | composeApp/src/commonMain/kotlin/com/app/multiplatform/engine/GameEngine.kt:103-111 | every obstacle or orb that survives scrolling carries the id of one it came from |
| Spawning.Spawn | composeApp/src/commonMain/kotlin/com/app/multiplatform/engine/GameEngine.kt:181-197 | nothing spawns unless the last obstacle is left of 2000 (or there is none); then an obstacle is appended exactly when the draw is below 0.02; at most one orb is appended, only with an obstacle; the old lists are kept as prefixes; the new obstacle has the next id, x = 2500, width 80 for a block and 50 otherwise, height 80 when floating and in [60, 120) otherwise; the orb takes the following id and sits at x = 2520, 150 above the obstacle's top; the counter advances by the number of entities added |
| Spawning.SpawnKeepsIds | composeApp/src/commonMain/kotlin/com/app/multiplatform/engine/GameEngine.kt:189-196 | spawned entities get fresh ids at the end of their lists, so ids stay increasing and below the new counter |
| Spawning.SpawnKeepsCull | composeApp/src/commonMain/kotlin/com/app/multiplatform/engine/GameEngine.kt:189-196 | spawned entities appear right of the culling line, so no list gains anything left of it |
| Spawning.SpawnFreshIds | composeApp/src/commonMain/kotlin/com/app/multiplatform/engine/GameEngine.kt:189-196 | the only ids spawning brings in are the counter for the obstacle and the next one for the orb, and the counter moves past each one used |
| Collision.PlayerBox | composeApp/src/commonMain/kotlin/com/app/multiplatform/engine/GameEngine.kt:137-140 | the player's hit box is 40 wide and 45 tall and lies strictly inside the drawn square of side 60 |
| Collision.ObstacleBox | composeApp/src/commonMain/kotlin/com/app/multiplatform/engine/GameEngine.kt:144-148 | every obstacle's box spans its width and reaches from `height` above the ground down to the ground line, floating obstacles included |
| Collision.FirstHit | composeApp/src/commonMain/kotlin/com/app/multiplatform/engine/GameEngine.kt:143-157 | the loop that stops at the first hit reports a hit exactly when some obstacle's box overlaps the player's box |
| Collision.GroundedHit | composeApp/src/commonMain/kotlin/com/app/multiplatform/engine/GameEngine.kt:137-150 | a player on the ground hits an obstacle of height at least 60 exactly when their columns overlap, whatever the obstacle's kind |
| Collision.Pickup | composeApp/src/commonMain/kotlin/com/app/multiplatform/engine/GameEngine.kt:160-170 | the orb loop keeps at most the orbs it was given; the bonus is 500 per removed orb; each removed orb yields 10 burst particles; the counter advances by one and the stream by two per particle |
| Collision.PickupSelects | composeApp/src/commonMain/kotlin/com/app/multiplatform/engine/GameEngine.kt:160-170 | an orb is kept exactly when it is not within pickup distance of the player |
| Collision.PickupBursts | composeApp/src/commonMain/kotlin/com/app/multiplatform/engine/GameEngine.kt:165-167 | the i-th burst particle of the orb loop has id counter+i and full life |
| Collision.PickupKeepsIds | composeApp/src/commonMain/kotlin/com/app/multiplatform/engine/GameEngine.kt:160-170 | removing orbs keeps the remaining ids increasing and below any bound they were below |
| Collision.PickupAddsNoIds | composeApp/src/commonMain/kotlin/com/app/multiplatform/engine/GameEngine.kt:160-170 | the orb loop brings in no orb id: it only removes orbs |
| Collision.PickupIdsFresh | composeApp/src/commonMain/kotlin/com/app/multiplatform/engine/GameEngine.kt:165-167 | the pickup bursts have increasing ids between the old and the new counter, and positive life |
| Simulation.TickClock | composeApp/src/commonMain/kotlin/com/app/multiplatform/engine/GameEngine.kt:70-74 | every tick records its timestamp; the first tick does nothing else; a running tick stamps the snapshot with it |
| Simulation.TickFreeze | composeApp/src/commonMain/kotlin/com/app/multiplatform/engine/GameEngine.kt:77 | after game over a tick changes only the camera shake, which decays by `5*dt` and stops at zero; no id is used |
| Simulation.TickSpeed | composeApp/src/commonMain/kotlin/com/app/multiplatform/engine/GameEngine.kt:80 | after a running tick the speed is at most the cap, and with time moving forward it has not decreased |
| Simulation.TickGround | composeApp/src/commonMain/kotlin/com/app/multiplatform/engine/GameEngine.kt:83-100 | after a running tick the player is where gravity and the ground clamp put it: never below the ground line, and at rest on it when grounded |
| Simulation.PipelineObstacles | composeApp/src/commonMain/kotlin/com/app/multiplatform/engine/GameEngine.kt:103-129 | the published obstacles are the survivors of scrolling by speed times `dt`, in order, plus at most one new obstacle at x = 2500 with a fresh id, spawned only when the gate is open |
| Simulation.TickCollision | composeApp/src/commonMain/kotlin/com/app/multiplatform/engine/GameEngine.kt:132-157 | the game is over after a running tick exactly when the player's box overlaps one of the published obstacles; then the shake is 1, otherwise it has decayed |
| Simulation.PipelineOrbs | composeApp/src/commonMain/kotlin/com/app/multiplatform/engine/GameEngine.kt:108-129 | the orbs the pickup loop sees are the uncollected survivors of scrolling, in order, plus at most one spawned orb |
| Simulation.PipelineScore | composeApp/src/commonMain/kotlin/com/app/multiplatform/engine/GameEngine.kt:160-170 | the published orbs are exactly the candidates out of pickup distance of the new position; the score grows by the truncated speed/1000 plus 500 per removed orb |
| Simulation.ScoreMonotone | composeApp/src/commonMain/kotlin/com/app/multiplatform/engine/GameEngine.kt:134 | a running tick with time moving forward, from a speed between 0 and the cap, never lowers the score |
| Simulation.TrailKeepsIds | composeApp/src/commonMain/kotlin/com/app/multiplatform/engine/GameEngine.kt:124-126 | after the trail step the particle ids stay increasing and below the counter, every life stays positive, and the counter never moves backward |
| Simulation.TrailEmits | composeApp/src/commonMain/kotlin/com/app/multiplatform/engine/GameEngine.kt:124-126 | exactly when the player is airborne and the previous timestamp is a multiple of 5, one particle is appended after the others, with the counter as its id, full life, at (playerX+30, y+30) and moving left at 200, and the counter moves by one; otherwise nothing changes; no other id is brought in |
| Simulation.CrashIdsFresh | composeApp/src/commonMain/kotlin/com/app/multiplatform/engine/GameEngine.kt:154 | the crash burst's ids increase and lie between the old and the new counter, and its particles are alive |
| Simulation.PipelineParticles | composeApp/src/commonMain/kotlin/com/app/multiplatform/engine/GameEngine.kt:114-167 | the published particles (aged, trail, crash, pickups) have increasing ids below the new counter and positive life |
| Simulation.PipelineEntities | composeApp/src/commonMain/kotlin/com/app/multiplatform/engine/GameEngine.kt:103-170 | the published obstacles and orbs have increasing ids below the new counter and lie right of the culling line; the counter never moves backward |
| Simulation.StagesEntityIds | composeApp/src/commonMain/kotlin/com/app/multiplatform/engine/GameEngine.kt:103-170 | every obstacle or orb a running tick publishes keeps an old id, or is the spawned obstacle with the counter as the trail left it, or the spawned orb with the id after that; the counter only moves forward through the stages |
| Simulation.StagesParticleIds | composeApp/src/commonMain/kotlin/com/app/multiplatform/engine/GameEngine.kt:114-167 | every particle a running tick publishes keeps an old id, or is the trail particle with an id taken before the spawn step, or belongs to the crash or pickup bursts with ids taken after it |
| Simulation.PipelineUnshared | composeApp/src/commonMain/kotlin/com/app/multiplatform/engine/GameEngine.kt:103-177 | no id of the published snapshot is carried by two of its lists |
| Simulation.PipelineKeepsInvariant | composeApp/src/commonMain/kotlin/com/app/multiplatform/engine/GameEngine.kt:76-177 | a running tick's snapshot satisfies the state invariant for the new counter |
| Simulation.TickKeepsInvariant | composeApp/src/commonMain/kotlin/com/app/multiplatform/engine/GameEngine.kt:69-179 | every tick, whatever its state and timestamp, keeps the state invariant and never moves the counter backward |
| Simulation.ResetFacts | composeApp/src/commonMain/kotlin/com/app/multiplatform/engine/GameEngine.kt:64-67 | reset yields the initial snapshot with no timestamp, keeps the counter and the held flag, and is idempotent |
| Simulation.JumpStartFacts | composeApp/src/commonMain/kotlin/com/app/multiplatform/engine/GameEngine.kt:27-46 | after game over a jump resets; on the ground it sets the upward jump velocity, leaves the ground and appends, after the old particles, exactly the 5-particle burst at (playerX+30, playerY-30), moving the counter and stream as that burst does, with the timestamp and everything else unchanged; in the air it only records that the jump is held |
| Simulation.JumpEndFacts | composeApp/src/commonMain/kotlin/com/app/multiplatform/engine/GameEngine.kt:48-56 | releasing clears the held flag; the velocity changes exactly when it is below -300, and then it is halved (so the player still rises, faster than 150); nothing else changes |
| Simulation.FastFallFacts | composeApp/src/commonMain/kotlin/com/app/multiplatform/engine/GameEngine.kt:58-62 | fast fall adds 800 to the velocity exactly when the player is airborne and changes nothing else |
| Simulation.CommandsKeepInvariant | composeApp/src/commonMain/kotlin/com/app/multiplatform/engine/GameEngine.kt:27-67 | every command keeps the state invariant, and the counter never moves backward |
| Simulation.StartKeepsInvariant | composeApp/src/commonMain/kotlin/com/app/multiplatform/engine/GameEngine.kt:19-25 | a fresh engine satisfies the state invariant |
| Simulation.DistinctIds | composeApp/src/commonMain/kotlin/com/app/multiplatform/engine/GameEngine.kt:189-209 | in a snapshot that keeps the invariant no two obstacles, orbs or particles share an id, within a list or across lists |
| Simulation.RunKeepsInvariant | composeApp/src/commonMain/kotlin/com/app/multiplatform/engine/GameEngine.kt:24 | along any run of frames and commands the invariant holds (ids increasing within each list, no id shared between lists, all below the counter) and the counter never moves backward, so an id is never given to two entities |
| Simulation.StepForward | composeApp/src/commonMain/kotlin/com/app/multiplatform/engine/GameEngine.kt:69-74 | with frame timestamps that never go backward, one frame or command keeps the speed between 15 and the cap and leaves the engine's timestamp at or below every later frame |
| Simulation.RunSpeed | composeApp/src/commonMain/kotlin/com/app/multiplatform/engine/GameEngine.kt:80 | with frame timestamps that never go backward, the speed stays between 15 and the cap along any run of frames and commands, resets included |
| Simulation.RunScoreMonotone | composeApp/src/commonMain/kotlin/com/app/multiplatform/engine/GameEngine.kt:134 | from any engine reached from a fresh one by frames and commands with timestamps that never go backward, the next frame never lowers the score |
| GameEngine.NeonPhysicsEngine.constructor | composeApp/src/commonMain/kotlin/com/app/multiplatform/engine/GameEngine.kt:19-25 | a new engine is the fresh engine of the value layer: initial snapshot, no timestamp, counter 0, jump not held |
| GameEngine.NeonPhysicsEngine.NextFloat | composeApp/src/commonMain/kotlin/com/app/multiplatform/engine/GameEngine.kt:207 | a draw returns the stream's next value and advances the cursor by one, touching nothing else |
| GameEngine.NeonPhysicsEngine.CreateParticle | composeApp/src/commonMain/kotlin/com/app/multiplatform/engine/GameEngine.kt:206-210 | the particle, the new counter and the stream position are those of `Particles.MakeParticle` |
| GameEngine.NeonPhysicsEngine.CreateExplosion | composeApp/src/commonMain/kotlin/com/app/multiplatform/engine/GameEngine.kt:200-204 | the loop's particles, counter and stream position are those of `Particles.Burst` |
| GameEngine.NeonPhysicsEngine.SpawnManager | composeApp/src/commonMain/kotlin/com/app/multiplatform/engine/GameEngine.kt:181-198 | the lists, counter and stream position after spawning are those of `Spawning.Spawn` |
| GameEngine.NeonPhysicsEngine.CollectOrbs | composeApp/src/commonMain/kotlin/com/app/multiplatform/engine/GameEngine.kt:160-170 | the orb loop's remaining orbs, bonus, particles, counter and stream position are those of `Collision.Pickup` |
| GameEngine.NeonPhysicsEngine.Reset | composeApp/src/commonMain/kotlin/com/app/multiplatform/engine/GameEngine.kt:64-67 | the engine after `reset` is `Simulation.Reset` of the engine before, and stays valid |
| GameEngine.NeonPhysicsEngine.JumpStart | composeApp/src/commonMain/kotlin/com/app/multiplatform/engine/GameEngine.kt:27-46 | the engine after `jumpStart` is `Simulation.JumpStart` of the engine before, and stays valid |
| GameEngine.NeonPhysicsEngine.JumpEnd | composeApp/src/commonMain/kotlin/com/app/multiplatform/engine/GameEngine.kt:48-56 | the engine after `jumpEnd` is `Simulation.JumpEnd` of the engine before, and stays valid |
| GameEngine.NeonPhysicsEngine.FastFall | composeApp/src/commonMain/kotlin/com/app/multiplatform/engine/GameEngine.kt:58-62 | the engine after `fastFall` is `Simulation.FastFall` of the engine before, and stays valid |
| GameEngine.NeonPhysicsEngine.Tick | composeApp/src/commonMain/kotlin/com/app/multiplatform/engine/GameEngine.kt:69-179 | the engine after `tick(nanos)` is `Simulation.Tick` of the engine before, and stays valid |
| GameEngine.NeonPhysicsEngine.Gravity | composeApp/src/commonMain/kotlin/com/app/multiplatform/engine/GameEngine.kt:83-100 | the step-by-step update of velocity, position and grounded flag gives `Physics.Fall` |
| GameEngine.NeonPhysicsEngine.Move | composeApp/src/commonMain/kotlin/com/app/multiplatform/engine/GameEngine.kt:80-111 | speed, fall and both scrolls give `Simulation.Move` |
| GameEngine.NeonPhysicsEngine.Emit | composeApp/src/commonMain/kotlin/com/app/multiplatform/engine/GameEngine.kt:123-126 | the aged particles plus the trail particle, and the counter after it, are `Simulation.Trail` |
| GameEngine.NeonPhysicsEngine.Crash | composeApp/src/commonMain/kotlin/com/app/multiplatform/engine/GameEngine.kt:143-157 | the obstacle loop reports a hit exactly when `Collision.AnyHit` holds, and its burst and counter are `Simulation.Crash` |
| GameEngine.NeonPhysicsEngine.Advance | composeApp/src/commonMain/kotlin/com/app/multiplatform/engine/GameEngine.kt:79-177 | the running-tick body publishes `Simulation.Publish` of `Simulation.Pipeline` and leaves the counter where the pipeline's last stage does |

## Left out

- The user interface, the view model and the rendering code are not part of this model.
  The configuration object `GameConfig` is not part of it either. The configuration file
  that is present carries values that do not match the engine, so the engine's constants
  from it are a `Config` parameter.
- The state stream (`MutableStateFlow`) and its atomic `update`: a method replaces the
  snapshot in one assignment, and concurrent readers are not modelled.
- IEEE single-precision floats: the model computes on reals, so rounding, NaN and infinity
  are not captured.
- Overflow of the `Long` id counter, score and timestamps: the model uses unbounded integers.
- Particle colour and size: they affect only drawing.
- `kotlin.random.Random` is replaced by an explicit stream of values in [0, 1). The draw
  order is that of the code.
- The default value of `GameState.isGrounded` is taken as `false`. The engine's
  `GameState` declaration is not part of this model.
- GameEngine.NeonPhysicsEngine.CollectOrbs: builds the list of kept orbs in order rather
  than removing through the iterator in place. The resulting list is the same, but
  in-place removal is not captured.
- The scroll, ageing and spawn-list steps of `tick` (the `mapNotNull` calls and the
  appends of `spawnManager`) run as the value-layer functions. They are not
  element-by-element loops.
