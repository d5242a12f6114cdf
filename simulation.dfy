/** The engine as a state machine over values: one tick and the four commands as
    functions of the engine's whole state, the invariant every reachable state keeps,
    and the properties the engine promises. */
module Simulation {
  import opened Config
  import opened Entities
  import opened Lists
  import opened Particles
  import opened Physics
  import opened Spawning
  import opened Collision

  /** Everything the engine holds: the published snapshot, the last timestamp, the id
      counter with the random-stream position, and whether the jump is held. */
  datatype Engine = Engine(state: GameState, lastTime: int, gen: Gen, holdingJump: bool)

  /** A fresh engine. */
  function Start(): Engine
  {
    Engine(Initial(), 0, Gen(0, 0), false)
  }

  /** What holds of every snapshot the engine publishes, given the id counter `nextId`. */
  ghost predicate StateInvariant(cfg: Config, s: GameState, nextId: int)
  {
    && s.playerY <= cfg.groundY
    && (s.isGrounded ==> s.playerY == cfg.groundY && s.velocityY == 0.0)
    && s.currentSpeed <= cfg.maxSpeed
    && s.cameraShake >= 0.0
    && (forall o :: o in s.obstacles ==> o.x >= CULL_X)
    && (forall o :: o in s.orbs ==> o.x >= CULL_X)
    && (forall p :: p in s.particles ==> p.life > 0.0)
    && Increasing(s.obstacles, ObstacleId) && Below(s.obstacles, ObstacleId, nextId)
    && Increasing(s.orbs, OrbId) && Below(s.orbs, OrbId, nextId)
    && Increasing(s.particles, ParticleId) && Below(s.particles, ParticleId, nextId)
    && Unshared(s)
  }

  /** No id is carried by two of the snapshot's lists. With ids increasing within each
      list, every entity of the snapshot has an id of its own. */
  ghost predicate Unshared(s: GameState)
  {
    && Keys(s.obstacles, ObstacleId) !! Keys(s.orbs, OrbId)
    && Keys(s.obstacles, ObstacleId) !! Keys(s.particles, ParticleId)
    && Keys(s.orbs, OrbId) !! Keys(s.particles, ParticleId)
  }

  /** The trail: one slow particle behind an airborne player on ticks whose previous
      timestamp is a multiple of 5 (Kotlin's `%` truncates, which agrees on the zero test). */
  function Trail(cfg: Config, s: GameState, body: Body, parts: seq<Particle>, g: Gen, rng: Stream): Batch
  {
    if !body.grounded && s.worldTick % 5 == 0 then
      var (p, g') := MakeParticle(cfg.playerX + 30.0, body.y + 30.0, false, g, rng);
      Batch(parts + [p], g')
    else Batch(parts, g)
  }

  /** The particles of the crash burst, if the player hit an obstacle. */
  function Crash(cfg: Config, hit: bool, py: real, g: Gen, rng: Stream): Batch
  {
    if hit then Burst(cfg, py, 20, g, rng) else Batch([], g)
  }

  /** The player's and the world's motion during one running tick. */
  datatype Motion = Motion(
    speed: real,             // the ramped speed
    shift: real,             // how far the world scrolls: speed * dt
    body: Body,              // the player after gravity and the ground clamp
    moved: seq<Obstacle>,    // obstacles scrolled by speed * dt and culled
    movedOrbs: seq<Orb>)     // uncollected orbs scrolled and culled

  /** Speed ramp, fall and scroll of one running tick of `dt` seconds. */
  function Move(cfg: Config, s: GameState, dt: real, holding: bool): Motion
    requires ValidConfig(cfg)
  {
    var speed := NextSpeed(cfg, s.currentSpeed, dt);
    var shift := Travel(speed, dt);
    Motion(speed, shift, Fall(cfg, s.playerY, s.velocityY, holding, dt),
      ScrollObstacles(s.obstacles, shift), ScrollOrbs(s.orbs, shift))
  }

  /** The intermediate results of one running tick, stage by stage. */
  datatype Stages = Stages(
    motion: Motion,
    trail: Batch,      // aged particles, plus the trail particle if any
    spawned: Spawned,  // lists after the spawn manager
    hit: bool,         // some obstacle overlaps the player
    crash: Batch,      // the crash burst, if any
    pick: Pickups)     // the orb loop

  /** One running tick of `dt` seconds: speed, fall, scroll, ageing, trail, spawn,
      obstacle collision, orb pickup, in the engine's order. */
  function Pipeline(cfg: Config, s: GameState, dt: real, holding: bool, g: Gen, rng: Stream): Stages
    requires ValidConfig(cfg)
  {
    var m := Move(cfg, s, dt, holding);
    var trail := Trail(cfg, s, m.body, AgeParticles(s.particles, dt), g, rng);
    var sp := Spawn(cfg, m.moved, m.movedOrbs, trail.gen, rng);
    var hit := AnyHit(cfg, m.body.y, sp.obstacles);
    var crash := Crash(cfg, hit, m.body.y, sp.gen, rng);
    var pick := Pickup(cfg, m.body.y, sp.orbs, crash.gen, rng);
    Stages(m, trail, sp, hit, crash, pick)
  }

  /** The pipeline assembled from its stages, each computed from the ones before it. */
  lemma PipelineFromStages(cfg: Config, s: GameState, dt: real, holding: bool, g: Gen, rng: Stream,
                           m: Motion, trail: Batch, sp: Spawned, hit: bool, crash: Batch, pick: Pickups)
    requires ValidConfig(cfg)
    requires m == Move(cfg, s, dt, holding)
    requires trail == Trail(cfg, s, m.body, AgeParticles(s.particles, dt), g, rng)
    requires sp == Spawn(cfg, m.moved, m.movedOrbs, trail.gen, rng)
    requires hit == AnyHit(cfg, m.body.y, sp.obstacles)
    requires crash == Crash(cfg, hit, m.body.y, sp.gen, rng)
    requires pick == Pickup(cfg, m.body.y, sp.orbs, crash.gen, rng)
    ensures Pipeline(cfg, s, dt, holding, g, rng) == Stages(m, trail, sp, hit, crash, pick)
  {
  }

  /** The snapshot a running tick publishes at timestamp `nanos`. */
  function Publish(s: GameState, dt: real, nanos: int, st: Stages): GameState
  {
    GameState(
      st.motion.body.y, st.motion.body.vy, st.motion.body.grounded,
      st.spawned.obstacles, st.pick.kept, st.trail.parts + st.crash.parts + st.pick.bursts,
      st.hit, s.score + Trunc(st.motion.speed / 1000.0) + st.pick.bonus, st.motion.speed, nanos,
      if st.hit then 1.0 else DecayShake(s.cameraShake, dt))
  }

  /** `tick(nanos)`: the first call after construction or reset only records the
      timestamp; after game over only the camera shake decays. */
  function Tick(cfg: Config, e: Engine, nanos: int, rng: Stream): Engine
    requires ValidConfig(cfg)
  {
    if e.lastTime == 0 then e.(lastTime := nanos)
    else
      var dt := Delta(nanos, e.lastTime);
      if e.state.isGameOver then
        e.(lastTime := nanos, state := e.state.(cameraShake := DecayShake(e.state.cameraShake, dt)))
      else
        var st := Pipeline(cfg, e.state, dt, e.holdingJump, e.gen, rng);
        e.(lastTime := nanos, state := Publish(e.state, dt, nanos, st), gen := st.pick.gen)
  }

  /** `reset()`: a fresh snapshot and no timestamp; the id counter and the held flag stay. */
  function Reset(e: Engine): Engine
  {
    e.(state := Initial(), lastTime := 0)
  }

  /** `jumpStart()`: after game over it resets; on the ground it jumps with a 5-particle
      burst; it always records that the jump is held, except when it resets. */
  function JumpStart(cfg: Config, e: Engine, rng: Stream): Engine
  {
    var s := e.state;
    if s.isGameOver then Reset(e)
    else if s.isGrounded then
      var b := Burst(cfg, s.playerY, 5, e.gen, rng);
      e.(state := s.(velocityY := -cfg.jumpVelocity, isGrounded := false, particles := s.particles + b.parts),
         gen := b.gen, holdingJump := true)
    else e.(holdingJump := true)
  }

  /** `jumpEnd()`: releases the jump and halves a fast upward velocity. */
  function JumpEnd(e: Engine): Engine
  {
    var s := e.state;
    e.(holdingJump := false,
       state := if s.velocityY < JUMP_CUT then s.(velocityY := s.velocityY * 0.5) else s)
  }

  /** `fastFall()`: pushes an airborne player down by 800. */
  function FastFall(e: Engine): Engine
  {
    var s := e.state;
    e.(state := if !s.isGrounded then s.(velocityY := s.velocityY + FAST_FALL_BOOST) else s)
  }

  // ---------------------------------------------------------------------------
  // Properties of a tick

  /** The first tick only records the timestamp; every tick records it, and a running
      tick stamps the snapshot with it. */
  lemma TickClock(cfg: Config, e: Engine, nanos: int, rng: Stream)
    requires ValidConfig(cfg)
    ensures Tick(cfg, e, nanos, rng).lastTime == nanos
    ensures e.lastTime == 0 ==> Tick(cfg, e, nanos, rng) == e.(lastTime := nanos)
    ensures e.lastTime != 0 && !e.state.isGameOver ==> Tick(cfg, e, nanos, rng).state.worldTick == nanos
  {
  }

  /** Game over freezes everything but the camera shake, which decays toward zero. */
  lemma TickFreeze(cfg: Config, e: Engine, nanos: int, rng: Stream)
    requires ValidConfig(cfg)
    requires e.lastTime != 0 && e.state.isGameOver
    ensures var r := Tick(cfg, e, nanos, rng);
      && r.gen == e.gen && r.holdingJump == e.holdingJump
      && r.state == e.state.(cameraShake := r.state.cameraShake)
      && r.state.cameraShake == Max(e.state.cameraShake - Delta(nanos, e.lastTime) * SHAKE_DECAY, 0.0)
  {
  }

  /** A running tick publishes what the pipeline computes. */
  lemma TickRunning(cfg: Config, e: Engine, nanos: int, rng: Stream)
    requires ValidConfig(cfg)
    requires e.lastTime != 0 && !e.state.isGameOver
    ensures var dt := Delta(nanos, e.lastTime);
      var st := Pipeline(cfg, e.state, dt, e.holdingJump, e.gen, rng);
      Tick(cfg, e, nanos, rng) ==
        e.(lastTime := nanos, state := Publish(e.state, dt, nanos, st), gen := st.pick.gen)
  {
  }

  /** Speed never exceeds the cap after a running tick, and for a non-negative step it does
      not drop. */
  lemma TickSpeed(cfg: Config, e: Engine, nanos: int, rng: Stream)
    requires ValidConfig(cfg)
    requires e.lastTime != 0 && !e.state.isGameOver
    ensures var r := Tick(cfg, e, nanos, rng).state;
      && r.currentSpeed <= cfg.maxSpeed
      && (nanos >= e.lastTime && e.state.currentSpeed <= cfg.maxSpeed ==> e.state.currentSpeed <= r.currentSpeed)
  {
    TickRunning(cfg, e, nanos, rng);
  }

  /** Ground clamp: the player's new position and velocity are those of `Fall`, so the
      player never ends below the ground line, and when grounded rests on it at rest. */
  lemma TickGround(cfg: Config, e: Engine, nanos: int, rng: Stream)
    requires ValidConfig(cfg)
    requires e.lastTime != 0 && !e.state.isGameOver
    ensures var r := Tick(cfg, e, nanos, rng).state;
      && Body(r.playerY, r.velocityY, r.isGrounded) ==
           Fall(cfg, e.state.playerY, e.state.velocityY, e.holdingJump, Delta(nanos, e.lastTime))
      && r.playerY <= cfg.groundY
      && (r.isGrounded ==> r.playerY == cfg.groundY && r.velocityY == 0.0)
  {
    TickRunning(cfg, e, nanos, rng);
  }

  /** Scroll, cull and spawn of obstacles: the new list is the scrolled survivors, in their
      order, followed by at most one new obstacle at x = 2500, which appears only when the
      scrolled list was empty or ended left of 2000, and whose id is fresh. */
  lemma PipelineObstacles(cfg: Config, s: GameState, dt: real, holding: bool, g: Gen, rng: Stream)
    requires ValidConfig(cfg)
    ensures var st := Pipeline(cfg, s, dt, holding, g, rng);
      var moved := st.motion.moved;
      var r := st.spawned.obstacles;
      && st.motion.shift == st.motion.speed * dt
      && moved == ScrollObstacles(s.obstacles, st.motion.shift)
      && |moved| <= |r| <= |moved| + 1
      && r[..|moved|] == moved
      && (|r| > |moved| ==> Gate(moved) && r[|moved|].x == SPAWN_X && r[|moved|].id >= g.nextId)
  {
    var st := Pipeline(cfg, s, dt, holding, g, rng);
    assert Advanced(g, st.trail.gen);
  }

  /** Obstacle collision ends the game, and only obstacle collision: the game is over
      exactly when the player's box overlaps one of the published obstacles, and then the
      shake is at its maximum. */
  lemma TickCollision(cfg: Config, e: Engine, nanos: int, rng: Stream)
    requires ValidConfig(cfg)
    requires e.lastTime != 0 && !e.state.isGameOver
    ensures var r := Tick(cfg, e, nanos, rng).state;
      && (r.isGameOver <==> exists i :: 0 <= i < |r.obstacles| && Hits(cfg, r.playerY, r.obstacles[i]))
      && (r.isGameOver ==> r.cameraShake == 1.0)
      && (!r.isGameOver ==> r.cameraShake == DecayShake(e.state.cameraShake, Delta(nanos, e.lastTime)))
  {
    TickRunning(cfg, e, nanos, rng);
  }

  /** Scroll, cull and spawn of orbs: the orb loop runs over the scrolled survivors, in
      their order, followed by at most one new orb. */
  lemma PipelineOrbs(cfg: Config, s: GameState, dt: real, holding: bool, g: Gen, rng: Stream)
    requires ValidConfig(cfg)
    ensures var st := Pipeline(cfg, s, dt, holding, g, rng);
      var moved := st.motion.movedOrbs;
      var candidates := st.spawned.orbs;
      && st.motion.shift == st.motion.speed * dt
      && moved == ScrollOrbs(s.orbs, st.motion.shift)
      && |moved| <= |candidates| <= |moved| + 1 && candidates[..|moved|] == moved
  {
    var st := Pipeline(cfg, s, dt, holding, g, rng);
    assert st.motion == Move(cfg, s, dt, holding);
    assert st.spawned == Spawn(cfg, st.motion.moved, st.motion.movedOrbs, st.trail.gen, rng);
  }

  /** Orbs and scoring: the orb loop removes exactly the orbs within pickup distance, and
      the score grows by the passive increment plus 500 per removed orb. */
  lemma PipelineScore(cfg: Config, s: GameState, dt: real, holding: bool, nanos: int, g: Gen, rng: Stream)
    requires ValidConfig(cfg)
    ensures var st := Pipeline(cfg, s, dt, holding, g, rng);
      var candidates := st.spawned.orbs;
      var r := Publish(s, dt, nanos, st);
      && r.score == s.score + Trunc(st.motion.speed / 1000.0) + ORB_BONUS * (|candidates| - |r.orbs|)
      && (forall o :: o in r.orbs ==> o in candidates && !Picks(cfg, r.playerY, o))
      && (forall o :: o in candidates && !Picks(cfg, r.playerY, o) ==> o in r.orbs)
  {
    var st := Pipeline(cfg, s, dt, holding, g, rng);
    var r := Publish(s, dt, nanos, st);
    var py, candidates := st.motion.body.y, st.spawned.orbs;
    assert r.orbs == st.pick.kept && r.playerY == py;
    assert st.pick == Pickup(cfg, py, candidates, st.crash.gen, rng);
    PickupSelects(cfg, py, candidates, st.crash.gen, rng);
  }

  /** While running, with time moving forward and a non-negative speed, the score never
      decreases. */
  lemma ScoreMonotone(cfg: Config, e: Engine, nanos: int, rng: Stream)
    requires ValidConfig(cfg)
    requires e.lastTime != 0 && !e.state.isGameOver
    requires nanos >= e.lastTime && 0.0 <= e.state.currentSpeed <= cfg.maxSpeed
    ensures Tick(cfg, e, nanos, rng).state.score >= e.state.score
  {
    TickRunning(cfg, e, nanos, rng);
  }

  /** The trail particle, if any, takes the next id at the end of the list. */
  lemma TrailKeepsIds(cfg: Config, s: GameState, body: Body, parts: seq<Particle>, g: Gen, rng: Stream)
    requires Increasing(parts, ParticleId) && Below(parts, ParticleId, g.nextId)
    requires forall p :: p in parts ==> p.life > 0.0
    ensures var t := Trail(cfg, s, body, parts, g, rng);
      && Increasing(t.parts, ParticleId) && Below(t.parts, ParticleId, t.gen.nextId)
      && (forall p :: p in t.parts ==> p.life > 0.0)
      && Advanced(g, t.gen)
  {
    var t := Trail(cfg, s, body, parts, g, rng);
    if !body.grounded && s.worldTick % 5 == 0 {
      var p := t.parts[|parts|];
      assert t.parts == parts + [p];
      AppendIncreasing(parts, [p], ParticleId, g.nextId);
    }
  }

  /** In a snapshot that keeps the invariant, every entity has an id of its own: no two
      obstacles, orbs or particles share one, within a list or across lists. */
  lemma DistinctIds(cfg: Config, s: GameState, nextId: int)
    requires StateInvariant(cfg, s, nextId)
    ensures forall i, j :: 0 <= i < j < |s.obstacles| ==> s.obstacles[i].id != s.obstacles[j].id
    ensures forall i, j :: 0 <= i < j < |s.orbs| ==> s.orbs[i].id != s.orbs[j].id
    ensures forall i, j :: 0 <= i < j < |s.particles| ==> s.particles[i].id != s.particles[j].id
    ensures forall o, b :: o in s.obstacles && b in s.orbs ==> o.id != b.id
    ensures forall o, p :: o in s.obstacles && p in s.particles ==> o.id != p.id
    ensures forall b, p :: b in s.orbs && p in s.particles ==> b.id != p.id
  {
    forall o, b | o in s.obstacles && b in s.orbs ensures o.id != b.id {
      assert ObstacleId(o) in Keys(s.obstacles, ObstacleId) && OrbId(b) in Keys(s.orbs, OrbId);
    }
    forall o, p | o in s.obstacles && p in s.particles ensures o.id != p.id {
      assert ObstacleId(o) in Keys(s.obstacles, ObstacleId) && ParticleId(p) in Keys(s.particles, ParticleId);
    }
    forall b, p | b in s.orbs && p in s.particles ensures b.id != p.id {
      assert OrbId(b) in Keys(s.orbs, OrbId) && ParticleId(p) in Keys(s.particles, ParticleId);
    }
  }

  /** The trail: exactly when the player is airborne and the previous timestamp is a
      multiple of 5, one particle is appended after the given ones, with the next id and
      full life, at (playerX + 30, y + 30), moving left at 200; otherwise nothing changes.
      No other id is brought in. */
  lemma TrailEmits(cfg: Config, s: GameState, body: Body, parts: seq<Particle>, g: Gen, rng: Stream)
    ensures var t := Trail(cfg, s, body, parts, g, rng);
      && |parts| <= |t.parts| <= |parts| + 1
      && t.parts[..|parts|] == parts
      && (|t.parts| == |parts| + 1 <==> !body.grounded && s.worldTick % 5 == 0)
      && (|t.parts| == |parts| + 1 ==>
            && t.parts[|parts|].id == g.nextId && t.parts[|parts|].life == 1.0
            && t.parts[|parts|].x == cfg.playerX + 30.0 && t.parts[|parts|].y == body.y + 30.0
            && t.parts[|parts|].vx == -200.0
            && t.gen.nextId == g.nextId + 1)
      && (|t.parts| == |parts| ==> t.gen == g)
      && (forall x :: x in Keys(t.parts, ParticleId) ==>
            x in Keys(parts, ParticleId) || g.nextId <= x < t.gen.nextId)
  {
    var t := Trail(cfg, s, body, parts, g, rng);
    forall x | x in Keys(t.parts, ParticleId)
      ensures x in Keys(parts, ParticleId) || g.nextId <= x < t.gen.nextId
    {
      var p :| p in t.parts && ParticleId(p) == x;
      var i :| 0 <= i < |t.parts| && t.parts[i] == p;
      if i < |parts| { assert p == t.parts[..|parts|][i]; assert p in parts; }
    }
  }

  /** The crash burst's ids are fresh and increasing. */
  lemma CrashIdsFresh(cfg: Config, hit: bool, py: real, g: Gen, rng: Stream)
    ensures var c := Crash(cfg, hit, py, g, rng);
      && Increasing(c.parts, ParticleId)
      && (forall p :: p in c.parts ==> g.nextId <= p.id < c.gen.nextId && p.life > 0.0)
      && Advanced(g, c.gen)
  {
    if hit {
      BurstIdsFresh(cfg, py, 20, g, rng);
      var b := Burst(cfg, py, 20, g, rng);
      forall p | p in b.parts ensures p.life > 0.0 {
        var i :| 0 <= i < |b.parts| && b.parts[i] == p;
      }
    }
  }

  /** The particle list a running tick publishes: ids increasing and below the new counter,
      every life positive. */
  lemma PipelineParticles(cfg: Config, s: GameState, dt: real, holding: bool, g: Gen, rng: Stream)
    requires ValidConfig(cfg)
    requires Increasing(s.particles, ParticleId) && Below(s.particles, ParticleId, g.nextId)
    ensures var st := Pipeline(cfg, s, dt, holding, g, rng);
      var ps := st.trail.parts + st.crash.parts + st.pick.bursts;
      && Increasing(ps, ParticleId) && Below(ps, ParticleId, st.pick.gen.nextId)
      && (forall p :: p in ps ==> p.life > 0.0)
  {
    var st := Pipeline(cfg, s, dt, holding, g, rng);
    var aged := AgeParticles(s.particles, dt);
    AgeKeepsIds(s.particles, dt, g.nextId);
    TrailKeepsIds(cfg, s, st.motion.body, aged, g, rng);
    assert st.trail == Trail(cfg, s, st.motion.body, aged, g, rng);
    CrashIdsFresh(cfg, st.hit, st.motion.body.y, st.spawned.gen, rng);
    AppendIncreasing(st.trail.parts, st.crash.parts, ParticleId, st.spawned.gen.nextId);
    var early := st.trail.parts + st.crash.parts;
    assert Below(early, ParticleId, st.crash.gen.nextId);
    PickupIdsFresh(cfg, st.motion.body.y, st.spawned.orbs, st.crash.gen, rng);
    AppendIncreasing(early, st.pick.bursts, ParticleId, st.crash.gen.nextId);
    assert forall p :: p in early + st.pick.bursts ==> p in early || p in st.pick.bursts;
  }

  /** The obstacle and orb lists a running tick publishes: ids increasing and below the new
      counter, nothing left of the culling line. */
  lemma PipelineEntities(cfg: Config, s: GameState, dt: real, holding: bool, g: Gen, rng: Stream)
    requires ValidConfig(cfg)
    requires Increasing(s.obstacles, ObstacleId) && Below(s.obstacles, ObstacleId, g.nextId)
    requires Increasing(s.orbs, OrbId) && Below(s.orbs, OrbId, g.nextId)
    ensures var st := Pipeline(cfg, s, dt, holding, g, rng);
      && Increasing(st.spawned.obstacles, ObstacleId) && Below(st.spawned.obstacles, ObstacleId, st.pick.gen.nextId)
      && Increasing(st.pick.kept, OrbId) && Below(st.pick.kept, OrbId, st.pick.gen.nextId)
      && (forall o :: o in st.spawned.obstacles ==> o.x >= CULL_X)
      && (forall o :: o in st.pick.kept ==> o.x >= CULL_X)
      && Advanced(g, st.pick.gen)
  {
    var st := Pipeline(cfg, s, dt, holding, g, rng);
    var obs, orbs, sp := st.motion.moved, st.motion.movedOrbs, st.spawned;
    assert sp == Spawn(cfg, obs, orbs, st.trail.gen, rng);
    assert st.pick == Pickup(cfg, st.motion.body.y, sp.orbs, st.crash.gen, rng);
    ScrollKeepsIds(s.obstacles, s.orbs, st.motion.shift, g.nextId);
    // spawned entities take the next ids, at x = 2500 and 2520
    SpawnKeepsIds(cfg, obs, orbs, st.trail.gen, rng);
    SpawnKeepsCull(cfg, obs, orbs, st.trail.gen, rng);
    PickupKeepsIds(cfg, st.motion.body.y, sp.orbs, st.crash.gen, rng, sp.gen.nextId);
    PickupSelects(cfg, st.motion.body.y, sp.orbs, st.crash.gen, rng);
  }

  /** Where the obstacle and orb ids of a running tick come from: a survivor keeps an old
      id; a spawned obstacle takes the counter as the trail left it, a spawned orb the id
      after that, and the spawn step moves the counter past both. */
  lemma StagesEntityIds(cfg: Config, s: GameState, dt: real, holding: bool, g: Gen, rng: Stream, st: Stages)
    requires ValidConfig(cfg) && st == Pipeline(cfg, s, dt, holding, g, rng)
    ensures g.nextId <= st.trail.gen.nextId <= st.spawned.gen.nextId <= st.pick.gen.nextId
    ensures forall x :: x in Keys(st.spawned.obstacles, ObstacleId) ==>
      x in Keys(s.obstacles, ObstacleId) || (x == st.trail.gen.nextId && st.trail.gen.nextId < st.spawned.gen.nextId)
    ensures forall x :: x in Keys(st.pick.kept, OrbId) ==>
      x in Keys(s.orbs, OrbId) || (x == st.trail.gen.nextId + 1 && st.trail.gen.nextId + 1 < st.spawned.gen.nextId)
  {
    var m, trail, sp := st.motion, st.trail, st.spawned;
    assert m == Move(cfg, s, dt, holding);
    assert trail == Trail(cfg, s, m.body, AgeParticles(s.particles, dt), g, rng);
    assert sp == Spawn(cfg, m.moved, m.movedOrbs, trail.gen, rng);
    assert st.crash == Crash(cfg, st.hit, m.body.y, sp.gen, rng);
    assert st.pick == Pickup(cfg, m.body.y, sp.orbs, st.crash.gen, rng);
    TrailKeepsIds(cfg, s, m.body, [], g, rng);
    ScrollAddsNoIds(s.obstacles, s.orbs, m.shift);
    SpawnFreshIds(cfg, m.moved, m.movedOrbs, trail.gen, rng);
    PickupAddsNoIds(cfg, m.body.y, sp.orbs, st.crash.gen, rng);
  }

  /** Where the particle ids of a running tick come from: an aged particle keeps an old id;
      the trail particle takes an id below the counter as the trail left it; the crash and
      pickup bursts take ids from where the spawn step left the counter. */
  lemma StagesParticleIds(cfg: Config, s: GameState, dt: real, holding: bool, g: Gen, rng: Stream, st: Stages)
    requires ValidConfig(cfg) && st == Pipeline(cfg, s, dt, holding, g, rng)
    ensures forall x :: x in Keys(st.trail.parts + st.crash.parts + st.pick.bursts, ParticleId) ==>
      || x in Keys(s.particles, ParticleId)
      || g.nextId <= x < st.trail.gen.nextId
      || st.spawned.gen.nextId <= x < st.pick.gen.nextId
  {
    var m, trail, sp, crash, pick := st.motion, st.trail, st.spawned, st.crash, st.pick;
    var aged := AgeParticles(s.particles, dt);
    assert trail == Trail(cfg, s, m.body, aged, g, rng);
    assert crash == Crash(cfg, st.hit, m.body.y, sp.gen, rng);
    assert pick == Pickup(cfg, m.body.y, sp.orbs, crash.gen, rng);
    AgeAddsNoIds(s.particles, dt);
    TrailEmits(cfg, s, m.body, aged, g, rng);
    CrashIdsFresh(cfg, st.hit, m.body.y, sp.gen, rng);
    PickupIdsFresh(cfg, m.body.y, sp.orbs, crash.gen, rng);
    var parts := trail.parts + crash.parts + pick.bursts;
    forall x | x in Keys(parts, ParticleId)
      ensures x in Keys(s.particles, ParticleId) || g.nextId <= x < trail.gen.nextId || sp.gen.nextId <= x < pick.gen.nextId
    {
      var q :| q in parts && ParticleId(q) == x;
      if q in trail.parts {
        assert x in Keys(trail.parts, ParticleId);
      } else if q in crash.parts {
      } else {
        assert q in pick.bursts;
      }
    }
  }

  /** Sets of ids that were apart stay apart when each list keeps old ids and gains only
      ids from its own fresh range: an obstacle id `t`, an orb id `t + 1`, both below `sg`,
      and particle ids in [g, t) or [sg, p). */
  lemma FreshKeepsApart(oldObs: set<int>, oldOrbs: set<int>, oldParts: set<int>,
                        obs: set<int>, orbs: set<int>, parts: set<int>, g: int, t: int, sg: int, p: int)
    requires oldObs !! oldOrbs && oldObs !! oldParts && oldOrbs !! oldParts
    requires forall x :: x in oldObs || x in oldOrbs || x in oldParts ==> x < g
    requires g <= t <= sg
    requires forall x :: x in obs ==> x in oldObs || (x == t && t < sg)
    requires forall x :: x in orbs ==> x in oldOrbs || (x == t + 1 && t + 1 < sg)
    requires forall x :: x in parts ==> x in oldParts || g <= x < t || sg <= x < p
    ensures obs !! orbs && obs !! parts && orbs !! parts
  {
    forall x | x in obs ensures x !in orbs && x !in parts {
      if x !in oldObs {
        assert x !in oldOrbs && x !in oldParts;
      }
    }
    forall x | x in orbs ensures x !in parts {
      if x !in oldOrbs {
        assert x !in oldParts;
      }
    }
  }

  /** No id of the published snapshot is shared between its lists: the survivors keep ids
      that were already apart, and every new entity takes an id of its own from the
      counter, above all the old ones. */
  lemma PipelineUnshared(cfg: Config, s: GameState, dt: real, holding: bool, nanos: int, g: Gen, rng: Stream)
    requires ValidConfig(cfg)
    requires StateInvariant(cfg, s, g.nextId)
    ensures Unshared(Publish(s, dt, nanos, Pipeline(cfg, s, dt, holding, g, rng)))
  {
    var st := Pipeline(cfg, s, dt, holding, g, rng);
    StagesEntityIds(cfg, s, dt, holding, g, rng, st);
    StagesParticleIds(cfg, s, dt, holding, g, rng, st);
    var oldObs, oldOrbs, oldParts := Keys(s.obstacles, ObstacleId), Keys(s.orbs, OrbId), Keys(s.particles, ParticleId);
    forall x | x in oldObs || x in oldOrbs || x in oldParts ensures x < g.nextId {
      if x in oldObs { var o :| o in s.obstacles && ObstacleId(o) == x; }
      else if x in oldOrbs { var o :| o in s.orbs && OrbId(o) == x; }
      else { var q :| q in s.particles && ParticleId(q) == x; }
    }
    FreshKeepsApart(oldObs, oldOrbs, oldParts,
      Keys(st.spawned.obstacles, ObstacleId), Keys(st.pick.kept, OrbId),
      Keys(st.trail.parts + st.crash.parts + st.pick.bursts, ParticleId),
      g.nextId, st.trail.gen.nextId, st.spawned.gen.nextId, st.pick.gen.nextId);
  }

  /** The stages of a running tick keep the invariant, with the counter after the pipeline. */
  lemma PipelineKeepsInvariant(cfg: Config, s: GameState, dt: real, holding: bool, nanos: int, g: Gen, rng: Stream)
    requires ValidConfig(cfg)
    requires StateInvariant(cfg, s, g.nextId)
    ensures var st := Pipeline(cfg, s, dt, holding, g, rng);
      StateInvariant(cfg, Publish(s, dt, nanos, st), st.pick.gen.nextId) && Advanced(g, st.pick.gen)
  {
    PipelineParticles(cfg, s, dt, holding, g, rng);
    PipelineEntities(cfg, s, dt, holding, g, rng);
    PipelineUnshared(cfg, s, dt, holding, nanos, g, rng);
  }

  /** Every snapshot a tick publishes keeps the invariant; ids only move forward. */
  lemma TickKeepsInvariant(cfg: Config, e: Engine, nanos: int, rng: Stream)
    requires ValidConfig(cfg)
    requires StateInvariant(cfg, e.state, e.gen.nextId)
    ensures var r := Tick(cfg, e, nanos, rng);
      StateInvariant(cfg, r.state, r.gen.nextId) && Advanced(e.gen, r.gen)
  {
    if e.lastTime != 0 && !e.state.isGameOver {
      TickRunning(cfg, e, nanos, rng);
      PipelineKeepsInvariant(cfg, e.state, Delta(nanos, e.lastTime), e.holdingJump, nanos, e.gen, rng);
    }
  }

  // ---------------------------------------------------------------------------
  // Properties of the commands

  /** `reset` always yields the initial snapshot, keeps the id counter, and is idempotent. */
  lemma ResetFacts(e: Engine)
    ensures Reset(e).state == Start().state && Reset(e).lastTime == 0
    ensures Reset(e).gen == e.gen && Reset(e).holdingJump == e.holdingJump
    ensures Reset(Reset(e)) == Reset(e)
  {
  }

  /** `jumpStart`: the three cases of the command. */
  lemma JumpStartFacts(cfg: Config, e: Engine, rng: Stream)
    ensures var r := JumpStart(cfg, e, rng);
      && (e.state.isGameOver ==> r == Reset(e))
      && (!e.state.isGameOver && e.state.isGrounded ==>
            && r.state.velocityY == -cfg.jumpVelocity && !r.state.isGrounded && r.holdingJump
            && r.state == e.state.(velocityY := r.state.velocityY, isGrounded := false, particles := r.state.particles)
            && |r.state.particles| == |e.state.particles| + 5
            && r.state.particles[..|e.state.particles|] == e.state.particles
            && r.state.particles[|e.state.particles|..] == Burst(cfg, e.state.playerY, 5, e.gen, rng).parts
            && r.lastTime == e.lastTime
            && r.gen == Burst(cfg, e.state.playerY, 5, e.gen, rng).gen)
      && (!e.state.isGameOver && !e.state.isGrounded ==> r == e.(holdingJump := true))
  {
    var r := JumpStart(cfg, e, rng);
    if !e.state.isGameOver && e.state.isGrounded {
      assert r.state.particles[..|e.state.particles|] == e.state.particles;
      assert r.state.particles[|e.state.particles|..] == Burst(cfg, e.state.playerY, 5, e.gen, rng).parts;
    }
  }

  /** `jumpEnd`: clears the held flag; cuts the velocity exactly when it is below -300,
      leaving the player rising at least at 150; touches nothing else. */
  lemma JumpEndFacts(e: Engine)
    ensures var r := JumpEnd(e);
      && !r.holdingJump && r.gen == e.gen && r.lastTime == e.lastTime
      && r.state == e.state.(velocityY := r.state.velocityY)
      && (r.state.velocityY != e.state.velocityY <==> e.state.velocityY < JUMP_CUT)
      && (e.state.velocityY < JUMP_CUT ==> e.state.velocityY < r.state.velocityY < -150.0)
      && (e.state.velocityY < JUMP_CUT ==> r.state.velocityY == e.state.velocityY * 0.5)
  {
  }

  /** `fastFall`: adds 800 to the velocity exactly when airborne; nothing else changes. */
  lemma FastFallFacts(e: Engine)
    ensures var r := FastFall(e);
      && r == e.(state := e.state.(velocityY := r.state.velocityY))
      && (r.state.velocityY == e.state.velocityY + FAST_FALL_BOOST <==> !e.state.isGrounded)
      && (e.state.isGrounded ==> r == e)
  {
  }

  /** Every command keeps the invariant and never moves the id counter backward. */
  lemma CommandsKeepInvariant(cfg: Config, e: Engine, rng: Stream)
    requires ValidConfig(cfg)
    requires StateInvariant(cfg, e.state, e.gen.nextId)
    ensures StateInvariant(cfg, Reset(e).state, Reset(e).gen.nextId)
    ensures StateInvariant(cfg, JumpEnd(e).state, JumpEnd(e).gen.nextId)
    ensures StateInvariant(cfg, FastFall(e).state, FastFall(e).gen.nextId)
    ensures var r := JumpStart(cfg, e, rng);
      StateInvariant(cfg, r.state, r.gen.nextId) && Advanced(e.gen, r.gen)
  {
    var s := e.state;
    if !s.isGameOver && s.isGrounded {
      var b := Burst(cfg, s.playerY, 5, e.gen, rng);
      BurstIdsFresh(cfg, s.playerY, 5, e.gen, rng);
      AppendIncreasing(s.particles, b.parts, ParticleId, e.gen.nextId);
      forall x | x in Keys(s.particles + b.parts, ParticleId)
        ensures x in Keys(s.particles, ParticleId) || e.gen.nextId <= x
      {
        var q :| q in s.particles + b.parts && ParticleId(q) == x;
      }
      forall x | x in Keys(s.obstacles, ObstacleId) + Keys(s.orbs, OrbId) ensures x < e.gen.nextId {
        if x in Keys(s.obstacles, ObstacleId) { var o :| o in s.obstacles && ObstacleId(o) == x; }
        else { var o :| o in s.orbs && OrbId(o) == x; }
      }
    }
  }

  /** A fresh engine satisfies the invariant. */
  lemma StartKeepsInvariant(cfg: Config)
    requires ValidConfig(cfg)
    ensures StateInvariant(cfg, Start().state, Start().gen.nextId)
  {
  }

  // ---------------------------------------------------------------------------
  // Runs of inputs

  /** What drives the engine: a frame callback with its timestamp, or one of the four
      commands. */
  datatype Input = Frame(nanos: int) | Press | Release | Dive | Restart

  function Step(cfg: Config, e: Engine, i: Input, rng: Stream): Engine
    requires ValidConfig(cfg)
  {
    match i
    case Frame(nanos) => Tick(cfg, e, nanos, rng)
    case Press => JumpStart(cfg, e, rng)
    case Release => JumpEnd(e)
    case Dive => FastFall(e)
    case Restart => Reset(e)
  }

  /** The engine after the inputs, in order. */
  function Run(cfg: Config, e: Engine, inputs: seq<Input>, rng: Stream): Engine
    requires ValidConfig(cfg)
    decreases |inputs|
  {
    if inputs == [] then e else Run(cfg, Step(cfg, e, inputs[0], rng), inputs[1..], rng)
  }

  /** Ids are never reused: along any run of frames and commands, resets included, the
      counter never moves backward and every published list keeps increasing ids below it,
      so whatever is created later carries an id no earlier entity had. */
  lemma {:induction false} RunKeepsInvariant(cfg: Config, e: Engine, inputs: seq<Input>, rng: Stream)
    requires ValidConfig(cfg)
    requires StateInvariant(cfg, e.state, e.gen.nextId)
    ensures var r := Run(cfg, e, inputs, rng);
      StateInvariant(cfg, r.state, r.gen.nextId) && Advanced(e.gen, r.gen)
    decreases |inputs|
  {
    if inputs != [] {
      var next := Step(cfg, e, inputs[0], rng);
      match inputs[0] {
        case Frame(nanos) => TickKeepsInvariant(cfg, e, nanos, rng);
        case _ => CommandsKeepInvariant(cfg, e, rng);
      }
      RunKeepsInvariant(cfg, next, inputs[1..], rng);
      assert Run(cfg, e, inputs, rng) == Run(cfg, next, inputs[1..], rng);
    }
  }

  // ---------------------------------------------------------------------------
  // Clock discipline, speed and score along runs

  /** The driver's clock: every frame timestamp of `inputs` is at least `last`, which is
      not negative, and frame timestamps never go backward. */
  ghost predicate Forward(inputs: seq<Input>, last: int)
  {
    && 0 <= last
    && (forall i :: 0 <= i < |inputs| && inputs[i].Frame? ==> last <= inputs[i].nanos)
    && (forall i, j :: 0 <= i < j < |inputs| && inputs[i].Frame? && inputs[j].Frame? ==>
          inputs[i].nanos <= inputs[j].nanos)
  }

  /** The speed lies between the start speed and the cap. */
  ghost predicate SpeedBand(cfg: Config, s: GameState)
  {
    START_SPEED <= s.currentSpeed <= cfg.maxSpeed
  }

  /** One input under a forward clock keeps the speed band, and the engine's timestamp
      stays at or below every later frame. */
  lemma StepForward(cfg: Config, e: Engine, i: Input, rest: seq<Input>, rng: Stream)
    requires ValidConfig(cfg)
    requires SpeedBand(cfg, e.state) && Forward([i] + rest, e.lastTime)
    ensures SpeedBand(cfg, Step(cfg, e, i, rng).state) && Forward(rest, Step(cfg, e, i, rng).lastTime)
  {
    var all := [i] + rest;
    assert all[0] == i;
    assert forall k :: 0 <= k < |rest| ==> rest[k] == all[k + 1];
    match i {
      case Frame(nanos) =>
        TickClock(cfg, e, nanos, rng);
        if e.lastTime != 0 && !e.state.isGameOver {
          TickSpeed(cfg, e, nanos, rng);
        }
      case _ =>
    }
  }

  /** Under a forward clock the speed never leaves the band, whatever the commands: a tick
      with a non-negative step only raises it up to the cap, `reset` restores 15, and the
      other commands leave it alone. */
  lemma {:induction false} RunSpeed(cfg: Config, e: Engine, inputs: seq<Input>, more: seq<Input>, rng: Stream)
    requires ValidConfig(cfg)
    requires SpeedBand(cfg, e.state) && Forward(inputs + more, e.lastTime)
    ensures var r := Run(cfg, e, inputs, rng);
      SpeedBand(cfg, r.state) && Forward(more, r.lastTime)
    decreases |inputs|
  {
    if inputs == [] {
      assert inputs + more == more;
    } else {
      var next := Step(cfg, e, inputs[0], rng);
      assert inputs + more == [inputs[0]] + (inputs[1..] + more);
      StepForward(cfg, e, inputs[0], inputs[1..] + more, rng);
      RunSpeed(cfg, next, inputs[1..], more, rng);
      assert Run(cfg, e, inputs, rng) == Run(cfg, next, inputs[1..], rng);
    }
  }

  /** The score never decreases on a frame: from any engine reached from a fresh one by
      frames and commands under a forward clock, the next frame leaves the score at least
      where it was. */
  lemma RunScoreMonotone(cfg: Config, inputs: seq<Input>, nanos: int, rng: Stream)
    requires ValidConfig(cfg)
    requires Forward(inputs + [Frame(nanos)], 0)
    ensures var e := Run(cfg, Start(), inputs, rng);
      Tick(cfg, e, nanos, rng).state.score >= e.state.score
  {
    RunSpeed(cfg, Start(), inputs, [Frame(nanos)], rng);
    var e := Run(cfg, Start(), inputs, rng);
    assert [Frame(nanos)][0].Frame?;
    if e.lastTime != 0 && !e.state.isGameOver {
      ScoreMonotone(cfg, e, nanos, rng);
    }
  }
}
