/** `NeonPhysicsEngine` as a mutable object: the published snapshot, the frame clock, the
    id counter and the held-jump flag are fields that the commands and `tick` update in
    place, and the random source is a stream read through a cursor. Each public method is
    proved to have exactly the effect of the matching function of `Simulation`, and to
    keep the engine's invariant. */
module GameEngine {
  import opened Config
  import opened Entities
  import opened Particles
  import opened Physics
  import opened Spawning
  import opened Collision
  import Simulation

  class NeonPhysicsEngine {
    /** The engine's constants. */
    const cfg: Config
    /** The successive values `Random.nextFloat()` returns. */
    const rng: Stream

    /** The snapshot published through `gameState`. */
    var state: GameState
    var lastTime: int
    var entityIdCounter: int
    /** How many values have been drawn from `rng` so far. */
    var draws: nat
    var holdingJump: bool

    /** The fields as a value of the state machine. */
    function Model(): Simulation.Engine
      reads this
    {
      Simulation.Engine(state, lastTime, Gen(entityIdCounter, draws), holdingJump)
    }

    /** The class invariant: a usable configuration and a snapshot that satisfies the
        engine's invariant for the current id counter. */
    ghost predicate Valid()
      reads this
    {
      ValidConfig(cfg) && Simulation.StateInvariant(cfg, state, entityIdCounter)
    }

    /** A fresh engine: the default snapshot, no timestamp, counter 0, jump released. */
    constructor(cfg: Config, rng: Stream)
      requires ValidConfig(cfg)
      ensures this.cfg == cfg && this.rng == rng
      ensures Model() == Simulation.Start() && Valid()
    {
      this.cfg := cfg;
      this.rng := rng;
      state := Initial();
      lastTime := 0;
      entityIdCounter := 0;
      draws := 0;
      holdingJump := false;
      new;
      Simulation.StartKeepsInvariant(cfg);
    }

    /** `Random.nextFloat()`: the next value of the stream. */
    method NextFloat() returns (u: Unit)
      modifies this
      ensures u == rng(old(draws)) && draws == old(draws) + 1
      ensures state == old(state) && lastTime == old(lastTime) && holdingJump == old(holdingJump)
      ensures entityIdCounter == old(entityIdCounter)
    {
      u := rng(draws);
      draws := draws + 1;
    }

    /** `createParticle`: velocities first (a burst particle draws vx and then vy, a trail
        particle draws only vy), then the particle takes the counter's value as its id. */
    method CreateParticle(x: real, y: real, burst: bool) returns (p: Particle)
      modifies this
      ensures (p, Gen(entityIdCounter, draws)) == MakeParticle(x, y, burst, old(Gen(entityIdCounter, draws)), rng)
      ensures state == old(state) && lastTime == old(lastTime) && holdingJump == old(holdingJump)
    {
      var vx: real, vy: real;
      if burst {
        var u: real := NextFloat();
        vx := (u - 0.5) * 600.0;
        u := NextFloat();
        vy := (u - 0.5) * 600.0;
      } else {
        vx := -200.0;
        var u: real := NextFloat();
        vy := (u - 0.5) * 50.0;
      }
      p := Particle(entityIdCounter, x, y, vx, vy, 1.0);
      entityIdCounter := entityIdCounter + 1;
    }

    /** `createExplosion(y, _, count)`: `count` burst particles created one after another
        at (playerX + 30, y - 30). */
    method CreateExplosion(y: real, count: nat) returns (ps: seq<Particle>)
      modifies this
      ensures Batch(ps, Gen(entityIdCounter, draws)) == Burst(cfg, y, count, old(Gen(entityIdCounter, draws)), rng)
      ensures state == old(state) && lastTime == old(lastTime) && holdingJump == old(holdingJump)
    {
      ghost var g0 := Gen(entityIdCounter, draws);
      ps := [];
      var i := 0;
      while i < count
        invariant 0 <= i <= count
        invariant Batch(ps, Gen(entityIdCounter, draws)) == Burst(cfg, y, i, g0, rng)
        invariant state == old(state) && lastTime == old(lastTime) && holdingJump == old(holdingJump)
      {
        var p := CreateParticle(cfg.playerX + 30.0, y - 30.0, true);
        ps := ps + [p];
        i := i + 1;
      }
    }

    /** `spawnManager`: appends to the two lists it is given. Behind the spacing gate one
        draw decides whether to spawn; then the kind is drawn, the height for kinds other
        than floating, and a coin for an orb 150 above the obstacle. */
    method SpawnManager(obstacles: seq<Obstacle>, orbs: seq<Orb>) returns (newObstacles: seq<Obstacle>, newOrbs: seq<Orb>)
      modifies this
      ensures Spawned(newObstacles, newOrbs, Gen(entityIdCounter, draws)) ==
        Spawn(cfg, obstacles, orbs, old(Gen(entityIdCounter, draws)), rng)
      ensures state == old(state) && lastTime == old(lastTime) && holdingJump == old(holdingJump)
    {
      newObstacles, newOrbs := obstacles, orbs;
      var lastObsX := if obstacles == [] then 0.0 else obstacles[|obstacles| - 1].x;
      if lastObsX < SPAWN_HORIZON {
        var roll := NextFloat();
        if roll < SPAWN_CHANCE {
          var pick := NextFloat();
          var kind := KindOf(pick);
          var width := if kind == Block then 80.0 else 50.0;
          var height: real;
          if kind == Floating {
            height := 80.0;
          } else {
            var u: real := NextFloat();
            height := u * 60.0 + 60.0;
          }
          newObstacles := newObstacles + [Obstacle(entityIdCounter, SPAWN_X, width, height, kind)];
          entityIdCounter := entityIdCounter + 1;
          var coin := NextFloat();
          if coin < 0.5 {
            newOrbs := newOrbs + [Orb(entityIdCounter, SPAWN_X + 20.0, cfg.groundY - height - 150.0, false)];
            entityIdCounter := entityIdCounter + 1;
          }
        }
      }
    }

    /** The orb loop of `tick`: visits the orbs in order; an orb whose distance from the
        player box's left edge (playerX + 10) and top edge (py - 50) is below 60 on both
        axes is taken out of the list, adds 500 to the bonus and a 10-particle burst at its
        height to the particles; every other orb stays, in order. */
    method CollectOrbs(py: real, orbs: seq<Orb>) returns (list: seq<Orb>, bonus: int, bursts: seq<Particle>)
      modifies this
      ensures Pickups(list, bonus, bursts, Gen(entityIdCounter, draws)) ==
        Pickup(cfg, py, orbs, old(Gen(entityIdCounter, draws)), rng)
      ensures state == old(state) && lastTime == old(lastTime) && holdingJump == old(holdingJump)
    {
      ghost var g0 := Gen(entityIdCounter, draws);
      list, bonus, bursts := [], 0, [];
      var pl := cfg.playerX + 10.0;
      var pt := py - PLAYER_SIZE + 10.0;
      for i := 0 to |orbs|
        invariant Pickups(list, bonus, bursts, Gen(entityIdCounter, draws)) == Pickup(cfg, py, orbs[..i], g0, rng)
        invariant state == old(state) && lastTime == old(lastTime) && holdingJump == old(holdingJump)
      {
        var orb := orbs[i];
        PickupNext(cfg, py, orbs, i, g0, rng);
        if Abs(pl - orb.x) < PICKUP_RADIUS && Abs(pt - orb.y) < PICKUP_RADIUS {
          bonus := bonus + ORB_BONUS;
          var b := CreateExplosion(orb.y, 10);
          bursts := bursts + b;
        } else {
          list := list + [orb];
        }
      }
      assert orbs[..|orbs|] == orbs;
    }

    /** `reset()`: the default snapshot and no timestamp; the id counter, the random
        source and the held flag are left as they are. */
    method Reset()
      requires Valid()
      modifies this
      ensures Model() == Simulation.Reset(old(Model()))
      ensures Valid()
    {
      state := Initial();
      lastTime := 0;
    }

    /** `jumpStart()`: resets after game over; otherwise a grounded player jumps with a
        5-particle burst, and the jump is held from now on. */
    method JumpStart()
      requires Valid()
      modifies this
      ensures Model() == Simulation.JumpStart(cfg, old(Model()), rng)
      ensures Valid()
    {
      ghost var e0 := Model();
      Simulation.CommandsKeepInvariant(cfg, e0, rng);
      if state.isGameOver {
        Reset();
        return;
      }
      var s := state;
      if s.isGrounded {
        var parts := CreateExplosion(s.playerY, 5);
        state := s.(velocityY := -cfg.jumpVelocity, isGrounded := false, particles := s.particles + parts);
      }
      holdingJump := true;
    }

    /** `jumpEnd()`: the jump is released, and a fast upward velocity is halved. */
    method JumpEnd()
      requires Valid()
      modifies this
      ensures Model() == Simulation.JumpEnd(old(Model()))
      ensures Valid()
    {
      holdingJump := false;
      var s := state;
      if s.velocityY < JUMP_CUT {
        state := s.(velocityY := s.velocityY * 0.5);
      }
    }

    /** `fastFall()`: an airborne player is pushed down by 800. */
    method FastFall()
      requires Valid()
      modifies this
      ensures Model() == Simulation.FastFall(old(Model()))
      ensures Valid()
    {
      var s := state;
      if !s.isGrounded {
        state := s.(velocityY := s.velocityY + FAST_FALL_BOOST);
      }
    }

    /** `tick(nanos)`: the first call only records the timestamp; every later call
        records it and applies one step of `dt` seconds, capped at 0.1, to the snapshot. */
    method Tick(nanos: int)
      requires Valid()
      modifies this
      ensures Model() == Simulation.Tick(cfg, old(Model()), nanos, rng)
      ensures Valid()
    {
      ghost var e0 := Model();
      Simulation.TickKeepsInvariant(cfg, e0, nanos, rng);
      if lastTime == 0 {
        lastTime := nanos;
        return;
      }
      var dt := Delta(nanos, lastTime);
      lastTime := nanos;
      var s := state;
      if s.isGameOver {
        state := s.(cameraShake := Max(s.cameraShake - dt * SHAKE_DECAY, 0.0));
        return;
      }
      Simulation.TickRunning(cfg, e0, nanos, rng);
      state := Advance(s, dt, nanos);
    }

    /** Step 2 of a running `tick`: gravity, softened while a jump is held and the player
        rises, moves the player, who is clamped to the ground. */
    method Gravity(s: GameState, dt: real) returns (body: Body)
      requires ValidConfig(cfg)
      ensures body == Fall(cfg, s.playerY, s.velocityY, holdingJump, dt)
    {
      var vy := s.velocityY + cfg.gravity * dt;
      if holdingJump && vy < 0.0 {
        vy := vy - cfg.gravity * HOLD_RELIEF * dt;
      }
      assert vy == Accelerated(cfg, s.velocityY, holdingJump, dt);
      var py := s.playerY + vy * dt;
      var grounded := false;
      if py >= cfg.groundY {
        py := cfg.groundY;
        vy := 0.0;
        grounded := true;
        assert Physics.Body(py, vy, grounded) == Fall(cfg, s.playerY, s.velocityY, holdingJump, dt);
      } else {
        assert Physics.Body(py, vy, grounded) == Fall(cfg, s.playerY, s.velocityY, holdingJump, dt);
      }
      body := Physics.Body(py, vy, grounded);
    }

    /** Steps 1 to 3 of a running `tick`: the speed ramps up to the cap, gravity moves the
        player, and the world scrolls by speed * dt, dropping what leaves on the left. */
    method Move(s: GameState, dt: real) returns (m: Simulation.Motion)
      requires ValidConfig(cfg)
      ensures m == Simulation.Move(cfg, s, dt, holdingJump)
    {
      var newSpeed := Min(s.currentSpeed + cfg.acceleration * dt, cfg.maxSpeed);
      assert newSpeed == NextSpeed(cfg, s.currentSpeed, dt);
      var body := Gravity(s, dt);
      var shift := Travel(newSpeed, dt);
      m := Simulation.Motion(newSpeed, shift, body, ScrollObstacles(s.obstacles, shift), ScrollOrbs(s.orbs, shift));
    }

    /** Step 4 of a running `tick`: the particles age, and an airborne player leaves a
        trail particle on every fifth tick. */
    method Emit(s: GameState, body: Body, dt: real) returns (trail: Batch)
      modifies this
      ensures trail == Simulation.Trail(cfg, s, body, AgeParticles(s.particles, dt), old(Gen(entityIdCounter, draws)), rng)
      ensures Gen(entityIdCounter, draws) == trail.gen
      ensures state == old(state) && lastTime == old(lastTime) && holdingJump == old(holdingJump)
    {
      var nextParticles := AgeParticles(s.particles, dt);
      if !body.grounded && s.worldTick % 5 == 0 {
        var p := CreateParticle(cfg.playerX + 30.0, body.y + 30.0, false);
        nextParticles := nextParticles + [p];
      }
      trail := Batch(nextParticles, Gen(entityIdCounter, draws));
    }

    /** The obstacle loop of a running `tick`: the first obstacle whose box overlaps the
        player's ends the game with a 20-particle burst at the player's height. */
    method Crash(py: real, obstacles: seq<Obstacle>) returns (hit: bool, crash: Batch)
      modifies this
      ensures hit == AnyHit(cfg, py, obstacles)
      ensures crash == Simulation.Crash(cfg, hit, py, old(Gen(entityIdCounter, draws)), rng)
      ensures Gen(entityIdCounter, draws) == crash.gen
      ensures state == old(state) && lastTime == old(lastTime) && holdingJump == old(holdingJump)
    {
      hit := FirstHit(cfg, obstacles, py);
      var parts := [];
      if hit {
        parts := CreateExplosion(py, 20);
      }
      crash := Batch(parts, Gen(entityIdCounter, draws));
    }

    /** The state update of a running `tick`, stage by stage as the engine runs it:
        motion, particles, spawning, the obstacle loop, the orb loop, and the new
        snapshot with the score raised by speed / 1000 and by the orb bonus. */
    method Advance(s: GameState, dt: real, nanos: int) returns (next: GameState)
      requires ValidConfig(cfg)
      modifies this
      ensures var st := Simulation.Pipeline(cfg, s, dt, holdingJump, old(Gen(entityIdCounter, draws)), rng);
        next == Simulation.Publish(s, dt, nanos, st) && Gen(entityIdCounter, draws) == st.pick.gen
      ensures state == old(state) && lastTime == old(lastTime) && holdingJump == old(holdingJump)
    {
      ghost var g0 := Gen(entityIdCounter, draws);
      var m := Move(s, dt);
      var trail := Emit(s, m.body, dt);
      var nextObstacles, nextOrbs := SpawnManager(m.moved, m.movedOrbs);
      ghost var sp := Spawned(nextObstacles, nextOrbs, Gen(entityIdCounter, draws));
      var shake := Max(s.cameraShake - dt * SHAKE_DECAY, 0.0);
      var score := s.score + Trunc(m.speed / 1000.0);
      var hit, crash := Crash(m.body.y, nextObstacles);
      if hit {
        shake := 1.0;
      }
      var bonus, bursts;
      nextOrbs, bonus, bursts := CollectOrbs(m.body.y, nextOrbs);
      score := score + bonus;
      ghost var pick := Pickups(nextOrbs, bonus, bursts, Gen(entityIdCounter, draws));
      Simulation.PipelineFromStages(cfg, s, dt, holdingJump, g0, rng, m, trail, sp, hit, crash, pick);
      next := GameState(m.body.y, m.body.vy, m.body.grounded, nextObstacles, nextOrbs,
                        trail.parts + crash.parts + bursts, hit, score, m.speed, nanos, shake);
    }
  }
}
