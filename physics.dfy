/** The integration steps of a running tick: time step, speed ramp, player fall and
    the left scroll of obstacles and orbs. */
module Physics {
  import opened Config
  import opened Entities
  import opened Lists

  /** Seconds elapsed since the last timestamp, capped at 0.1 s; no lower bound is applied. */
  function Delta(nanos: int, lastTime: int): (dt: real)
    ensures dt <= MAX_DT
    ensures nanos >= lastTime ==> dt >= 0.0
    ensures nanos == lastTime ==> dt == 0.0
    ensures dt < MAX_DT ==> dt * 1000000000.0 == (nanos - lastTime) as real
    ensures (nanos - lastTime) as real <= MAX_DT * 1000000000.0 ==> dt * 1000000000.0 == (nanos - lastTime) as real
    ensures (nanos - lastTime) as real >= MAX_DT * 1000000000.0 ==> dt == MAX_DT
  {
    Min((nanos - lastTime) as real / 1000000000.0, MAX_DT)
  }

  /** The speed ramp: grows by `acceleration` per second, never beyond `maxSpeed`. */
  function NextSpeed(cfg: Config, speed: real, dt: real): (r: real)
    requires ValidConfig(cfg)
    ensures r <= cfg.maxSpeed
    ensures r < cfg.maxSpeed ==> r == speed + cfg.acceleration * dt
    ensures dt >= 0.0 && speed <= cfg.maxSpeed ==> speed <= r
    ensures speed + cfg.acceleration * dt <= cfg.maxSpeed ==> r == speed + cfg.acceleration * dt
    ensures speed + cfg.acceleration * dt >= cfg.maxSpeed ==> r == cfg.maxSpeed
  {
    Min(speed + cfg.acceleration * dt, cfg.maxSpeed)
  }

  /** The camera shake after `dt` seconds: decays by 5 per second, never below zero. */
  function DecayShake(shake: real, dt: real): (r: real)
    ensures r >= 0.0
    ensures dt >= 0.0 && shake >= 0.0 ==> r <= shake
    ensures r > 0.0 ==> r == shake - dt * SHAKE_DECAY
    ensures shake - dt * SHAKE_DECAY >= 0.0 ==> r == shake - dt * SHAKE_DECAY
    ensures shake - dt * SHAKE_DECAY <= 0.0 ==> r == 0.0
  {
    Max(shake - dt * SHAKE_DECAY, 0.0)
  }

  /** Vertical state of the player after one step. */
  datatype Body = Body(y: real, vy: real, grounded: bool)

  /** Velocity after gravity: full gravity, except that while the jump is held and the
      player would still be rising, 30% of it is taken back. */
  function Accelerated(cfg: Config, vy: real, holding: bool, dt: real): real
  {
    var v := vy + cfg.gravity * dt;
    if holding && v < 0.0 then v - cfg.gravity * HOLD_RELIEF * dt else v
  }

  /** Gravity integration with the ground clamp. */
  function Fall(cfg: Config, y: real, vy: real, holding: bool, dt: real): (b: Body)
    ensures b.y <= cfg.groundY
    ensures b.grounded <==> y + Accelerated(cfg, vy, holding, dt) * dt >= cfg.groundY
    ensures b.grounded ==> b.y == cfg.groundY && b.vy == 0.0
    ensures !b.grounded ==> b.vy == Accelerated(cfg, vy, holding, dt) && b.y == y + b.vy * dt
  {
    var v := Accelerated(cfg, vy, holding, dt);
    var ny := y + v * dt;
    if ny >= cfg.groundY then Body(cfg.groundY, 0.0, true) else Body(ny, v, false)
  }

  /** Holding the jump softens gravity to 70% while rising and changes nothing otherwise. */
  lemma SoftenedGravity(cfg: Config, vy: real, holding: bool, dt: real)
    ensures var v := vy + cfg.gravity * dt;
      Accelerated(cfg, vy, holding, dt) ==
        if holding && v < 0.0 then vy + 0.7 * cfg.gravity * dt else v
    ensures ValidConfig(cfg) && dt >= 0.0 ==> vy <= Accelerated(cfg, vy, holding, dt)
  {
  }

  /** How far the world scrolls in `dt` seconds at `speed`. */
  function Travel(speed: real, dt: real): real { speed * dt }

  /** An obstacle moved `d` to the left. */
  function Shifted(o: Obstacle, d: real): Obstacle { o.(x := o.x - d) }

  /** Every obstacle moves `d` left; those that land left of -200 are dropped, the rest
      keep their order (the obstacle step of the tick). */
  function ScrollObstacles(obs: seq<Obstacle>, d: real): (r: seq<Obstacle>)
    ensures |r| <= |obs|
    ensures forall q :: q in r ==> q.x >= CULL_X
    ensures forall q :: q in r ==> exists o :: o in obs && q == Shifted(o, d)
    ensures forall o {:trigger Shifted(o, d)} :: o in obs && o.x - d >= CULL_X ==> Shifted(o, d) in r
  {
    if obs == [] then []
    else
      var head := if obs[0].x - d < CULL_X then [] else [Shifted(obs[0], d)];
      assert forall o :: o in obs ==> o == obs[0] || o in obs[1..];
      head + ScrollObstacles(obs[1..], d)
  }

  /** An orb moved `d` to the left. */
  function ShiftedOrb(o: Orb, d: real): Orb { o.(x := o.x - d) }

  /** Like `ScrollObstacles`, and orbs flagged as collected are dropped too. */
  function ScrollOrbs(orbs: seq<Orb>, d: real): (r: seq<Orb>)
    ensures |r| <= |orbs|
    ensures forall q :: q in r ==> q.x >= CULL_X && !q.isCollected
    ensures forall q :: q in r ==> exists o :: o in orbs && q == ShiftedOrb(o, d)
    ensures forall o {:trigger ShiftedOrb(o, d)} :: o in orbs && o.x - d >= CULL_X && !o.isCollected ==> ShiftedOrb(o, d) in r
  {
    if orbs == [] then []
    else
      var head := if orbs[0].x - d < CULL_X || orbs[0].isCollected then [] else [ShiftedOrb(orbs[0], d)];
      assert forall o :: o in orbs ==> o == orbs[0] || o in orbs[1..];
      head + ScrollOrbs(orbs[1..], d)
  }

  /** Scrolling obstacles keeps their ids increasing. */
  lemma {:induction false} ScrollObstaclesKeepOrder(obs: seq<Obstacle>, d: real)
    requires Increasing(obs, ObstacleId)
    ensures Increasing(ScrollObstacles(obs, d), ObstacleId)
  {
    if obs != [] {
      var rest := ScrollObstacles(obs[1..], d);
      assert Increasing(obs[1..], ObstacleId);
      ScrollObstaclesKeepOrder(obs[1..], d);
      forall u | u in rest ensures exists t :: t in obs[1..] && ObstacleId(t) == ObstacleId(u) {
        var t :| t in obs[1..] && u == Shifted(t, d);
        assert ObstacleId(t) == ObstacleId(u);
      }
      var head := if obs[0].x - d < CULL_X then [] else [Shifted(obs[0], d)];
      assert ScrollObstacles(obs, d) == head + rest;
      PrependIncreasing(obs, head, rest, ObstacleId);
    }
  }

  /** Scrolling orbs keeps their ids increasing. */
  lemma {:induction false} ScrollOrbsKeepOrder(orbs: seq<Orb>, d: real)
    requires Increasing(orbs, OrbId)
    ensures Increasing(ScrollOrbs(orbs, d), OrbId)
  {
    if orbs != [] {
      var rest := ScrollOrbs(orbs[1..], d);
      assert Increasing(orbs[1..], OrbId);
      ScrollOrbsKeepOrder(orbs[1..], d);
      forall u | u in rest ensures exists t :: t in orbs[1..] && OrbId(t) == OrbId(u) {
        var t :| t in orbs[1..] && u == ShiftedOrb(t, d);
        assert OrbId(t) == OrbId(u);
      }
      var head := if orbs[0].x - d < CULL_X || orbs[0].isCollected then [] else [ShiftedOrb(orbs[0], d)];
      assert ScrollOrbs(orbs, d) == head + rest;
      PrependIncreasing(orbs, head, rest, OrbId);
    }
  }

  /** Scrolling keeps the ids of both lists increasing and brings in no new id. */
  lemma ScrollKeepsIds(obs: seq<Obstacle>, orbs: seq<Orb>, d: real, bound: int)
    requires Increasing(obs, ObstacleId) && Below(obs, ObstacleId, bound)
    requires Increasing(orbs, OrbId) && Below(orbs, OrbId, bound)
    ensures Increasing(ScrollObstacles(obs, d), ObstacleId) && Below(ScrollObstacles(obs, d), ObstacleId, bound)
    ensures Increasing(ScrollOrbs(orbs, d), OrbId) && Below(ScrollOrbs(orbs, d), OrbId, bound)
  {
    ScrollObstaclesKeepOrder(obs, d);
    ScrollOrbsKeepOrder(orbs, d);
  }

  /** Scrolling brings in no id: every survivor carries the id of an entity it came from. */
  lemma ScrollAddsNoIds(obs: seq<Obstacle>, orbs: seq<Orb>, d: real)
    ensures Keys(ScrollObstacles(obs, d), ObstacleId) <= Keys(obs, ObstacleId)
    ensures Keys(ScrollOrbs(orbs, d), OrbId) <= Keys(orbs, OrbId)
  {
    forall x | x in Keys(ScrollObstacles(obs, d), ObstacleId) ensures x in Keys(obs, ObstacleId) {
      var q :| q in ScrollObstacles(obs, d) && ObstacleId(q) == x;
      var o :| o in obs && q == Shifted(o, d);
      assert ObstacleId(o) == x;
    }
    forall x | x in Keys(ScrollOrbs(orbs, d), OrbId) ensures x in Keys(orbs, OrbId) {
      var q :| q in ScrollOrbs(orbs, d) && OrbId(q) == x;
      var o :| o in orbs && q == ShiftedOrb(o, d);
      assert OrbId(o) == x;
    }
  }
}
