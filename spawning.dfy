/** The spawn manager: at most one obstacle (and possibly one orb above it) per tick,
    gated by the position of the last obstacle. */
module Spawning {
  import opened Config
  import opened Entities
  import opened Lists

  /** `ObstacleType.entries.random()`: one draw picks one of the three kinds. */
  function KindOf(u: Unit): ObstacleType
  {
    if u < 1.0 / 3.0 then Spike else if u < 2.0 / 3.0 then Block else Floating
  }

  /** x of the most recently spawned obstacle, 0 when there is none. */
  function LastX(obs: seq<Obstacle>): real
  {
    if obs == [] then 0.0 else obs[|obs| - 1].x
  }

  /** The spacing gate: the last obstacle has moved left of the spawn horizon. */
  predicate Gate(obs: seq<Obstacle>)
  {
    LastX(obs) < SPAWN_HORIZON
  }

  datatype Spawned = Spawned(obstacles: seq<Obstacle>, orbs: seq<Orb>, gen: Gen)

  /** `spawnManager`: behind the gate, a 2% draw decides; then a kind is drawn, a height
      for non-floating kinds, and a coin flip for an orb above the obstacle. */
  function Spawn(cfg: Config, obs: seq<Obstacle>, orbs: seq<Orb>, g: Gen, rng: Stream): (r: Spawned)
    ensures !Gate(obs) ==> r == Spawned(obs, orbs, g)
    ensures Advanced(g, r.gen)
    ensures |obs| <= |r.obstacles| <= |obs| + 1 && r.obstacles[..|obs|] == obs
    ensures |orbs| <= |r.orbs| <= |orbs| + 1 && r.orbs[..|orbs|] == orbs
    ensures |r.obstacles| > |obs| <==> Gate(obs) && rng(g.cursor) < SPAWN_CHANCE
    ensures |r.orbs| > |orbs| ==> |r.obstacles| > |obs|
    ensures r.gen.nextId == g.nextId + (|r.obstacles| - |obs|) + (|r.orbs| - |orbs|)
    ensures |r.obstacles| > |obs| ==>
      var o := r.obstacles[|obs|];
      && o.id == g.nextId && o.x == SPAWN_X
      && o.width == (if o.kind == Block then 80.0 else 50.0)
      && (if o.kind == Floating then o.height == 80.0 else 60.0 <= o.height < 120.0)
    ensures |r.orbs| > |orbs| ==>
      var o := r.obstacles[|obs|];
      r.orbs[|orbs|] == Orb(g.nextId + 1, SPAWN_X + 20.0, cfg.groundY - o.height - 150.0, false)
  {
    if !(LastX(obs) < SPAWN_HORIZON) then Spawned(obs, orbs, g)
    else if !(rng(g.cursor) < SPAWN_CHANCE) then Spawned(obs, orbs, g.(cursor := g.cursor + 1))
    else
      var kind := KindOf(rng(g.cursor + 1));
      var width := if kind == Block then 80.0 else 50.0;
      var height := if kind == Floating then 80.0 else rng(g.cursor + 2) * 60.0 + 60.0;
      var flip := if kind == Floating then g.cursor + 2 else g.cursor + 3;
      var o := Obstacle(g.nextId, SPAWN_X, width, height, kind);
      if rng(flip) < 0.5 then
        var orb := Orb(g.nextId + 1, SPAWN_X + 20.0, cfg.groundY - height - 150.0, false);
        Spawned(obs + [o], orbs + [orb], Gen(g.nextId + 2, flip + 1))
      else
        Spawned(obs + [o], orbs, Gen(g.nextId + 1, flip + 1))
  }

  /** Spawned entities take fresh ids at the end of their lists, so ids stay increasing. */
  lemma SpawnKeepsIds(cfg: Config, obs: seq<Obstacle>, orbs: seq<Orb>, g: Gen, rng: Stream)
    requires Increasing(obs, ObstacleId) && Below(obs, ObstacleId, g.nextId)
    requires Increasing(orbs, OrbId) && Below(orbs, OrbId, g.nextId)
    ensures var r := Spawn(cfg, obs, orbs, g, rng);
      && Increasing(r.obstacles, ObstacleId) && Below(r.obstacles, ObstacleId, r.gen.nextId)
      && Increasing(r.orbs, OrbId) && Below(r.orbs, OrbId, r.gen.nextId)
  {
    var r := Spawn(cfg, obs, orbs, g, rng);
    if |r.obstacles| > |obs| {
      assert r.obstacles == obs + [r.obstacles[|obs|]];
      AppendIncreasing(obs, [r.obstacles[|obs|]], ObstacleId, g.nextId);
    }
    if |r.orbs| > |orbs| {
      assert r.orbs == orbs + [r.orbs[|orbs|]];
      AppendIncreasing(orbs, [r.orbs[|orbs|]], OrbId, g.nextId);
    }
  }

  /** Spawning keeps every obstacle and orb right of the culling line. */
  lemma SpawnKeepsCull(cfg: Config, obs: seq<Obstacle>, orbs: seq<Orb>, g: Gen, rng: Stream)
    requires forall o :: o in obs ==> o.x >= CULL_X
    requires forall o :: o in orbs ==> o.x >= CULL_X
    ensures var r := Spawn(cfg, obs, orbs, g, rng);
      && (forall o :: o in r.obstacles ==> o.x >= CULL_X)
      && (forall o :: o in r.orbs ==> o.x >= CULL_X)
  {
    var r := Spawn(cfg, obs, orbs, g, rng);
    forall o | o in r.obstacles ensures o.x >= CULL_X {
      var i :| 0 <= i < |r.obstacles| && r.obstacles[i] == o;
      if i < |obs| { assert o == r.obstacles[..|obs|][i]; }
    }
    forall o | o in r.orbs ensures o.x >= CULL_X {
      var i :| 0 <= i < |r.orbs| && r.orbs[i] == o;
      if i < |orbs| { assert o == r.orbs[..|orbs|][i]; }
    }
  }

  /** The only ids spawning brings in are the counter's next two: the obstacle takes the
      first, the orb the second, and the counter moves past each one used. */
  lemma SpawnFreshIds(cfg: Config, obs: seq<Obstacle>, orbs: seq<Orb>, g: Gen, rng: Stream)
    ensures var r := Spawn(cfg, obs, orbs, g, rng);
      && (forall x :: x in Keys(r.obstacles, ObstacleId) ==>
            x in Keys(obs, ObstacleId) || (x == g.nextId && g.nextId < r.gen.nextId))
      && (forall x :: x in Keys(r.orbs, OrbId) ==>
            x in Keys(orbs, OrbId) || (x == g.nextId + 1 && g.nextId + 1 < r.gen.nextId))
  {
    var r := Spawn(cfg, obs, orbs, g, rng);
    forall x | x in Keys(r.obstacles, ObstacleId)
      ensures x in Keys(obs, ObstacleId) || (x == g.nextId && g.nextId < r.gen.nextId)
    {
      var o :| o in r.obstacles && ObstacleId(o) == x;
      var i :| 0 <= i < |r.obstacles| && r.obstacles[i] == o;
      if i < |obs| { assert o == r.obstacles[..|obs|][i]; assert o in obs; }
    }
    forall x | x in Keys(r.orbs, OrbId)
      ensures x in Keys(orbs, OrbId) || (x == g.nextId + 1 && g.nextId + 1 < r.gen.nextId)
    {
      var o :| o in r.orbs && OrbId(o) == x;
      var i :| 0 <= i < |r.orbs| && r.orbs[i] == o;
      if i < |orbs| { assert o == r.orbs[..|orbs|][i]; assert o in orbs; }
    }
  }
}
