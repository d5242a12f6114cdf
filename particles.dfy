/** Particle creation (single particles and bursts) and per-tick ageing. */
module Particles {
  import opened Config
  import opened Entities
  import opened Lists

  /** A batch of new particles and the generator state after creating them. */
  datatype Batch = Batch(parts: seq<Particle>, gen: Gen)

  /** One particle, as `createParticle` builds it: the id is the counter's value, life is
      1.0; a burst particle draws vx then vy in [-300, 300), a trail particle moves left
      at 200 and draws only vy in [-25, 25). */
  function MakeParticle(x: real, y: real, burst: bool, g: Gen, rng: Stream): (r: (Particle, Gen))
    ensures r.0.id == g.nextId && r.0.life == 1.0 && r.0.x == x && r.0.y == y
    ensures r.1 == Gen(g.nextId + 1, g.cursor + if burst then 2 else 1)
    ensures burst ==> -300.0 <= r.0.vx < 300.0 && -300.0 <= r.0.vy < 300.0
    ensures !burst ==> r.0.vx == -200.0 && -25.0 <= r.0.vy < 25.0
  {
    if burst then
      var vx := (rng(g.cursor) - 0.5) * 600.0;
      var vy := (rng(g.cursor + 1) - 0.5) * 600.0;
      (Particle(g.nextId, x, y, vx, vy, 1.0), Gen(g.nextId + 1, g.cursor + 2))
    else
      var vy := (rng(g.cursor) - 0.5) * 50.0;
      (Particle(g.nextId, x, y, -200.0, vy, 1.0), Gen(g.nextId + 1, g.cursor + 1))
  }

  /** `createExplosion(y, _, count)`: `count` burst particles at (playerX + 30, y - 30),
      created left to right, so their ids are consecutive from the counter. */
  function Burst(cfg: Config, y: real, count: nat, g: Gen, rng: Stream): (r: Batch)
    ensures |r.parts| == count
    ensures r.gen == Gen(g.nextId + count, g.cursor + 2 * count)
    ensures forall i :: 0 <= i < count ==>
      && r.parts[i].id == g.nextId + i
      && r.parts[i].life == 1.0
      && r.parts[i].x == cfg.playerX + 30.0
      && r.parts[i].y == y - 30.0
  {
    if count == 0 then Batch([], g)
    else
      var prev := Burst(cfg, y, count - 1, g, rng);
      var (p, g') := MakeParticle(cfg.playerX + 30.0, y - 30.0, true, prev.gen, rng);
      Batch(prev.parts + [p], g')
  }

  /** The ids of a burst are fresh: increasing, at or above the old counter, below the new one. */
  lemma BurstIdsFresh(cfg: Config, y: real, count: nat, g: Gen, rng: Stream)
    ensures Increasing(Burst(cfg, y, count, g, rng).parts, ParticleId)
    ensures forall p :: p in Burst(cfg, y, count, g, rng).parts ==>
      g.nextId <= p.id < Burst(cfg, y, count, g, rng).gen.nextId
  {
    var b := Burst(cfg, y, count, g, rng);
    forall p | p in b.parts ensures g.nextId <= p.id < b.gen.nextId {
      var i :| 0 <= i < |b.parts| && b.parts[i] == p;
    }
  }

  /** A particle after `dt` seconds of motion and decay, whether or not it survives. */
  function Aged(p: Particle, dt: real): Particle
  {
    p.(x := p.x + p.vx * dt, y := p.y + p.vy * dt, life := p.life - LIFE_DECAY * dt)
  }

  /** The particle step of a tick: every particle moves and loses 2 life per second; those
      whose life is no longer positive are dropped, the rest keep their order. */
  function AgeParticles(ps: seq<Particle>, dt: real): (r: seq<Particle>)
    ensures |r| <= |ps|
    ensures forall q :: q in r ==> q.life > 0.0
    ensures forall q :: q in r ==> exists p :: p in ps && q == Aged(p, dt)
    ensures forall p {:trigger Aged(p, dt)} :: p in ps && p.life - LIFE_DECAY * dt > 0.0 ==> Aged(p, dt) in r
  {
    if ps == [] then []
    else
      var head := if ps[0].life - LIFE_DECAY * dt <= 0.0 then [] else [Aged(ps[0], dt)];
      assert forall p :: p in ps ==> p == ps[0] || p in ps[1..];
      head + AgeParticles(ps[1..], dt)
  }

  /** Ageing keeps ids increasing. */
  lemma {:induction false} AgeKeepsOrder(ps: seq<Particle>, dt: real)
    requires Increasing(ps, ParticleId)
    ensures Increasing(AgeParticles(ps, dt), ParticleId)
  {
    if ps != [] {
      var rest := AgeParticles(ps[1..], dt);
      assert Increasing(ps[1..], ParticleId);
      AgeKeepsOrder(ps[1..], dt);
      forall u | u in rest ensures exists t :: t in ps[1..] && ParticleId(t) == ParticleId(u) {
        var t :| t in ps[1..] && u == Aged(t, dt);
        assert ParticleId(t) == ParticleId(u);
      }
      var head := if ps[0].life - LIFE_DECAY * dt <= 0.0 then [] else [Aged(ps[0], dt)];
      assert AgeParticles(ps, dt) == head + rest;
      PrependIncreasing(ps, head, rest, ParticleId);
    }
  }

  /** Ageing keeps ids increasing and brings in no new id. */
  lemma AgeKeepsIds(ps: seq<Particle>, dt: real, bound: int)
    requires Increasing(ps, ParticleId) && Below(ps, ParticleId, bound)
    ensures Increasing(AgeParticles(ps, dt), ParticleId)
    ensures Below(AgeParticles(ps, dt), ParticleId, bound)
  {
    AgeKeepsOrder(ps, dt);
  }

  /** Ageing brings in no id: every survivor carries the id of the particle it came from. */
  lemma AgeAddsNoIds(ps: seq<Particle>, dt: real)
    ensures Keys(AgeParticles(ps, dt), ParticleId) <= Keys(ps, ParticleId)
  {
    forall x | x in Keys(AgeParticles(ps, dt), ParticleId) ensures x in Keys(ps, ParticleId) {
      var q :| q in AgeParticles(ps, dt) && ParticleId(q) == x;
      var p :| p in ps && q == Aged(p, dt);
      assert ParticleId(p) == x;
    }
  }
}
