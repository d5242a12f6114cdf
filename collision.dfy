/** Collision of the player with obstacles (inset boxes) and with orbs (axial distance). */
module Collision {
  import opened Config
  import opened Entities
  import opened Lists
  import opened Particles

  /** An axis-aligned box; `top < bottom` in the engine's Y-down world. */
  datatype Box = Box(left: real, right: real, top: real, bottom: real)

  /** The player's square at column `playerX` with its bottom edge at `py`, inset by 10 on
      three sides and by 5 at the feet. */
  function PlayerBox(cfg: Config, py: real): (b: Box)
    ensures b.right - b.left == PLAYER_SIZE - 20.0 && b.bottom - b.top == PLAYER_SIZE - 15.0
    ensures cfg.playerX < b.left && b.right < cfg.playerX + PLAYER_SIZE
    ensures py - PLAYER_SIZE < b.top && b.bottom < py
  {
    Box(cfg.playerX + 10.0, cfg.playerX + PLAYER_SIZE - 10.0, py - PLAYER_SIZE + 10.0, py - 5.0)
  }

  /** The obstacle's box: `height` tall, standing on the ground line. The branch for
      floating obstacles computes `top + height`, which is the ground line again. */
  function ObstacleBox(cfg: Config, o: Obstacle): (b: Box)
    ensures b == Box(o.x, o.x + o.width, cfg.groundY - o.height, cfg.groundY)
  {
    var top := cfg.groundY - o.height;
    Box(o.x, o.x + o.width, top, if o.kind == Floating then top + o.height else cfg.groundY)
  }

  /** Strict overlap, tested in the engine's order: right, left, bottom, top. */
  predicate Overlaps(a: Box, b: Box)
  {
    a.right > b.left && a.left < b.right && a.bottom > b.top && a.top < b.bottom
  }

  predicate Hits(cfg: Config, py: real, o: Obstacle)
  {
    Overlaps(PlayerBox(cfg, py), ObstacleBox(cfg, o))
  }

  predicate AnyHit(cfg: Config, py: real, obs: seq<Obstacle>)
  {
    exists i :: 0 <= i < |obs| && Hits(cfg, py, obs[i])
  }

  /** The obstacle loop of a tick: scans left to right and stops at the first hit. */
  method FirstHit(cfg: Config, obs: seq<Obstacle>, py: real) returns (hit: bool)
    ensures hit <==> exists i :: 0 <= i < |obs| && Overlaps(PlayerBox(cfg, py), ObstacleBox(cfg, obs[i]))
  {
    hit := false;
    var pb := PlayerBox(cfg, py);
    var k := 0;
    while k < |obs|
      invariant 0 <= k <= |obs|
      invariant !hit
      invariant forall j :: 0 <= j < k ==> !Overlaps(pb, ObstacleBox(cfg, obs[j]))
    {
      var ob := ObstacleBox(cfg, obs[k]);
      if pb.right > ob.left && pb.left < ob.right && pb.bottom > ob.top && pb.top < ob.bottom {
        hit := true;
        break;
      }
      k := k + 1;
    }
  }

  /** A player standing on the ground collides with a spawned obstacle (at least 60 tall)
      exactly when the player's inset columns cross the obstacle's. Kind does not matter:
      the box of a floating obstacle reaches the ground as well. */
  lemma GroundedHit(cfg: Config, o: Obstacle)
    requires o.height >= 60.0
    ensures Hits(cfg, cfg.groundY, o) <==>
      cfg.playerX + PLAYER_SIZE - 10.0 > o.x && cfg.playerX + 10.0 < o.x + o.width
  {
  }

  /** The orb test: the inset box's left edge (playerX + 10) and top edge (py - 50) both
      within 60 of the orb. */
  predicate Picks(cfg: Config, py: real, orb: Orb)
  {
    Abs(cfg.playerX + 10.0 - orb.x) < PICKUP_RADIUS && Abs(py - PLAYER_SIZE + 10.0 - orb.y) < PICKUP_RADIUS
  }

  /** What the orb loop produces: the orbs left in the list, the bonus score, the particles
      of the pickup bursts, and the generator afterwards. */
  datatype Pickups = Pickups(kept: seq<Orb>, bonus: int, bursts: seq<Particle>, gen: Gen)

  /** The orb loop over `orbs`, left to right: each picked orb is removed, earns 500 and
      emits a burst of 10 particles at its own height. */
  function Pickup(cfg: Config, py: real, orbs: seq<Orb>, g: Gen, rng: Stream): (r: Pickups)
    decreases |orbs|
    ensures |r.kept| <= |orbs|
    ensures r.bonus == ORB_BONUS * (|orbs| - |r.kept|)
    ensures |r.bursts| == 10 * (|orbs| - |r.kept|)
    ensures r.gen == Gen(g.nextId + |r.bursts|, g.cursor + 2 * |r.bursts|)
  {
    if orbs == [] then Pickups([], 0, [], g)
    else
      var prev := Pickup(cfg, py, orbs[..|orbs| - 1], g, rng);
      var orb := orbs[|orbs| - 1];
      if Picks(cfg, py, orb) then
        var b := Burst(cfg, orb.y, 10, prev.gen, rng);
        Pickups(prev.kept, prev.bonus + ORB_BONUS, prev.bursts + b.parts, b.gen)
      else
        Pickups(prev.kept + [orb], prev.bonus, prev.bursts, prev.gen)
  }

  /** The orbs the loop keeps are exactly those out of pickup distance. */
  lemma {:induction false} PickupSelects(cfg: Config, py: real, orbs: seq<Orb>, g: Gen, rng: Stream)
    decreases |orbs|
    ensures var r := Pickup(cfg, py, orbs, g, rng);
      && (forall o :: o in r.kept ==> o in orbs && !Picks(cfg, py, o))
      && (forall o :: o in orbs && !Picks(cfg, py, o) ==> o in r.kept)
  {
    if orbs != [] {
      var init := orbs[..|orbs| - 1];
      PickupSelects(cfg, py, init, g, rng);
      assert orbs == init + [orbs[|orbs| - 1]];
    }
  }

  /** The pickup bursts are numbered consecutively from the counter, all at full life. */
  lemma {:induction false} PickupBursts(cfg: Config, py: real, orbs: seq<Orb>, g: Gen, rng: Stream)
    decreases |orbs|
    ensures forall i :: 0 <= i < |Pickup(cfg, py, orbs, g, rng).bursts| ==>
      && Pickup(cfg, py, orbs, g, rng).bursts[i].id == g.nextId + i
      && Pickup(cfg, py, orbs, g, rng).bursts[i].life == 1.0
  {
    if orbs != [] {
      var init := orbs[..|orbs| - 1];
      var orb := orbs[|orbs| - 1];
      PickupBursts(cfg, py, init, g, rng);
      var prev := Pickup(cfg, py, init, g, rng);
      if Picks(cfg, py, orb) {
        var b := Burst(cfg, orb.y, 10, prev.gen, rng);
        var all := prev.bursts + b.parts;
        assert Pickup(cfg, py, orbs, g, rng).bursts == all;
        assert prev.gen.nextId == g.nextId + |prev.bursts|;
        forall i | 0 <= i < |all| ensures all[i].id == g.nextId + i && all[i].life == 1.0 {
          if i < |prev.bursts| {
            assert all[i] == prev.bursts[i];
          } else {
            assert all[i] == b.parts[i - |prev.bursts|];
          }
        }
      } else {
        assert Pickup(cfg, py, orbs, g, rng).bursts == prev.bursts;
      }
    }
  }

  /** One more orb through the loop: it is either picked, with its burst, or kept. */
  lemma PickupNext(cfg: Config, py: real, orbs: seq<Orb>, i: int, g: Gen, rng: Stream)
    requires 0 <= i < |orbs|
    ensures var prev := Pickup(cfg, py, orbs[..i], g, rng);
      var orb := orbs[i];
      Pickup(cfg, py, orbs[..i + 1], g, rng) ==
        if Picks(cfg, py, orb) then
          var b := Burst(cfg, orb.y, 10, prev.gen, rng);
          Pickups(prev.kept, prev.bonus + ORB_BONUS, prev.bursts + b.parts, b.gen)
        else Pickups(prev.kept + [orb], prev.bonus, prev.bursts, prev.gen)
  {
    assert orbs[..i + 1][..i] == orbs[..i];
  }

  /** The orbs that stay keep their order, so their ids stay increasing. */
  lemma {:induction false} PickupKeepsIds(cfg: Config, py: real, orbs: seq<Orb>, g: Gen, rng: Stream, bound: int)
    requires Increasing(orbs, OrbId) && Below(orbs, OrbId, bound)
    ensures Increasing(Pickup(cfg, py, orbs, g, rng).kept, OrbId)
    ensures Below(Pickup(cfg, py, orbs, g, rng).kept, OrbId, bound)
    decreases |orbs|
  {
    PickupSelects(cfg, py, orbs, g, rng);
    if orbs != [] {
      var init := orbs[..|orbs| - 1];
      var orb := orbs[|orbs| - 1];
      assert Increasing(init, OrbId);
      assert forall o :: o in init ==> o in orbs;
      PickupKeepsIds(cfg, py, init, g, rng, bound);
      var prev := Pickup(cfg, py, init, g, rng);
      if !Picks(cfg, py, orb) {
        PickupSelects(cfg, py, init, g, rng);
        forall o | o in prev.kept ensures o.id < orb.id {
          var i :| 0 <= i < |init| && init[i] == o;
        }
        AppendIncreasing(prev.kept, [orb], OrbId, orb.id);
      }
    }
  }

  /** The pickup bursts' ids are fresh and increasing. */
  lemma PickupIdsFresh(cfg: Config, py: real, orbs: seq<Orb>, g: Gen, rng: Stream)
    ensures var r := Pickup(cfg, py, orbs, g, rng);
      && Increasing(r.bursts, ParticleId)
      && forall p :: p in r.bursts ==> g.nextId <= p.id < r.gen.nextId && p.life > 0.0
  {
    var r := Pickup(cfg, py, orbs, g, rng);
    PickupBursts(cfg, py, orbs, g, rng);
    forall p | p in r.bursts ensures g.nextId <= p.id < r.gen.nextId && p.life > 0.0 {
      var i :| 0 <= i < |r.bursts| && r.bursts[i] == p;
    }
  }

  /** The orb loop brings in no orb id: it only removes orbs. */
  lemma PickupAddsNoIds(cfg: Config, py: real, orbs: seq<Orb>, g: Gen, rng: Stream)
    ensures Keys(Pickup(cfg, py, orbs, g, rng).kept, OrbId) <= Keys(orbs, OrbId)
  {
    PickupSelects(cfg, py, orbs, g, rng);
  }
}
