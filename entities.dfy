/** The engine's value types: obstacles, orbs, particles and the game-state snapshot. */
module Entities {
  import opened Config

  /** The three obstacle kinds. Their order here is this model's choice (the enum's own
      declaration is not part of this model): a draw `u` picks `Spike`, `Block` or
      `Floating` by floor(3u). */
  datatype ObstacleType = Spike | Block | Floating

  datatype Obstacle = Obstacle(id: int, x: real, width: real, height: real, kind: ObstacleType)

  datatype Orb = Orb(id: int, x: real, y: real, isCollected: bool)

  /** Colour and size are render-only and not kept. */
  datatype Particle = Particle(id: int, x: real, y: real, vx: real, vy: real, life: real)

  /** One snapshot of the game. Y grows downward; `Config.groundY` is the ground line. */
  datatype GameState = GameState(
    playerY: real,
    velocityY: real,
    isGrounded: bool,
    obstacles: seq<Obstacle>,
    orbs: seq<Orb>,
    particles: seq<Particle>,
    isGameOver: bool,
    score: int,
    currentSpeed: real,
    worldTick: int,
    cameraShake: real)

  /** The state a fresh engine and `reset` start from. */
  function Initial(): (s: GameState)
    ensures !s.isGameOver && !s.isGrounded && s.score == 0 && s.currentSpeed == START_SPEED
    ensures s.obstacles == [] && s.orbs == [] && s.particles == []
  {
    GameState(0.0, 0.0, false, [], [], [], false, 0, START_SPEED, 0, 0.0)
  }

  function ObstacleId(o: Obstacle): int { o.id }
  function OrbId(o: Orb): int { o.id }
  function ParticleId(p: Particle): int { p.id }

  /** The engine's id counter and the position of the next draw in the random stream. */
  datatype Gen = Gen(nextId: int, cursor: nat)

  /** Gen `b` is at or after `a`: ids and draws are only ever consumed. */
  predicate Advanced(a: Gen, b: Gen)
  {
    a.nextId <= b.nextId && a.cursor <= b.cursor
  }
}
