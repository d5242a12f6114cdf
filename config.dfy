/** Tunable constants of the runner engine.

    The literal numbers the engine writes inline are named constants here.  The
    constants the engine reads from its configuration object but whose values are
    not part of this model (gravity, jump impulse, ground line, player column,
    acceleration, speed cap) are the fields of a `Config` record, and every
    property is proved for all records that satisfy `ValidConfig`. */
module Config {

  /** One draw of `Random.nextFloat()`: a value in [0, 1). */
  type Unit = r: real | 0.0 <= r < 1.0

  /** The engine's random source, as the infinite stream of its successive draws. */
  type Stream = nat -> Unit

  const START_SPEED: real := 15.0
  const PLAYER_SIZE: real := 60.0

  /** Largest time step a tick integrates, in seconds. */
  const MAX_DT: real := 0.1
  /** Obstacles and orbs whose x falls below this are dropped. */
  const CULL_X: real := -200.0
  /** Spawn point of new obstacles. */
  const SPAWN_X: real := 2500.0
  /** A new obstacle may appear only while the last one is left of this x. */
  const SPAWN_HORIZON: real := 2000.0
  const SPAWN_CHANCE: real := 0.02
  const ORB_BONUS: int := 500
  const PICKUP_RADIUS: real := 60.0
  /** Per-second decay of the camera shake and of particle life. */
  const SHAKE_DECAY: real := 5.0
  const LIFE_DECAY: real := 2.0
  /** Releasing the jump halves the velocity only while it is below this. */
  const JUMP_CUT: real := -300.0
  const FAST_FALL_BOOST: real := 800.0
  /** While the jump is held and the player rises, gravity is reduced by this fraction. */
  const HOLD_RELIEF: real := 0.3

  /** Engine constants whose values live outside this model. Y grows downward. */
  datatype Config = Config(
    gravity: real,
    jumpVelocity: real,
    groundY: real,
    playerX: real,
    acceleration: real,
    maxSpeed: real)

  predicate ValidConfig(c: Config)
  {
    && c.gravity > 0.0
    && c.acceleration >= 0.0
    && START_SPEED <= c.maxSpeed
    && c.groundY >= 0.0
  }

  /** `Float.toLong()`: truncation toward zero. */
  function Trunc(x: real): (n: int)
    ensures x >= 0.0 ==> 0 <= n && n as real <= x < n as real + 1.0
    ensures x < 0.0 ==> n <= 0 && n as real - 1.0 < x <= n as real
  {
    if x >= 0.0 then x.Floor else -((-x).Floor)
  }

  function Abs(x: real): (r: real)
    ensures r >= 0.0 && (r == x || r == -x)
  {
    if x < 0.0 then -x else x
  }

  function Min(a: real, b: real): (r: real)
    ensures r <= a && r <= b && (r == a || r == b)
  {
    if a <= b then a else b
  }

  function Max(a: real, b: real): (r: real)
    ensures r >= a && r >= b && (r == a || r == b)
  {
    if a >= b then a else b
  }
}
