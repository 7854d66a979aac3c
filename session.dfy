/** The simulation's constants and a value snapshot of its mutable state (game.js). */
module Session {
  import opened Levels

  const TILE_SIZE: real := 45.0
  const GRAVITY: real := 0.8
  const JUMP_FORCE: real := -14.0
  const SPEED: real := 6.0
  const GROUND_Y: int := 9

  const SHIP_UP_FORCE: real := -0.6
  const SHIP_GRAVITY: real := 0.4
  const SHIP_MAX_RISE: real := -9.0
  const SHIP_MAX_FALL: real := 10.0

  const JUMP_BUFFER_TIME: real := 150.0
  /** What one tick takes off the jump buffer. */
  const TICK_MS: real := 16.67

  const PLAYER_WIDTH: real := 30.0
  const PLAYER_HEIGHT: real := 30.0
  const START_X: real := 100.0
  /** The height resetPlayer and loadLevel put the avatar at, one row above the ground row. */
  const START_Y: real := (GROUND_Y - 1) as real * TILE_SIZE - PLAYER_HEIGHT
  /** The top of the ground line. */
  const GROUND_TOP: real := GROUND_Y as real * TILE_SIZE

  /** How far the camera trails behind the avatar, and how many tiles it shows. */
  const CAMERA_LEAD: real := 150.0
  const VIEW_TILES: int := 20

  const BURST_SIZE: nat := 30
  const TRAIL_FADE: real := 0.05
  const TRAIL_EVERY: nat := 3

  const NEON_COLORS: seq<string> := ["#00ffff", "#ff00ff", "#00ff66", "#0066ff", "#ff0066"]

  datatype RunState = Menu | Playing | Dead | Win

  /** The avatar's kinematic fields (the visual rotation is not modelled). */
  datatype Avatar = Avatar(x: real, y: real, vy: real, onGround: bool, dead: bool)

  datatype TrailSample = TrailSample(x: real, y: real, alpha: real, color: string)

  /** A death particle: where it starts and how opaque it is; its random velocity, size and colour are not modelled. */
  datatype Particle = Particle(x: real, y: real, alpha: real)

  /** Everything update(), die() and the input handlers read or write, except the level record. */
  datatype State = State(
    player: Avatar,
    gameState: RunState,
    gameMode: Mode,
    shipVY: real,
    shipRotation: real,
    jumpHeld: bool,
    jumpBuffer: real,
    cameraX: real,
    score: int,
    frameCount: nat,
    trail: seq<TrailSample>,
    deathParticles: seq<Particle>,
    levelIndex: nat)

  function CenterX(p: Avatar): (r: real) {
    p.x + PLAYER_WIDTH / 2.0
  }

  function CenterY(p: Avatar): (r: real) {
    p.y + PLAYER_HEIGHT / 2.0
  }

  function Bottom(p: Avatar): (r: real) {
    p.y + PLAYER_HEIGHT
  }
}
