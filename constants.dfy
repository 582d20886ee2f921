/** Tuning constants of the game (constants.ts), in logical playfield units.
    Lengths the source uses in integer arithmetic are `int`; physics rates are `real`. */
module Constants {
  // Canvas dimensions
  const CANVAS_WIDTH: int := 400
  const CANVAS_HEIGHT: int := 600

  // Physics
  const INITIAL_GRAVITY: real := 0.3
  const JUMP_STRENGTH: real := -6.0
  const AIR_RESISTANCE: real := 0.98
  const BASE_PIPE_SPEED: real := 2.0
  const SPEED_INCREASE_RATE: real := 0.2
  const SPEED_INCREASE_INTERVAL: int := 10

  // Entity dimensions
  const BIRD_RADIUS: int := 20
  const BIRD_X_POSITION: int := 100
  const PIPE_WIDTH: int := 60
  const MIN_PIPE_GAP: int := 120
  const MAX_PIPE_GAP: int := 180
  const PIPE_SPAWN_DISTANCE: int := 220
  const GROUND_HEIGHT: int := 50

  // Literals written inline in components/GameCanvas.tsx
  /** Shortest segment a spawned pipe may have (`minPipeHeight`). */
  const MIN_PIPE_HEIGHT: int := 50
  /** Forgiveness margin the collision hitbox is shrunk by on every side. */
  const HITBOX_MARGIN: int := 4
  /** Factor turning vertical velocity into a tilt angle. */
  const TILT_FACTOR: real := 0.05
  /** Amplitude of the idle bobbing on the start screen. */
  const IDLE_AMPLITUDE: real := 10.0
  /** `Math.PI`, the double written out as the decimal JavaScript prints for it. */
  const PI: real := 3.141592653589793

  /** The ground line: the bird's lower edge may not reach it. */
  const GROUND_Y: int := CANVAS_HEIGHT - GROUND_HEIGHT
}
