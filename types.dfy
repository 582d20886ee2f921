/** The records of types.ts. */
module Types {
  /** The three phases of the game flow. */
  datatype GameState = START | PLAYING | GAME_OVER

  /** The avatar: vertical position, vertical velocity and tilt in radians. */
  datatype Bird = Bird(y: real, velocity: real, rotation: real)

  /** One obstacle: left edge `x`, height of the top segment, gap size, and
      whether the bird has already scored it. */
  datatype Pipe = Pipe(x: real, topHeight: int, passed: bool, gap: int)
}
