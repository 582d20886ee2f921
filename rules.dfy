/** The simulation rules of components/GameCanvas.tsx as pure functions over a
    `World` value: the pipe generator, the bird's fall, the hitbox, one visit of
    the reverse pipe loop, the whole loop, the tick and the input dispatch.
    The class in module GameCanvas updates its fields in place and is proved to
    agree with these functions; module Properties proves what they promise. */
module Rules {
  import opened Constants
  import opened Types

  /** A value `Math.random()` can return. */
  predicate IsRandom(r: real) { 0.0 <= r < 1.0 }

  /** A value `Math.sin` can return. */
  predicate IsSine(s: real) { -1.0 <= s <= 1.0 }

  function Max(a: int, b: int): int { if a < b then b else a }

  function MinReal(a: real, b: real): real { if a < b then a else b }

  function MaxReal(a: real, b: real): real { if a < b then b else a }

  // ---------------------------------------------------------------- generator

  /** The shape every generated pipe has: a gap in [MIN_PIPE_GAP, MAX_PIPE_GAP],
      and top and bottom segments both at least MIN_PIPE_HEIGHT tall above the ground. */
  predicate WellFormed(p: Pipe)
  {
    && MIN_PIPE_GAP <= p.gap <= MAX_PIPE_GAP
    && MIN_PIPE_HEIGHT <= p.topHeight
    && p.topHeight + p.gap <= GROUND_Y - MIN_PIPE_HEIGHT
  }

  /** `Math.floor(r * m)` for a random `r` and a positive count `m` is one of 0 .. m-1. */
  lemma ScaledFloor(r: real, m: int)
    requires IsRandom(r) && m >= 1
    ensures 0 <= (r * m as real).Floor < m
  {
    assert r * m as real < m as real by {
      assert (1.0 - r) * m as real > 0.0;
    }
  }

  /** Gap size drawn uniformly from the integers of [MIN_PIPE_GAP, MAX_PIPE_GAP]. */
  function NewGap(r: real): (gap: int)
    requires IsRandom(r)
    ensures MIN_PIPE_GAP <= gap <= MAX_PIPE_GAP
  {
    ScaledFloor(r, MAX_PIPE_GAP - MIN_PIPE_GAP + 1);
    (r * (MAX_PIPE_GAP - MIN_PIPE_GAP + 1) as real).Floor + MIN_PIPE_GAP
  }

  /** Top segment height drawn uniformly from [MIN_PIPE_HEIGHT, actualMaxHeight],
      where the upper bound leaves MIN_PIPE_HEIGHT for the bottom segment and is
      floored at MIN_PIPE_HEIGHT. */
  function NewTopHeight(gap: int, r: real): (top: int)
    requires IsRandom(r)
    ensures MIN_PIPE_HEIGHT <= top
    ensures top <= Max(MIN_PIPE_HEIGHT, CANVAS_HEIGHT - GROUND_HEIGHT - gap - MIN_PIPE_HEIGHT)
  {
    var maxPipeHeight := CANVAS_HEIGHT - GROUND_HEIGHT - gap - MIN_PIPE_HEIGHT;
    var actualMaxHeight := Max(MIN_PIPE_HEIGHT, maxPipeHeight);
    ScaledFloor(r, actualMaxHeight - MIN_PIPE_HEIGHT + 1);
    (r * (actualMaxHeight - MIN_PIPE_HEIGHT + 1) as real).Floor + MIN_PIPE_HEIGHT
  }

  /** The pipe `spawnPipe(startX)` pushes, for the two draws `r1` (gap) and `r2` (top height). */
  function NewPipe(startX: real, r1: real, r2: real): (p: Pipe)
    requires IsRandom(r1) && IsRandom(r2)
    ensures WellFormed(p)
    ensures p.x == startX && !p.passed
  {
    var gap := NewGap(r1);
    Pipe(startX, NewTopHeight(gap, r2), false, gap)
  }

  // ------------------------------------------------------------------- bird

  /** Tilt for a vertical velocity: proportional, clamped to [-PI/4, PI/2]. */
  function Tilt(v: real): (a: real)
    ensures -PI / 4.0 <= a <= PI / 2.0
    ensures -PI / 4.0 <= v * TILT_FACTOR <= PI / 2.0 ==> a == v * TILT_FACTOR
    ensures v * TILT_FACTOR < -PI / 4.0 ==> a == -PI / 4.0
    ensures v * TILT_FACTOR > PI / 2.0 ==> a == PI / 2.0
  {
    MinReal(PI / 2.0, MaxReal(-PI / 4.0, v * TILT_FACTOR))
  }

  /** One tick of free flight: gravity, then drag, then integration, then tilt. */
  function Fall(b: Bird): Bird
  {
    var v := (b.velocity + INITIAL_GRAVITY) * AIR_RESISTANCE;
    Bird(b.y + v, v, Tilt(v))
  }

  /** The bird's lower edge is on or below the ground line. */
  predicate OnGround(b: Bird) { b.y + BIRD_RADIUS as real >= GROUND_Y as real }

  /** The bird's upper edge is at or above the top of the canvas. */
  predicate AtCeiling(b: Bird) { b.y - BIRD_RADIUS as real <= 0.0 }

  /** The bird resting on the ground line. */
  function Grounded(b: Bird): Bird { b.(y := (GROUND_Y - BIRD_RADIUS) as real) }

  /** The bird bumped against the ceiling: pinned below it and stopped. */
  function Bumped(b: Bird): Bird { b.(y := BIRD_RADIUS as real, velocity := 0.0) }

  // ------------------------------------------------------------ hitbox, pipes

  /** Horizontal extent of the bird's hitbox, shrunk by HITBOX_MARGIN on each side. */
  const BIRD_LEFT: real := (BIRD_X_POSITION - BIRD_RADIUS + HITBOX_MARGIN) as real
  const BIRD_RIGHT: real := (BIRD_X_POSITION + BIRD_RADIUS - HITBOX_MARGIN) as real

  /** Vertical extent of the bird's hitbox at height `y`. */
  function BirdTop(y: real): real { y - (BIRD_RADIUS - HITBOX_MARGIN) as real }
  function BirdBottom(y: real): real { y + (BIRD_RADIUS - HITBOX_MARGIN) as real }

  /** The hitbox overlaps the pipe's column [x, x + PIPE_WIDTH] (open at both ends). */
  predicate InColumn(p: Pipe)
  {
    BIRD_RIGHT > p.x && BIRD_LEFT < p.x + PIPE_WIDTH as real
  }

  /** The hitbox reaches out of the pipe's gap [topHeight, topHeight + gap]. */
  predicate OutsideGap(y: real, p: Pipe)
  {
    BirdTop(y) < p.topHeight as real || BirdBottom(y) > (p.topHeight + p.gap) as real
  }

  /** The bird at height `y` hits pipe `p`. */
  predicate HitsPipe(y: real, p: Pipe) { InColumn(p) && OutsideGap(y, p) }

  /** The hitbox's left edge is past the pipe's right edge and the pipe is not yet scored. */
  predicate Clears(p: Pipe) { !p.passed && BIRD_LEFT > p.x + PIPE_WIDTH as real }

  /** The pipe's right edge is left of the canvas. */
  predicate OffScreen(p: Pipe) { p.x + PIPE_WIDTH as real < 0.0 }

  /** Pipe speed after the score has become `score`. */
  function SpeedAfterScore(score: nat, speed: real): real
  {
    if score > 0 && score % SPEED_INCREASE_INTERVAL == 0 then speed + SPEED_INCREASE_RATE else speed
  }

  /** What one visit of the reverse pipe loop does to the visited pipe, the score
      and the speed: `hit` means the loop stops at once with game over. */
  datatype Visit = Visit(pipe: Pipe, hit: bool, score: nat, speed: real, removed: bool)

  function VisitPipe(p: Pipe, y: real, score: nat, speed: real): Visit
  {
    var moved := p.(x := p.x - speed);
    if HitsPipe(y, moved) then Visit(moved, true, score, speed, false)
    else if Clears(moved) then
      var scored := moved.(passed := true);
      Visit(scored, false, score + 1, SpeedAfterScore(score + 1, speed), OffScreen(scored))
    else Visit(moved, false, score, speed, OffScreen(moved))
  }

  /** The visited pipe, unless the visit removed it. */
  function Kept(v: Visit): seq<Pipe> { if v.removed then [] else [v.pipe] }

  /** Outcome of the whole loop: the new pipe list, score and speed, whether it
      stopped on a hit, and how many pipes it visited. */
  datatype Sweep = Sweep(pipes: seq<Pipe>, score: nat, speed: real, hit: bool, visited: nat)

  /** The loop over `ps` from the last index down to the first: the last pipe is
      visited first, then the prefix before it, with the score and speed the
      visit left. A removed pipe drops out; a hit stops with the unvisited prefix
      as it was. */
  function Pass(ps: seq<Pipe>, y: real, score: nat, speed: real): Sweep
    decreases |ps|
  {
    if ps == [] then Sweep([], score, speed, false, 0)
    else
      var k := |ps| - 1;
      var v := VisitPipe(ps[k], y, score, speed);
      if v.hit then Sweep(ps[..k] + [v.pipe], score, speed, true, 1)
      else
        var rest := Pass(ps[..k], y, v.score, v.speed);
        Sweep(rest.pipes + Kept(v), rest.score, rest.speed, rest.hit, rest.visited + 1)
  }

  // ------------------------------------------------------------------- world

  /** The mutable refs of the game component, together. */
  datatype World = World(
    state: GameState,
    bird: Bird,
    pipes: seq<Pipe>,
    score: nat,
    speed: real,
    lastPipeX: real,
    highScore: int)

  /** The bird at rest in the middle of the canvas. */
  const RESTING_BIRD: Bird := Bird(CANVAS_HEIGHT as real / 2.0, 0.0, 0.0)

  /** The refs as the component creates them (no stored high score). */
  const INITIAL_WORLD: World := World(START, RESTING_BIRD, [], 0, BASE_PIPE_SPEED, 0.0, 0)

  /** Where `startGame` puts the first pipe of a run. */
  const FIRST_PIPE_X: real := (CANVAS_WIDTH + 100) as real

  /** Where `resetGame` puts the spawn cursor. */
  const RESET_PIPE_X: real := (CANVAS_WIDTH + 200) as real

  /** `spawnPipe`: push a new pipe at `startX` and move the cursor there. */
  function Spawn(w: World, startX: real, r1: real, r2: real): World
    requires IsRandom(r1) && IsRandom(r2)
  {
    w.(pipes := w.pipes + [NewPipe(startX, r1, r2)], lastPipeX := startX)
  }

  /** `resetGame`. */
  function Reset(w: World): World
  {
    w.(bird := RESTING_BIRD, pipes := [], score := 0, speed := BASE_PIPE_SPEED,
       state := START, lastPipeX := RESET_PIPE_X)
  }

  /** `jump`. */
  function Jump(w: World): World
  {
    w.(bird := w.bird.(velocity := JUMP_STRENGTH))
  }

  /** `startGame`: play, spawn the first pipe, jump. */
  function Start(w: World, r1: real, r2: real): World
    requires IsRandom(r1) && IsRandom(r2)
  {
    Jump(Spawn(w.(state := PLAYING), FIRST_PIPE_X, r1, r2))
  }

  /** `gameOver`: stop, and keep the better of the score and the high score. */
  function GameOver(w: World): World
  {
    w.(state := GAME_OVER, highScore := if w.score > w.highScore then w.score else w.highScore)
  }

  /** The start-screen bobbing, for `s` the sine of the wall-clock phase. */
  function Idle(w: World, s: real): World
  {
    w.(bird := w.bird.(y := CANVAS_HEIGHT as real / 2.0 + s * IDLE_AMPLITUDE, rotation := 0.0))
  }

  /** The automatic spawn test after the pipe loop. */
  predicate NeedsPipe(w: World)
  {
    |w.pipes| == 0 || CANVAS_WIDTH as real - w.lastPipeX >= PIPE_SPAWN_DISTANCE as real
  }

  /** `updatePhysics`, for `s` the sine of the wall-clock phase and `r1`, `r2`
      the random draws a spawn would use. */
  function Tick(w: World, s: real, r1: real, r2: real): World
    requires IsRandom(r1) && IsRandom(r2)
  {
    if w.state != PLAYING then
      if w.state == START then Idle(w, s) else w
    else
      var b := Fall(w.bird);
      if OnGround(b) then GameOver(w.(bird := Grounded(b)))
      else
        var b' := if AtCeiling(b) then Bumped(b) else b;
        var r := Pass(w.pipes, b'.y, w.score, w.speed);
        var w' := w.(bird := b', pipes := r.pipes, score := r.score, speed := r.speed);
        if r.hit then GameOver(w')
        else if NeedsPipe(w') then Spawn(w', w'.lastPipeX + PIPE_SPAWN_DISTANCE as real, r1, r2)
        else w'
  }

  /** `handleInput`: one activation input, dispatched on the phase. */
  function Input(w: World, r1: real, r2: real): World
    requires IsRandom(r1) && IsRandom(r2)
  {
    match w.state
    case START => Start(w, r1, r2)
    case PLAYING => Jump(w)
    case GAME_OVER => Reset(w)
  }
}
