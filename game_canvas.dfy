/** The game component of components/GameCanvas.tsx: the mutable refs as the
    fields of one object, and the game functions as methods that update them in
    place. Each method is proved to leave the object in the state the matching
    function of module Rules computes from the state before. */
module GameCanvas {
  import opened Constants
  import opened Types
  import opened Rules
  import Properties

  /** The rest of the loop's run from index `i - 1` down to 0, over the pipe list
      `ps` as the loop has left it, after `visited` visits: the same steps as the
      loop body, on values. */
  ghost function LoopFrom(ps: seq<Pipe>, i: nat, y: real, score: nat, speed: real, visited: nat): Sweep
    requires i <= |ps|
    decreases i
  {
    if i == 0 then Sweep(ps, score, speed, false, visited)
    else
      var k := i - 1;
      var v := VisitPipe(ps[k], y, score, speed);
      if v.hit then Sweep(ps[k := v.pipe], score, speed, true, visited + 1)
      else LoopFrom(if v.removed then ps[..k] + ps[k + 1..] else ps[k := v.pipe], k, y, v.score, v.speed, visited + 1)
  }

  /** Running the loop over the pipes `pre` still to visit, followed by those
      already `handled`, is the structural pass over `pre` with `handled` kept
      after its survivors. */
  lemma {:induction false} LoopIsPass(pre: seq<Pipe>, handled: seq<Pipe>, y: real, score: nat, speed: real, n: nat)
    ensures var r := Pass(pre, y, score, speed);
            LoopFrom(pre + handled, |pre|, y, score, speed, n)
            == Sweep(r.pipes + handled, r.score, r.speed, r.hit, r.visited + n)
    decreases |pre|
  {
    if pre != [] {
      var k := |pre| - 1;
      var ps := pre + handled;
      var v := VisitPipe(pre[k], y, score, speed);
      assert ps[k] == pre[k];
      if v.hit {
        assert ps[k := v.pipe] == pre[..k] + [v.pipe] + handled;
      } else if v.removed {
        assert ps[..k] + ps[k + 1..] == pre[..k] + handled;
        LoopIsPass(pre[..k], handled, y, v.score, v.speed, n + 1);
      } else {
        assert ps[k := v.pipe] == pre[..k] + ([v.pipe] + handled);
        LoopIsPass(pre[..k], [v.pipe] + handled, y, v.score, v.speed, n + 1);
        var rest := Pass(pre[..k], y, v.score, v.speed);
        assert rest.pipes + [v.pipe] + handled == rest.pipes + ([v.pipe] + handled);
      }
    } else {
      assert pre + handled == handled;
    }
  }

  class Game {
    var gameState: GameState
    var bird: Bird
    var pipes: seq<Pipe>
    var score: nat
    var currentSpeed: real
    var lastPipeX: real
    var highScore: int

    /** The refs as one World value. */
    ghost function State(): World
      reads this
    {
      World(gameState, bird, pipes, score, currentSpeed, lastPipeX, highScore)
    }

    /** The refs' initial values; the high score starts at 0 (loading it is not modelled). */
    constructor ()
      ensures State() == INITIAL_WORLD && Properties.Invariant(State())
    {
      gameState := START;
      bird := Bird(CANVAS_HEIGHT as real / 2.0, 0.0, 0.0);
      pipes := [];
      score := 0;
      currentSpeed := BASE_PIPE_SPEED;
      lastPipeX := 0.0;
      highScore := 0;
    }

    method SpawnPipe(startX: real, r1: real, r2: real)
      requires IsRandom(r1) && IsRandom(r2)
      modifies this
      ensures State() == Spawn(old(State()), startX, r1, r2)
    {
      var gap := (r1 * (MAX_PIPE_GAP - MIN_PIPE_GAP + 1) as real).Floor + MIN_PIPE_GAP;
      var maxPipeHeight := CANVAS_HEIGHT - GROUND_HEIGHT - gap - MIN_PIPE_HEIGHT;
      var actualMaxHeight := if MIN_PIPE_HEIGHT < maxPipeHeight then maxPipeHeight else MIN_PIPE_HEIGHT;
      var topHeight := (r2 * (actualMaxHeight - MIN_PIPE_HEIGHT + 1) as real).Floor + MIN_PIPE_HEIGHT;
      assert gap == NewGap(r1) && topHeight == NewTopHeight(gap, r2);
      pipes := pipes + [Pipe(startX, topHeight, false, gap)];
      lastPipeX := startX;
    }

    method ResetGame()
      modifies this
      ensures State() == Reset(old(State()))
    {
      bird := Bird(CANVAS_HEIGHT as real / 2.0, 0.0, 0.0);
      pipes := [];
      score := 0;
      currentSpeed := BASE_PIPE_SPEED;
      gameState := START;
      lastPipeX := (CANVAS_WIDTH + 200) as real;
    }

    method StartGame(r1: real, r2: real)
      requires IsRandom(r1) && IsRandom(r2)
      modifies this
      ensures State() == Start(old(State()), r1, r2)
    {
      gameState := PLAYING;
      SpawnPipe((CANVAS_WIDTH + 100) as real, r1, r2);
      Jump();
    }

    method Jump()
      modifies this
      ensures State() == Rules.Jump(old(State()))
    {
      bird := bird.(velocity := JUMP_STRENGTH);
    }

    method GameOver()
      modifies this
      ensures State() == Rules.GameOver(old(State()))
    {
      gameState := GAME_OVER;
      if score > highScore {
        highScore := score;
      }
    }

    /** One frame of the simulation; `s` is the sine of the wall-clock phase the
        start screen bobs with, `r1` and `r2` the draws of a spawn. */
    method UpdatePhysics(s: real, r1: real, r2: real)
      requires IsRandom(r1) && IsRandom(r2)
      modifies this
      ensures State() == Tick(old(State()), s, r1, r2)
      ensures old(Properties.Invariant(State())) ==> Properties.Invariant(State())
    {
      if Properties.Invariant(State()) {
        Properties.TickInvariant(State(), s, r1, r2);
      }
      if gameState != PLAYING {
        if gameState == START {
          bird := bird.(y := CANVAS_HEIGHT as real / 2.0 + s * IDLE_AMPLITUDE);
          bird := bird.(rotation := 0.0);
        }
        return;
      }

      bird := bird.(velocity := bird.velocity + INITIAL_GRAVITY);
      bird := bird.(velocity := bird.velocity * AIR_RESISTANCE);
      bird := bird.(y := bird.y + bird.velocity);
      bird := bird.(rotation := Tilt(bird.velocity));

      assert bird == Fall(old(bird));
      if bird.y + BIRD_RADIUS as real >= (CANVAS_HEIGHT - GROUND_HEIGHT) as real {
        bird := bird.(y := (CANVAS_HEIGHT - GROUND_HEIGHT - BIRD_RADIUS) as real);
        GameOver();
        return;
      }

      if bird.y - BIRD_RADIUS as real <= 0.0 {
        bird := bird.(y := BIRD_RADIUS as real);
        bird := bird.(velocity := 0.0);
      }

      var hit := MovePipes();
      if hit {
        GameOver();
        return;
      }

      if |pipes| == 0 || CANVAS_WIDTH as real - lastPipeX >= PIPE_SPAWN_DISTANCE as real {
        var spawnX := lastPipeX + PIPE_SPAWN_DISTANCE as real;
        SpawnPipe(spawnX, r1, r2);
      }
    }

    /** The reverse pass of `updatePhysics` over the pipes: shift each, test it
        against the hitbox, score it, drop it once off screen. On a hit it stops
        at once and returns true, leaving the pipes below the hit one unvisited. */
    method MovePipes() returns (hit: bool)
      modifies this
      ensures var r := Pass(old(pipes), bird.y, old(score), old(currentSpeed));
              && hit == r.hit
              && pipes == r.pipes && score == r.score && currentSpeed == r.speed
      ensures gameState == old(gameState) && bird == old(bird)
      ensures lastPipeX == old(lastPipeX) && highScore == old(highScore)
    {
      var y := bird.y;
      ghost var r := LoopFrom(pipes, |pipes|, y, score, currentSpeed, 0);
      LoopIsPass(pipes, [], y, score, currentSpeed, 0);
      assert pipes + [] == pipes;
      var i := |pipes| - 1;
      while i >= 0
        invariant -1 <= i < |pipes|
        invariant gameState == old(gameState) && bird == old(bird)
        invariant lastPipeX == old(lastPipeX) && highScore == old(highScore)
        invariant r == LoopFrom(pipes, i + 1, y, score, currentSpeed, |old(pipes)| - 1 - i)
      {
        var p := pipes[i];
        p := p.(x := p.x - currentSpeed);

        if HitsPipe(y, p) {
          pipes := pipes[i := p];
          return true;
        }

        if Clears(p) {
          p := p.(passed := true);
          score := score + 1;
          if score > 0 && score % SPEED_INCREASE_INTERVAL == 0 {
            currentSpeed := currentSpeed + SPEED_INCREASE_RATE;
          }
        }

        if OffScreen(p) {
          pipes := pipes[..i] + pipes[i + 1..];
        } else {
          pipes := pipes[i := p];
        }
        i := i - 1;
      }
      return false;
    }

    /** One activation input (key, click or touch). */
    method HandleInput(r1: real, r2: real)
      requires IsRandom(r1) && IsRandom(r2)
      modifies this
      ensures State() == Input(old(State()), r1, r2)
      ensures old(Properties.Invariant(State())) ==> Properties.Invariant(State())
    {
      if Properties.Invariant(State()) {
        Properties.InputInvariant(State(), r1, r2);
      }
      if gameState == START {
        StartGame(r1, r2);
      } else if gameState == PLAYING {
        Jump();
      } else if gameState == GAME_OVER {
        ResetGame();
      }
    }
  }
}
