/** What the rules of module Rules promise: pipe generation bounds, the bird's
    flight and boundaries, scoring and speed-up in the reverse pipe loop, the
    game-flow transitions, and an invariant of every state the game can reach,
    from which the spawn cursor quirk follows. */
module Properties {
  import opened Constants
  import opened Types
  import opened Rules

  // ------------------------------------------------------------- generator

  /** Every gap of [MIN_PIPE_GAP, MAX_PIPE_GAP] is drawn for some random value:
      the `+ 1` makes the range inclusive. */
  lemma GapReachable(g: int)
    requires MIN_PIPE_GAP <= g <= MAX_PIPE_GAP
    ensures var r := (g - MIN_PIPE_GAP) as real / (MAX_PIPE_GAP - MIN_PIPE_GAP + 1) as real;
            IsRandom(r) && NewGap(r) == g
  {
  }

  /** Every top height of [MIN_PIPE_HEIGHT, actualMaxHeight] is drawn for some
      random value, for any gap. */
  lemma TopReachable(gap: int, t: int)
    requires MIN_PIPE_HEIGHT <= t <= Max(MIN_PIPE_HEIGHT, GROUND_Y - gap - MIN_PIPE_HEIGHT)
    ensures var m := Max(MIN_PIPE_HEIGHT, GROUND_Y - gap - MIN_PIPE_HEIGHT) - MIN_PIPE_HEIGHT + 1;
            var r := (t - MIN_PIPE_HEIGHT) as real / m as real;
            IsRandom(r) && NewTopHeight(gap, r) == t
  {
    var m := Max(MIN_PIPE_HEIGHT, GROUND_Y - gap - MIN_PIPE_HEIGHT) - MIN_PIPE_HEIGHT + 1;
    var r := (t - MIN_PIPE_HEIGHT) as real / m as real;
    assert r * m as real == (t - MIN_PIPE_HEIGHT) as real;
    assert r < 1.0 by {
      assert (1.0 - r) * m as real == (m - (t - MIN_PIPE_HEIGHT)) as real > 0.0;
    }
  }

  /** Conversely to `NewPipe`'s contract, every well-formed unpassed pipe at
      `startX` is the one `spawnPipe(startX)` pushes for some pair of draws. */
  lemma PipeReachable(p: Pipe)
    requires WellFormed(p) && !p.passed
    ensures var r1 := (p.gap - MIN_PIPE_GAP) as real / (MAX_PIPE_GAP - MIN_PIPE_GAP + 1) as real;
            var r2 := (p.topHeight - MIN_PIPE_HEIGHT) as real
                      / (Max(MIN_PIPE_HEIGHT, GROUND_Y - p.gap - MIN_PIPE_HEIGHT) - MIN_PIPE_HEIGHT + 1) as real;
            IsRandom(r1) && IsRandom(r2) && NewPipe(p.x, r1, r2) == p
  {
    GapReachable(p.gap);
    TopReachable(p.gap, p.topHeight);
  }

  /** `spawnPipe` appends exactly one pipe, well formed, at `startX` and not yet
      passed, leaves the earlier pipes and everything else alone, and moves the
      spawn cursor to `startX`. */
  lemma SpawnAppendsOnePipe(w: World, startX: real, r1: real, r2: real)
    requires IsRandom(r1) && IsRandom(r2)
    ensures var w' := Spawn(w, startX, r1, r2);
            && |w'.pipes| == |w.pipes| + 1
            && w'.pipes[..|w.pipes|] == w.pipes
            && WellFormed(w'.pipes[|w.pipes|])
            && w'.pipes[|w.pipes|].x == startX && !w'.pipes[|w.pipes|].passed
            && w'.lastPipeX == startX
            && w'.(pipes := w.pipes, lastPipeX := w.lastPipeX) == w
  {
    assert (w.pipes + [NewPipe(startX, r1, r2)])[..|w.pipes|] == w.pipes;
  }

  /** Both segments of a well-formed pipe are at least MIN_PIPE_HEIGHT tall, and
      its gap is wider than the bird's hitbox, so it can be passed. */
  lemma WellFormedSegments(p: Pipe)
    requires WellFormed(p)
    ensures p.topHeight >= MIN_PIPE_HEIGHT
    ensures GROUND_Y - (p.topHeight + p.gap) >= MIN_PIPE_HEIGHT
    ensures !OutsideGap((p.topHeight + p.gap / 2) as real, p)
  {
  }

  // ------------------------------------------------------------------ bird

  /** Free flight from rest at mid-canvas: one tick gives velocity 0.3 * 0.98. */
  lemma FallFromRest()
    ensures Fall(RESTING_BIRD).velocity == 0.294
    ensures Fall(RESTING_BIRD).y == 300.294
  {
  }

  // --------------------------------------------------------- one pipe visit

  /** n + 1 crosses a multiple of the interval exactly when it is one. */
  lemma {:induction false} IntervalStep(n: nat)
    ensures (n + 1) / SPEED_INCREASE_INTERVAL - n / SPEED_INCREASE_INTERVAL
            == if (n + 1) % SPEED_INCREASE_INTERVAL == 0 then 1 else 0
  {
    var q, m := n / SPEED_INCREASE_INTERVAL, n % SPEED_INCREASE_INTERVAL;
    assert n == SPEED_INCREASE_INTERVAL * q + m && 0 <= m < SPEED_INCREASE_INTERVAL;
    if m == SPEED_INCREASE_INTERVAL - 1 {
      assert n + 1 == SPEED_INCREASE_INTERVAL * (q + 1);
    } else {
      assert n + 1 == SPEED_INCREASE_INTERVAL * q + (m + 1);
    }
  }

  /** A visit shifts the pipe left by exactly `speed` and keeps its shape; an
      unpassed pipe becomes passed exactly when it is not hit and its right edge
      is left of the bird's hitbox, the score rises by exactly one when it does
      and not otherwise; a hit changes neither score nor speed; the
      pipe is removed exactly when it survives the hit test and is off screen. */
  lemma VisitFacts(p: Pipe, y: real, score: nat, speed: real)
    ensures var v := VisitPipe(p, y, score, speed);
            && v.pipe.x == p.x - speed
            && v.pipe.topHeight == p.topHeight && v.pipe.gap == p.gap
            && v.hit == HitsPipe(y, v.pipe)
            && (p.passed ==> v.pipe.passed && v.score == score)
            && v.pipe.passed == (p.passed || (!v.hit && BIRD_LEFT > v.pipe.x + PIPE_WIDTH as real))
            && v.score == score + (if !p.passed && v.pipe.passed then 1 else 0)
            && (v.pipe.passed && !p.passed ==> BIRD_LEFT > v.pipe.x + PIPE_WIDTH as real)
            && (v.hit ==> v.score == score && v.speed == speed && !v.removed)
            && v.removed == (!v.hit && OffScreen(v.pipe))
  {
  }

  /** The speed steps up by SPEED_INCREASE_RATE exactly when a visit brings the
      score to a new multiple of SPEED_INCREASE_INTERVAL: the speed rises by the
      rate times the number of multiples crossed. */
  lemma VisitSpeed(p: Pipe, y: real, score: nat, speed: real)
    ensures var v := VisitPipe(p, y, score, speed);
            && v.score - score in {0, 1}
            && v.speed == speed + SPEED_INCREASE_RATE
                                  * (v.score / SPEED_INCREASE_INTERVAL - score / SPEED_INCREASE_INTERVAL) as real
  {
    IntervalStep(score);
  }

  /** Scoring the 10th point speeds up; scoring the 11th does not. */
  lemma SpeedUpAtTen(p: Pipe, y: real, speed: real)
    requires !HitsPipe(y, p.(x := p.x - speed)) && Clears(p.(x := p.x - speed))
    ensures VisitPipe(p, y, 9, speed).score == 10
    ensures VisitPipe(p, y, 9, speed).speed == speed + SPEED_INCREASE_RATE
    ensures VisitPipe(p, y, 10, speed).speed == speed
  {
  }

  // --------------------------------------------------------- the whole loop

  /** Over one pass: the score never falls and rises by at most one per visited
      pipe; at most all pipes are visited, and all of them unless it stopped on a
      hit; no pipe is added; and the speed rises by SPEED_INCREASE_RATE once for
      every multiple of SPEED_INCREASE_INTERVAL the score reached, never skipping one. */
  lemma {:induction false} PassBounds(ps: seq<Pipe>, y: real, score: nat, speed: real)
    ensures var r := Pass(ps, y, score, speed);
            && score <= r.score <= score + r.visited
            && r.visited <= |ps|
            && (r.hit ==> 1 <= r.visited) && (!r.hit ==> r.visited == |ps|)
            && |ps| - r.visited < |r.pipes| + (if r.hit then 0 else 1)
            && |r.pipes| <= |ps|
            && r.speed == speed + SPEED_INCREASE_RATE
                                  * (r.score / SPEED_INCREASE_INTERVAL - score / SPEED_INCREASE_INTERVAL) as real
            && r.speed >= speed
    decreases |ps|
  {
    if ps != [] {
      var k := |ps| - 1;
      var v := VisitPipe(ps[k], y, score, speed);
      VisitFacts(ps[k], y, score, speed);
      VisitSpeed(ps[k], y, score, speed);
      if !v.hit {
        PassBounds(ps[..k], y, v.score, v.speed);
      }
    }
  }

  /** The pipes the loop did not reach (those below a hit) are exactly as they
      were, in front of the hit pipe, which is shifted and hit. */
  lemma {:induction false} PassKeepsUnvisited(ps: seq<Pipe>, y: real, score: nat, speed: real)
    ensures var r := Pass(ps, y, score, speed);
            var u := |ps| - r.visited;
            && 0 <= u <= |r.pipes|
            && r.pipes[..u] == ps[..u]
            && (r.hit ==> u < |r.pipes| && r.pipes[u] == ps[u].(x := ps[u].x - r.speed)
                          && HitsPipe(y, r.pipes[u]))
    decreases |ps|
  {
    PassBounds(ps, y, score, speed);
    if ps != [] {
      var k := |ps| - 1;
      var v := VisitPipe(ps[k], y, score, speed);
      if v.hit {
        assert (ps[..k] + [v.pipe])[..k] == ps[..k];
      } else {
        var rest := Pass(ps[..k], y, v.score, v.speed);
        PassKeepsUnvisited(ps[..k], y, v.score, v.speed);
        PassBounds(ps[..k], y, v.score, v.speed);
        var u := k - rest.visited;
        assert (rest.pipes + Kept(v))[..u] == rest.pipes[..u];
        assert ps[..k][..u] == ps[..u];
      }
    }
  }

  /** Pipes keep their shape through a pass, so generated pipes stay well formed. */
  lemma {:induction false} PassKeepsWellFormed(ps: seq<Pipe>, y: real, score: nat, speed: real)
    requires forall p | p in ps :: WellFormed(p)
    ensures forall p | p in Pass(ps, y, score, speed).pipes :: WellFormed(p)
    decreases |ps|
  {
    if ps != [] {
      var k := |ps| - 1;
      var v := VisitPipe(ps[k], y, score, speed);
      assert ps[k] in ps;
      VisitFacts(ps[k], y, score, speed);
      if !v.hit {
        assert forall p | p in ps[..k] :: p in ps;
        PassKeepsWellFormed(ps[..k], y, v.score, v.speed);
      } else {
        assert forall p | p in ps[..k] :: p in ps;
      }
    }
  }

  /** A pipe one frame later at scroll speed `d`, when the bird does not hit it:
      moved left by `d`, with the same top height and gap, and passed if it was
      already or its right edge is now left of the bird's hitbox. */
  function Advanced(p: Pipe, d: real): Pipe
  {
    var x := p.x - d;
    p.(x := x, passed := p.passed || BIRD_LEFT > x + PIPE_WIDTH as real)
  }

  /** Each pipe advanced by `d`, dropping those whose right edge is then off
      screen, keeping the order of the rest. */
  function Scrolled(ps: seq<Pipe>, d: real): seq<Pipe>
    decreases |ps|
  {
    if ps == [] then []
    else
      var k := |ps| - 1;
      var q := Advanced(ps[k], d);
      Scrolled(ps[..k], d) + (if OffScreen(q) then [] else [q])
  }

  /** A pass that neither hits nor speeds up advances every pipe by exactly the
      speed, each keeping its own top height and gap and its `passed` flag once
      set, and removes exactly the pipes then off screen; the rest keep their
      relative order, and none of them is off screen. */
  lemma {:induction false} PassScrolls(ps: seq<Pipe>, y: real, score: nat, speed: real)
    requires var r := Pass(ps, y, score, speed); !r.hit && r.speed == speed
    ensures Pass(ps, y, score, speed).pipes == Scrolled(ps, speed)
    ensures forall p | p in Pass(ps, y, score, speed).pipes :: !OffScreen(p)
    decreases |ps|
  {
    if ps != [] {
      var k := |ps| - 1;
      var v := VisitPipe(ps[k], y, score, speed);
      VisitFacts(ps[k], y, score, speed);
      VisitSpeed(ps[k], y, score, speed);
      PassBounds(ps[..k], y, v.score, v.speed);
      assert v.speed == speed;
      assert v.pipe == Advanced(ps[k], speed);
      PassScrolls(ps[..k], y, v.score, v.speed);
    }
  }

  // ------------------------------------------------------------------ tick

  /** Outside PLAYING a tick leaves pipes, score, speed, cursor, phase and high
      score alone; in GAME_OVER it changes nothing, and on the start screen it
      only bobs the bird within IDLE_AMPLITUDE of mid-canvas, level. */
  lemma TickWhenNotPlaying(w: World, s: real, r1: real, r2: real)
    requires IsRandom(r1) && IsRandom(r2)
    requires w.state != PLAYING
    ensures var w' := Tick(w, s, r1, r2);
            && w' == w.(bird := w'.bird)
            && (w.state == GAME_OVER ==> w' == w)
            && w'.bird.velocity == w.bird.velocity
            && (w.state == START && IsSine(s) ==>
                  && w'.bird.rotation == 0.0
                  && CANVAS_HEIGHT as real / 2.0 - IDLE_AMPLITUDE <= w'.bird.y
                  && w'.bird.y <= CANVAS_HEIGHT as real / 2.0 + IDLE_AMPLITUDE)
  {
  }

  /** A PLAYING tick applies gravity, then drag, then moves the bird by the new
      velocity, and tilts it within [-PI/4, PI/2]. Touching the ground ends the
      game on the spot with the bird resting on it and the pipes and score as
      they were; touching the ceiling pins the bird below it with zero velocity. */
  lemma TickFlight(w: World, s: real, r1: real, r2: real)
    requires IsRandom(r1) && IsRandom(r2)
    requires w.state == PLAYING
    ensures var w' := Tick(w, s, r1, r2);
            var v := (w.bird.velocity + INITIAL_GRAVITY) * AIR_RESISTANCE;
            var y := w.bird.y + v;
            && -PI / 4.0 <= w'.bird.rotation <= PI / 2.0
            && w'.bird.rotation == Tilt(v)
            && (y + BIRD_RADIUS as real >= GROUND_Y as real ==>
                  && w'.state == GAME_OVER
                  && w'.bird == Bird((GROUND_Y - BIRD_RADIUS) as real, v, Tilt(v))
                  && w'.pipes == w.pipes && w'.score == w.score && w'.speed == w.speed)
            && (y + BIRD_RADIUS as real < GROUND_Y as real && y - BIRD_RADIUS as real <= 0.0 ==>
                  w'.bird == Bird(BIRD_RADIUS as real, 0.0, Tilt(v)))
            && (y + BIRD_RADIUS as real < GROUND_Y as real && y - BIRD_RADIUS as real > 0.0 ==>
                  w'.bird == Bird(y, v, Tilt(v)))
  {
  }

  /** A PLAYING tick ends the game exactly when the bird reaches the ground or
      the loop hits a pipe (the ceiling alone is never fatal); it never returns
      to the start screen; the score and speed never fall and the speed rises
      once per multiple of SPEED_INCREASE_INTERVAL reached; the high score never
      falls, and a game over records a better score. */
  lemma TickOutcome(w: World, s: real, r1: real, r2: real)
    requires IsRandom(r1) && IsRandom(r2)
    requires w.state == PLAYING
    ensures var w' := Tick(w, s, r1, r2);
            var b := Fall(w.bird);
            var y := if AtCeiling(b) then BIRD_RADIUS as real else b.y;
            && w'.state != START
            && (w'.state == GAME_OVER <==> OnGround(b) || Pass(w.pipes, y, w.score, w.speed).hit)
            && w.score <= w'.score
            && w'.speed == w.speed + SPEED_INCREASE_RATE
                                     * (w'.score / SPEED_INCREASE_INTERVAL - w.score / SPEED_INCREASE_INTERVAL) as real
            && w'.highScore >= w.highScore
            && (w'.state == PLAYING ==> w'.highScore == w.highScore)
            && (w'.state == GAME_OVER ==> w'.highScore >= w'.score)
            && (w'.state == GAME_OVER && w'.score > w.highScore ==> w'.highScore == w'.score)
  {
    var b := Fall(w.bird);
    if !OnGround(b) {
      PassBounds(w.pipes, if AtCeiling(b) then BIRD_RADIUS as real else b.y, w.score, w.speed);
    }
  }

  /** During play the one pipe scores exactly when it is cleared: if the bird
      survives the ground test, the frame adds a point exactly when the shifted
      pipe is not hit, was not yet passed and has its right edge left of the
      bird's hitbox. */
  lemma TickScores(w: World, s: real, r1: real, r2: real)
    requires IsRandom(r1) && IsRandom(r2)
    requires Invariant(w) && w.state == PLAYING && !OnGround(Fall(w.bird))
    ensures var b := Fall(w.bird);
            var y := if AtCeiling(b) then BIRD_RADIUS as real else b.y;
            var p := w.pipes[0];
            var q := p.(x := p.x - w.speed);
            Tick(w, s, r1, r2).score
            == w.score + (if !HitsPipe(y, q) && !p.passed && BIRD_LEFT > q.x + PIPE_WIDTH as real then 1 else 0)
  {
    var b := Fall(w.bird);
    var y := if AtCeiling(b) then BIRD_RADIUS as real else b.y;
    var v := VisitPipe(w.pipes[0], y, w.score, w.speed);
    assert w.pipes[..0] == [];
    assert Pass(w.pipes, y, w.score, w.speed).score == v.score;
  }

  /** From one frame to the next, the one pipe of a reachable playing state
      that the bird does not hit keeps its top height, gap and `passed` flag and
      moves left by the speed, becoming passed once cleared; once off screen it
      is replaced by a fresh pipe at the cursor plus PIPE_SPAWN_DISTANCE. A hit
      ends the game with the shifted pipe left in place. */
  lemma TickMovesPipe(w: World, s: real, r1: real, r2: real)
    requires IsRandom(r1) && IsRandom(r2)
    requires Invariant(w) && w.state == PLAYING && !OnGround(Fall(w.bird))
    ensures var b := Fall(w.bird);
            var y := if AtCeiling(b) then BIRD_RADIUS as real else b.y;
            var p := w.pipes[0];
            var q := p.(x := p.x - w.speed);
            var w' := Tick(w, s, r1, r2);
            && (!HitsPipe(y, q) && !OffScreen(q) ==>
                  w'.state == PLAYING && w'.pipes == [Advanced(p, w.speed)])
            && (!HitsPipe(y, q) && OffScreen(q) ==>
                  w'.state == PLAYING
                  && w'.pipes == [NewPipe(w.lastPipeX + PIPE_SPAWN_DISTANCE as real, r1, r2)])
            && (HitsPipe(y, q) ==> w'.state == GAME_OVER && w'.pipes == [q])
  {
    var b := Fall(w.bird);
    var y := if AtCeiling(b) then BIRD_RADIUS as real else b.y;
    var v := VisitPipe(w.pipes[0], y, w.score, w.speed);
    assert w.pipes[..0] == [];
    assert Pass(w.pipes[..0], y, v.score, v.speed) == Sweep([], v.score, v.speed, false, 0);
    CursorNeverScrolls(w);
  }

  /** After a loop with no hit, a new pipe is spawned exactly when the list
      became empty or the cursor is PIPE_SPAWN_DISTANCE inside the canvas; it
      goes at the cursor plus PIPE_SPAWN_DISTANCE, which becomes the new cursor.
      Otherwise the cursor does not move. */
  lemma TickSpawn(w: World, s: real, r1: real, r2: real)
    requires IsRandom(r1) && IsRandom(r2)
    requires w.state == PLAYING
    ensures var w' := Tick(w, s, r1, r2);
            var b := Fall(w.bird);
            var y := if AtCeiling(b) then BIRD_RADIUS as real else b.y;
            var r := Pass(w.pipes, y, w.score, w.speed);
            var x := w.lastPipeX + PIPE_SPAWN_DISTANCE as real;
            var spawns := !OnGround(b) && !r.hit
                          && (r.pipes == [] || CANVAS_WIDTH as real - w.lastPipeX >= PIPE_SPAWN_DISTANCE as real);
            && (spawns ==> && w'.state == PLAYING
                           && w'.lastPipeX == x
                           && w'.pipes == r.pipes + [NewPipe(x, r1, r2)])
            && (!spawns ==> && w'.lastPipeX == w.lastPipeX
                            && (w'.state == PLAYING ==> w'.pipes == r.pipes))
  {
  }

  /** `gameOver` keeps the larger of the run's score and the high score. */
  lemma GameOverKeepsBest(w: World)
    ensures var w' := GameOver(w);
            && w'.state == GAME_OVER
            && w'.highScore >= w.highScore && w'.highScore >= w.score
            && (w'.highScore == w.highScore || w'.highScore == w.score)
            && w' == w.(state := GAME_OVER, highScore := w'.highScore)
  {
  }

  // ----------------------------------------------------------------- input

  /** An input on the start screen starts play: the first pipe of the run
      appears at FIRST_PIPE_X, the cursor goes there, and the bird jumps. */
  lemma InputStarts(w: World, r1: real, r2: real)
    requires IsRandom(r1) && IsRandom(r2)
    requires w.state == START
    ensures var w' := Input(w, r1, r2);
            && w'.state == PLAYING
            && w'.pipes == w.pipes + [NewPipe(FIRST_PIPE_X, r1, r2)]
            && w'.lastPipeX == FIRST_PIPE_X
            && w'.bird == w.bird.(velocity := JUMP_STRENGTH)
            && w'.score == w.score && w'.speed == w.speed && w'.highScore == w.highScore
  {
  }

  /** An input during play only sets the bird's velocity to JUMP_STRENGTH. */
  lemma InputJumps(w: World, r1: real, r2: real)
    requires IsRandom(r1) && IsRandom(r2)
    requires w.state == PLAYING
    ensures var w' := Input(w, r1, r2);
            && w'.state == PLAYING
            && w'.bird.velocity == JUMP_STRENGTH
            && w' == w.(bird := w'.bird)
            && w'.bird == w.bird.(velocity := w'.bird.velocity)
  {
  }

  /** An input after game over resets to the start screen: bird at rest, no
      pipes, score 0, base speed, cursor at RESET_PIPE_X; the high score stays. */
  lemma InputResets(w: World, r1: real, r2: real)
    requires IsRandom(r1) && IsRandom(r2)
    requires w.state == GAME_OVER
    ensures var w' := Input(w, r1, r2);
            && w'.state == START
            && w'.bird == Bird(300.0, 0.0, 0.0)
            && w'.pipes == [] && w'.score == 0 && w'.speed == BASE_PIPE_SPEED
            && w'.lastPipeX == 600.0
            && w'.highScore == w.highScore
  {
  }

  // ------------------------------------------------- reachable-state invariant

  /** What holds of every state the game reaches from its initial state:
      - every pipe is well formed, and there is at most one;
      - the speed is the base speed plus one step per SPEED_INCREASE_INTERVAL points;
      - on the start screen there are no pipes and no score;
      - during play there is exactly one pipe;
      - once play has started, the spawn cursor is at least FIRST_PIPE_X,
        right of the canvas: it never scrolls. */
  ghost predicate Invariant(w: World)
  {
    && (forall p | p in w.pipes :: WellFormed(p))
    && |w.pipes| <= 1
    && w.speed == BASE_PIPE_SPEED
                  + SPEED_INCREASE_RATE * (w.score / SPEED_INCREASE_INTERVAL) as real
    && (w.state == START ==> w.pipes == [] && w.score == 0)
    && (w.state == PLAYING ==> |w.pipes| == 1)
    && (w.state != START ==> w.lastPipeX >= FIRST_PIPE_X)
  }

  lemma InitialInvariant()
    ensures Invariant(INITIAL_WORLD)
  {
  }

  /** The cursor quirk: during play the distance test
      `CANVAS_WIDTH - lastPipeX >= PIPE_SPAWN_DISTANCE` is always false, so the
      loop's spawn happens only when the pipe list has become empty. */
  lemma CursorNeverScrolls(w: World)
    requires Invariant(w) && w.state == PLAYING
    ensures CANVAS_WIDTH as real - w.lastPipeX < PIPE_SPAWN_DISTANCE as real
    ensures forall ps :: NeedsPipe(w.(pipes := ps)) <==> ps == []
  {
  }

  lemma {:induction false} TickInvariant(w: World, s: real, r1: real, r2: real)
    requires IsRandom(r1) && IsRandom(r2)
    requires Invariant(w)
    ensures Invariant(Tick(w, s, r1, r2))
  {
    if w.state == PLAYING {
      var b := Fall(w.bird);
      if !OnGround(b) {
        var y := if AtCeiling(b) then BIRD_RADIUS as real else b.y;
        var r := Pass(w.pipes, y, w.score, w.speed);
        PassBounds(w.pipes, y, w.score, w.speed);
        PassKeepsWellFormed(w.pipes, y, w.score, w.speed);
        CursorNeverScrolls(w);
        var after := w.(bird := if AtCeiling(b) then Bumped(b) else b,
                        pipes := r.pipes, score := r.score, speed := r.speed);
        if !r.hit && NeedsPipe(after) {
          var w' := Spawn(after, after.lastPipeX + PIPE_SPAWN_DISTANCE as real, r1, r2);
          assert r.pipes == [];
          assert w'.pipes == [NewPipe(after.lastPipeX + PIPE_SPAWN_DISTANCE as real, r1, r2)];
        }
      }
    }
  }

  lemma InputInvariant(w: World, r1: real, r2: real)
    requires IsRandom(r1) && IsRandom(r2)
    requires Invariant(w)
    ensures Invariant(Input(w, r1, r2))
  {
    if w.state == START {
      assert Input(w, r1, r2).pipes == [NewPipe(FIRST_PIPE_X, r1, r2)];
    }
  }

  // -------------------------------------------------------------- play runs

  /** What happens between two frames: an activation input, or a frame's tick
      with the sine of the clock phase; each carries the draws a spawn would use. */
  datatype Event = Press(r1: real, r2: real) | Frame(s: real, r1: real, r2: real)

  predicate ValidEvent(e: Event) { IsRandom(e.r1) && IsRandom(e.r2) }

  /** The state after one event. */
  function Step(w: World, e: Event): World
    requires ValidEvent(e)
  {
    match e
    case Press(r1, r2) => Input(w, r1, r2)
    case Frame(s, r1, r2) => Tick(w, s, r1, r2)
  }

  /** Events after the first are still valid. */
  lemma ValidTail(es: seq<Event>)
    requires es != [] && forall i | 0 <= i < |es| :: ValidEvent(es[i])
    ensures ValidEvent(es[0]) && forall i | 0 <= i < |es[1..]| :: ValidEvent(es[1..][i])
  {
    forall i | 0 <= i < |es[1..]| ensures ValidEvent(es[1..][i]) {
      assert es[1..][i] == es[i + 1];
    }
  }

  /** The state after the events `es`, in order. */
  function Replay(w: World, es: seq<Event>): World
    requires forall i | 0 <= i < |es| :: ValidEvent(es[i])
    decreases |es|
  {
    if es == [] then w
    else
      ValidTail(es);
      Replay(Step(w, es[0]), es[1..])
  }

  /** Every state reached by any run satisfies the invariant; in particular
      there is never more than one pipe, and during play the cursor test
      never fires. */
  lemma {:induction false} ReplayInvariant(w: World, es: seq<Event>)
    requires forall i | 0 <= i < |es| :: ValidEvent(es[i])
    requires Invariant(w)
    ensures Invariant(Replay(w, es))
    decreases |es|
  {
    if es != [] {
      ValidTail(es);
      match es[0] {
        case Press(r1, r2) => InputInvariant(w, r1, r2);
        case Frame(s, r1, r2) => TickInvariant(w, s, r1, r2);
      }
      ReplayInvariant(Step(w, es[0]), es[1..]);
    }
  }

  /** From the initial state, whatever happens, at most one pipe ever exists. */
  lemma AtMostOnePipe(es: seq<Event>)
    requires forall i | 0 <= i < |es| :: ValidEvent(es[i])
    ensures |Replay(INITIAL_WORLD, es).pipes| <= 1
  {
    InitialInvariant();
    ReplayInvariant(INITIAL_WORLD, es);
  }

  /** The high score never falls, whatever happens. */
  lemma {:induction false} ReplayKeepsHighScore(w: World, es: seq<Event>)
    requires forall i | 0 <= i < |es| :: ValidEvent(es[i])
    ensures Replay(w, es).highScore >= w.highScore
    decreases |es|
  {
    if es != [] {
      ValidTail(es);
      match es[0] {
        case Press(r1, r2) =>
        case Frame(s, r1, r2) =>
          if w.state == PLAYING {
            TickOutcome(w, s, r1, r2);
          }
      }
      ReplayKeepsHighScore(Step(w, es[0]), es[1..]);
    }
  }
}
