# Flappy-bird game core in Dafny

This project models the simulation core of the canvas flappy-bird game in
`components/GameCanvas.tsx`. That core is the game's mutable state: the phase
(`START`, `PLAYING`, `GAME_OVER`), the bird, the pipe list, the score, the
scroll speed, the spawn cursor `lastPipeX` and the high score. It also covers
the functions that change this state:

- `spawnPipe` draws a new pipe;
- `resetGame`, `startGame`, `jump` and `gameOver` move between phases;
- `updatePhysics` runs one frame of the simulation: gravity, drag, the ground
  and the ceiling, the reverse pipe loop with hit test, scoring, speed-up and
  removal, and the spawn test;
- the input dispatch of `handleInput` turns a key, click or touch into one of
  the above.

The project has five modules:

- `Constants` holds the values of `constants.ts`, and `Types` the game phase,
  the bird and the pipe of `types.ts`.
- `Rules` states each operation as a pure function on a `World` value, one
  value holding all the refs. The reverse pipe loop is stated as `Pass`, which
  visits the last pipe first and recurses on the ones before it.
- `GameCanvas` holds the class `Game`. Its fields are the refs, and its
  methods update them in place as the source does. The pipe loop is a `while`
  loop running from the last index down to 0. Every method is proved to leave
  the object in the state that its `Rules` function computes from the old
  state.
- `Properties` proves what the rules promise:
  - the bounds of a spawned pipe, and that every pipe within them can be drawn;
  - the input transitions;
  - the bird's flight, ground and ceiling behaviour;
  - shift, removal and order of the pipes;
  - a pipe scores exactly when the bird clears it; its `passed` flag, top height
    and gap then carry over from frame to frame, so it scores once; the speed
    steps up once per ten points;
  - the high score never falls;
  - an invariant of every state the game can reach from its initial state.

`Math.random()` draws become parameters `r1`, `r2` with `0 <= r < 1`.
`Math.sin(Date.now() / 300)` on the start screen becomes a parameter `s`;
the start-screen bound in `TickWhenNotPlaying` is stated for the case
`-1 <= s <= 1`, as the hypothesis of an implication in its postcondition.

## The spawn cursor quirk

`lastPipeX` is set to the x of each new pipe and is never scrolled with the
pipes. Play always begins with a pipe at `CANVAS_WIDTH + 100` = 500, so from
then on the cursor stays at 500 or beyond. The test
`CANVAS_WIDTH - lastPipeX >= PIPE_SPAWN_DISTANCE` (400 - 500 >= 220 at best)
is therefore never true during play. A new pipe appears only once the list is
empty, at the cursor plus 220, which is further right each time. So at most one
pipe ever exists. `CursorNeverScrolls`, `ReplayInvariant` and `AtMostOnePipe`
prove this for the code as written; the model keeps the behaviour.

Two details of the code that a reader might not expect, which the model
follows:

- `lastPipeX` starts at 0, not at a position ahead of the bird.
- `resetGame` sets the cursor to `CANVAS_WIDTH + 200` = 600, but that value is
  never read. `startGame` always overwrites it with 500 before any tick uses it.

## Model

| member | source | states |
|---|---|---|
| Rules.ScaledFloor | components/GameCanvas.tsx:88 | `floor(r * m)` of a draw `0 <= r < 1` lies in `[0, m - 1]` |
| Rules.NewGap | components/GameCanvas.tsx:88 | a drawn gap lies in `[MIN_PIPE_GAP, MAX_PIPE_GAP]` = [120, 180] |
| Rules.NewTopHeight | components/GameCanvas.tsx:89-92 | a drawn top height lies in `[50, max(50, CANVAS_HEIGHT - GROUND_HEIGHT - gap - 50)]` |
| Rules.NewPipe | components/GameCanvas.tsx:87-99 | a new pipe is well formed: its gap is in [120, 180], both segments are at least 50 tall and the gap ends above the ground; it sits at `startX` and is not yet passed |
| Rules.Tilt | components/GameCanvas.tsx:153-156 | the tilt is `velocity * 0.05` clamped to `[-PI/4, PI/2]`: equal to it within range, and the nearer bound outside |
| Properties.GapReachable | components/GameCanvas.tsx:88 | every integer gap from 120 to 180, both ends included, is drawn for some random value |
| Properties.TopReachable | components/GameCanvas.tsx:89-92 | every integer top height from 50 to `max(50, 500 - gap)`, both ends included, is drawn for some random value |
| Properties.PipeReachable | components/GameCanvas.tsx:87-99 | every well-formed, unpassed pipe at `startX` is the pipe `spawnPipe(startX)` pushes for some pair of draws, the converse of `NewPipe`'s contract |
| Properties.SpawnAppendsOnePipe | components/GameCanvas.tsx:87-101 | spawning appends exactly one well-formed, unpassed pipe at `startX`, keeps the earlier pipes in place, moves the cursor to `startX` and changes nothing else |
| Properties.WellFormedSegments | components/GameCanvas.tsx:89-92 | both segments of a generated pipe are at least 50 tall, and a bird centred in the gap is not outside it |
| Properties.FallFromRest | components/GameCanvas.tsx:149-151 | gravity is added before drag: one tick from rest at mid-canvas gives velocity 0.294 and y 300.294 |
| Properties.IntervalStep | components/GameCanvas.tsx:194 | raising the score by one crosses a multiple of SPEED_INCREASE_INTERVAL exactly when the new score is one |
| Properties.VisitFacts | components/GameCanvas.tsx:174-201 | one loop step moves the pipe left by exactly the speed and keeps its shape; an unpassed pipe becomes passed exactly when it is not hit and its right edge is left of the bird's hitbox (x + 60 < 84), and `passed` never goes back; the score rises by one exactly when the flag flips; a hit changes neither score nor speed; the pipe is spliced out exactly when it is not hit and is off screen |
| Properties.VisitSpeed | components/GameCanvas.tsx:188-197 | one step raises the score by 0 or 1, and the speed by SPEED_INCREASE_RATE exactly when the score reaches a new multiple of 10 |
| Properties.SpeedUpAtTen | components/GameCanvas.tsx:194-196 | scoring the 10th point adds 0.2 to the speed, and scoring the 11th adds nothing |
| Properties.PassBounds | components/GameCanvas.tsx:174-202 | over one loop run the score rises by at most one per visited pipe; all pipes are visited unless the loop stopped on a hit; no pipe is added; the speed rises once per multiple of 10 the score reached and never falls |
| Properties.PassKeepsUnvisited | components/GameCanvas.tsx:174-186 | a hit returns at once: the pipes below the hit index are left as they were, and the hit pipe is shifted and meets the hitbox test |
| Properties.PassKeepsWellFormed | components/GameCanvas.tsx:174-202 | every pipe left after the loop is well formed when those before it were |
| Properties.PassScrolls | components/GameCanvas.tsx:174-202 | a run with no hit and no speed-up turns the pipes into exactly their advanced copies: each moved left by the speed with its own top height and gap, passed if it was already or is now cleared; those then off screen are removed, the rest keep their order, and none left is off screen |
| Properties.TickWhenNotPlaying | components/GameCanvas.tsx:139-147 | outside play a frame touches only the bird; in GAME_OVER it changes nothing; on the start screen the bird bobs within 10 of mid-canvas and is level |
| Properties.TickFlight | components/GameCanvas.tsx:149-167 | a playing frame adds gravity, then applies drag, then moves the bird by the new velocity, with the tilt in range; on the ground the bird rests at 530, play ends and pipes and score are untouched; at the ceiling the bird is pinned at 20 with zero velocity |
| Properties.TickOutcome | components/GameCanvas.tsx:138-210 | a playing frame ends the game exactly when the bird reaches the ground or hits a pipe; it never returns to START; score and speed never fall, and the speed follows the score; the high score never falls, stays the same while play continues, and records a better score at game over |
| Properties.TickScores | components/GameCanvas.tsx:174-197 | in a reachable playing frame that survives the ground test, the score rises by one exactly when the shifted pipe is not hit, not yet passed, and has its right edge left of the bird's hitbox; otherwise it stays |
| Properties.TickMovesPipe | components/GameCanvas.tsx:174-207 | in a reachable playing frame that survives the ground test: a pipe that is not hit and stays on screen is the same pipe one frame on, moved left by the speed with its top height, gap and `passed` flag kept, and flagged once cleared; one that goes off screen is replaced by a fresh pipe at cursor + 220; a hit ends the game with the shifted pipe in place |
| Properties.TickSpawn | components/GameCanvas.tsx:204-207 | a playing frame spawns exactly when the bird is off the ground, the loop had no hit, and the list became empty or the cursor is 220 inside the canvas; the pipe goes at cursor + 220, which becomes the cursor; otherwise the cursor stays |
| Properties.GameOverKeepsBest | components/GameCanvas.tsx:127-136 | `gameOver` enters GAME_OVER, keeps the larger of score and high score, and changes nothing else |
| Properties.InputStarts | components/GameCanvas.tsx:322-323 | an input on the start screen starts play with the first pipe at 500, the cursor at 500, and the bird jumping |
| Properties.InputJumps | components/GameCanvas.tsx:324-325 | an input during play only sets the bird's velocity to -6 |
| Properties.InputResets | components/GameCanvas.tsx:326-327 | an input after game over resets to START: bird (300, 0, 0), no pipes, score 0, speed 2, cursor 600, high score kept |
| Properties.InitialInvariant | components/GameCanvas.tsx:39-49 | the initial refs satisfy the reachable-state invariant |
| Properties.CursorNeverScrolls | components/GameCanvas.tsx:204 | in any reachable playing state the cursor distance test is false, so a pipe is spawned exactly when the list is empty |
| Properties.TickInvariant | components/GameCanvas.tsx:138-210 | a frame keeps the reachable-state invariant: pipes well formed, at most one pipe, exactly one during play, speed = 2 + 0.2 * (score div 10), cursor at least 500 outside the start screen |
| Properties.InputInvariant | components/GameCanvas.tsx:322-328 | an input keeps the reachable-state invariant |
| Properties.ReplayInvariant | components/GameCanvas.tsx:138-210 | every state reached by any sequence of inputs and frames keeps the invariant |
| Properties.AtMostOnePipe | components/GameCanvas.tsx:204-207 | from the initial state, no sequence of inputs and frames ever produces more than one pipe |
| Properties.ReplayKeepsHighScore | components/GameCanvas.tsx:132-135 | over any sequence of inputs and frames the high score never falls |
| GameCanvas.LoopIsPass | components/GameCanvas.tsx:174-202 | running the reverse loop from the last index down is the same as the structural pass `Pass`, including the early return on a hit |
| GameCanvas.Game.constructor | components/GameCanvas.tsx:39-49 | the refs start as START, bird (300, 0, 0), no pipes, score 0, speed 2, cursor 0, high score 0, and this state satisfies the invariant |
| GameCanvas.Game.SpawnPipe | components/GameCanvas.tsx:87-101 | the method appends the drawn pipe and moves the cursor, as `Rules.Spawn` |
| GameCanvas.Game.ResetGame | components/GameCanvas.tsx:103-112 | the method resets bird, pipes, score, speed, phase and cursor, as `Rules.Reset` |
| GameCanvas.Game.StartGame | components/GameCanvas.tsx:114-120 | the method enters PLAYING, spawns at 500 and jumps, as `Rules.Start` |
| GameCanvas.Game.Jump | components/GameCanvas.tsx:122-125 | the method sets the bird's velocity to JUMP_STRENGTH, as `Rules.Jump` |
| GameCanvas.Game.GameOver | components/GameCanvas.tsx:127-136 | the method enters GAME_OVER and raises the high score to a better score, as `Rules.GameOver` |
| GameCanvas.Game.UpdatePhysics | components/GameCanvas.tsx:138-210 | the method performs one frame as `Rules.Tick` and keeps the reachable-state invariant |
| GameCanvas.Game.MovePipes | components/GameCanvas.tsx:174-202 | the in-place reverse loop, with splicing, leaves pipes, score and speed as `Rules.Pass` computes, reports whether it hit, and changes nothing else |
| GameCanvas.Game.HandleInput | components/GameCanvas.tsx:322-328 | the method dispatches on the phase as `Rules.Input` and keeps the reachable-state invariant |

## Left out

- Drawing (`draw`, the sky, pipes, ground and bird), the JSX and `handleResize` scaling are rendering only; they read the state and never change it.
- The `requestAnimationFrame` loop, event listeners and the `touchstart` check only schedule `updatePhysics` and `handleInput`; the model treats each frame and each input as one call.
- `audioService` calls (jump, score, crash sounds) have no effect on the game state.
- `localStorage` loading and saving of the high score (with `parseInt`) is I/O; the model's high score starts at 0, and saving is not modelled.
- The high score is a React state, not a ref. The callbacks may see a stale value of it after `setHighScore`. The model treats it as a field that always holds the latest value.
- Properties.ReplayKeepsHighScore: the property holds of the model's latest-value high-score field only. In the source, `gameOver` compares against the `highScore` captured when the loop effect last ran, and that effect reruns only on a canvas resize. So after a best of 5, a later run scoring 3 passes `3 > 0` and overwrites the stored best with 3: the source's high score can fall. The high-score clauses of `TickOutcome` and `GameOverKeepsBest` rest on the same idealisation.
- `setDisplayScore` and `setCurrentGameState` copy the state for the UI and are left out.
- `groundOffset` (lines 44, 144, 209) is a drawing offset only; nothing in the game reads it.
- `Date.now()` and `Math.sin` become the parameter `s`, and `Math.random()` becomes the parameters `r1` and `r2`.
- Positions, velocities and the speed are exact reals, not IEEE doubles, so rounding is not modelled. `Math.PI` is the decimal constant 3.141592653589793.
- Pipes are values, not shared objects. The source mutates a pipe object through `p`, but nothing else refers to it, so there is no aliasing to model.
- GameCanvas.Game.MovePipes: when the loop hits a pipe, the method returns `true` instead of calling `gameOver` inside the loop. `UpdatePhysics` then calls `GameOver` and returns. The state the two versions reach is the same.
- Properties.PassScrolls: it states the pipes after the run only for runs whose speed does not change. When the speed steps up during a run, the pipes visited after the step move by the new speed. `PassBounds` covers that case only for score and speed.
- `App.tsx`, the `GameConfig` type and the screens around the game are not part of this model.
