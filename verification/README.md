# Pong game loop, modelled in Dafny

A model of the per-frame simulation of a two-player Pong game (Rust, SDL2,
one `main` loop). Each loop iteration drains the pending input events into
four hold flags (or ends the loop on Quit / Escape), then either advances
an active round — paddle steps, paddle and wall collision tests, ball move,
side tests, point and reset — or steps the round lifecycle
(`first_time`, `game`) while no round is active.

The whole loop state is one immutable `Game.GameState` record and every
phase is a pure function over it:

| file | module | contents |
|---|---|---|
| `prims.dfy` | `Prims` | `Option`, `i32::abs`, Rust's truncating `/` |
| `config.dfy` | `Config` | window, ball and paddle constants, derived with integer division as the game does |
| `input.dfy` | `Input` | events, key bindings, hold flags, `HandleEvent`, `Poll` |
| `paddle.dfy` | `Paddle` | `PaddleStep`, the paddle range and the reachable grid |
| `ball.dfy` | `Ball` | symbolic `Angle`, `Displacement`, collision predicates, deflection, side tests |
| `game.dfy` | `Game` | `GameState`, the simulation phases, `Step`, `Frame`, `Run`, the loop invariant |

The ball's direction is a floating-point angle in the game. Here it is the
datatype `Ball.Angle`, a symbolic term recording how the game computed it:
`0.0`, `-PI`, `atan(q)`, `-atan(q)`, `-PI + atan(q)`, `PI - atan(q)` or the
negation of another angle. The integer quotient `q` that the game feeds to
`atan` is kept exactly, so the facts about the integer divisions are stated
on the model's own results. The per-frame displacement
`((12 * cos a) as i32, (12 * sin a) as i32)` is a parameter
`motion: Angle -> Displacement`, where `Displacement` is a pair of integers
each of magnitude at most `BallSpeed`. Truncating a value in [-12, 12]
toward zero gives exactly that. One `motion` serves a whole run, because
the cosine and sine of a given angle do not change.

Details of the code's behaviour the model keeps:

- The paddle limits are not a clamp. The limit is checked before the step,
  so from the reset height 360 a paddle reaches 48 and 672, two pixels
  past the limits 50 and 670 (`Paddle.PaddleOvershootsLimits`). The range
  that holds is `Paddle.InRange`, and more precisely `Paddle.OnGrid`.
- A paddle at its top limit with both keys held moves down, because the
  `else if` falls through to the down test.
- The serve direction after player 2 scores is `-PI`; after player 1
  scores it is `0.0`.
- The side tests use the ball's edges, not its centre: player 2 scores
  when `ball_x - 10 <= 6`, that is `ball_x <= 16`.
- The displacement is truncated toward zero by the `as i32` casts.
- The collision tests use the paddle positions after this frame's paddle
  step.

## Model

| member | source | states |
|---|---|---|
| Prims.Abs | src/main.rs:146-174 | `i32::abs` as the hit tests use it: the result is never negative and is either the argument or its negation |
| Prims.TruncDiv | src/main.rs:152-169 | Rust's `/` on `i32`: the remainder is smaller than the divisor in magnitude and has the dividend's sign, and the product never exceeds the dividend in magnitude |
| Prims.TruncDivAgreesWithEuclidean | src/main.rs:152-169 | on a non-negative dividend and a positive divisor, Rust's truncating division equals Dafny's Euclidean `/` |
| Input.HandleEvent | src/main.rs:79-119 | an event ends the loop exactly when it is Quit or an Escape key-down; otherwise each hold flag takes the value the event writes into it (true on press, false on release of its bound key), and every other flag keeps its old value |
| Input.Poll | src/main.rs:77-120 | the drain completes exactly when no event ends the loop; otherwise it stops at the first event that does, and no earlier event ends it |
| Input.PollKeepsLastWrite | src/main.rs:77-120 | after a full drain, each flag holds what the last press or release of its own key wrote, or its old value if no event touched it |
| Input.PollIgnoresRest | src/main.rs:81-85 | events after the one that ends the loop are never processed: replacing them does not change the outcome |
| Paddle.PaddleStep | src/main.rs:125-141 | the paddle moves by exactly one step or not at all; it moves up exactly when up is held and it is below the top limit, and down exactly when down is held, it is above the bottom limit and the up move did not happen, so up wins |
| Paddle.PaddleStepStaysInRange | src/main.rs:125-141 | the reset height lies in the range PaddleLimitMin − PaddleSpeed < y < PaddleLimitMax + PaddleSpeed, that is (42, 678), and every step keeps a paddle in it |
| Paddle.PaddleStepStaysOnGrid | src/main.rs:125-141 | the reset height is on the grid 48, 56, …, 672, every step keeps a paddle on it, and the grid lies inside the range |
| Paddle.PaddleOvershootsLimits | src/main.rs:125-132 | the limits are not a clamp: from grid positions a paddle steps to 672 and to 48, past both limits |
| Ball.CollisionBands | src/main.rs:146-174 | paddle 1 is hit at ball x in [119, 131], paddle 2 at x in [949, 961], each within 60 px of the paddle centre vertically, and the walls at y in [4, 16] or [704, 716]; no ball hits both paddles |
| Ball.Paddle1Angle | src/main.rs:150-157 | on a paddle-1 hit the direction is −atan(q) when the ball is at or above the paddle centre and atan(q) below it, where q is the vertical offset divided by the gap; the gap is in [11, 23], so the division never divides by zero; q equals the Euclidean quotient and lies in [0, 5] |
| Ball.Paddle2Angle | src/main.rs:163-170 | on a paddle-2 hit the direction is −PI + atan(q) at or above the paddle centre and PI − atan(q) below it, with the same divisor and quotient bounds |
| Ball.HitsPaddle1 | src/main.rs:146-148 | the paddle-1 hit test: the ball's left edge within 6 px of the paddle's right edge and the two overlapping vertically (its bands are stated by `Ball.CollisionBands`) |
| Ball.HitsPaddle2 | src/main.rs:159-161 | the paddle-2 hit test: the ball's right edge within 6 px of the paddle's left edge and the two overlapping vertically (bands in `Ball.CollisionBands`) |
| Ball.HitsWall | src/main.rs:173-174 | the wall test: the ball's top edge within 6 px of y = 0 or its bottom edge within 6 px of the window's height (bands in `Ball.CollisionBands`) |
| Ball.PaddleResponse | src/main.rs:146-171 | paddle 1 is checked first: a hit gives −atan(q) at or above the paddle centre and atan(q) below it, with q the vertical offset divided by the gap, at most 5; otherwise a paddle-2 hit gives −PI + atan(q) or PI − atan(q) likewise; with no hit the direction is kept |
| Ball.WallResponse | src/main.rs:173-177 | a ball near the top or bottom wall has its direction negated; otherwise the direction is kept |
| Ball.PointScored | src/main.rs:183-195 | player 2 scores exactly when the ball centre is at x ≤ 16; player 1 scores exactly when x ≥ 1064; nobody scores strictly between them |
| Game.MovePaddles | src/main.rs:124-141 | each paddle steps according to its own two flags only, and nothing else in the state changes |
| Game.MoveBall | src/main.rs:143-180 | the ball moves by the displacement for its new direction, at most 12 px per axis; before any wall bounce the direction is the paddle-1 direction (sign and quotient as in `Ball.PaddleResponse`) on a paddle-1 hit, else the paddle-2 direction on a paddle-2 hit, else the old direction; a wall hit negates exactly that direction; nothing else changes |
| Game.Reset | src/main.rs:186-205 | ball at (540, 360), both paddles at 360, the given serve direction, round over, scores and flags untouched |
| Game.ScoreAndReset | src/main.rs:183-206 | no point leaves the state alone; a point for player 2 raises only that score by one and resets with serve −PI; a point for player 1 raises only that score by one and resets with serve 0.0 |
| Game.Simulate | src/main.rs:122-206 | in an active round at most one score rises, by exactly one; the round stays active exactly when nobody scored, and then the ball is strictly inside the side bands and the paddles have taken their step; after a point the state is reset, with serve −PI if player 2 scored and 0.0 otherwise |
| Game.Idle | src/main.rs:208-222 | with no active round, ball, direction, paddles, scores and flags are frozen; the first idle frame only clears `first_time`, and a later one starts the round |
| Game.Step | src/main.rs:122-222 | scores never decrease and at most one rises, by one, and only in an active round, which that point ends; with no active round the state is frozen apart from the lifecycle flags; a state with both `game` and `first_time` set is left unchanged |
| Game.Frame | src/main.rs:77-222 | a frame ends the loop exactly when one of its events is Quit or an Escape key-down; otherwise scores change by at most one point, and positions and scores are frozen with no active round |
| Game.InitialInv | src/main.rs:47-68 | the start state satisfies the loop invariant, with no round active and `first_time` set |
| Game.StepPreservesInv | src/main.rs:122-222 | each simulation step keeps the invariant: `game` implies not `first_time`, both paddles on the grid, ball x in (16, 1064) |
| Game.FramePreservesInv | src/main.rs:77-222 | each loop iteration that does not end the loop keeps the invariant |
| Game.Run | src/main.rs:71-243 | the `'run` loop: frames one after another until the frames run out or an event ends the loop (its properties are `Game.RunPreservesInv` and `Game.RunScores`) |
| Game.RunPreservesInv | src/main.rs:71-243 | the invariant holds after any number of frames of `Game.Run` |
| Game.RunScores | src/main.rs:183-206 | over a run, scores never decrease, and n frames add at most (n + 1) / 2 points, or n / 2 when the run starts between rounds (real division: a point ends the round and the next frame can only restart it) |
| Game.ServeMovesBallRight | src/main.rs:179-180 | from the centre with direction 0.0 and a full-speed horizontal displacement, one active frame moves the ball 12 px right, leaves its height and direction, and keeps the round going |

## Left out

- SDL initialisation, the window, canvas, font and event pump, and their
  failures, which abort the program (src/main.rs:25-44). These are
  foreign library calls.
- Rendering: the per-frame background clear, `draw_rec`, the score text
  and its texture, and `present` (src/main.rs:15-19, 73-74, 224-241).
  They read the state and never change it; their `expect` and `unwrap`
  calls (src/main.rs:18, 233, 237, 239) can abort the program on a
  drawing failure, which the model does not cover.
- The 2-second serve delay and the 1/60 s frame pacing (src/main.rs:218,
  242). These are real-time sleeps. The serve delay is the idle-to-active
  transition of `Game.Idle`.
- The floating-point angle: `atan`, `cos`, `sin` and the `as f64` / `as i32`
  casts (src/main.rs:152-180). The angle is the symbolic `Ball.Angle`, and
  the per-frame displacement comes from the `motion` parameter.
- Game.MoveBall: states the displacement only through `motion` and its
  bound of 12 px per axis. The actual cosine and sine of the angle are not
  modelled.
- The `i32` width of positions: the model uses unbounded integers. Ball x
  and both paddle heights are proved to stay small (`Game.Inv`). Ball y's
  range depends on the trigonometry and is not bounded here.
- The `u32` width of the scores: they are unbounded naturals. Overflow
  would need more than four billion points.
- `i32::abs` overflow at `i32::MIN`: no compared quantity comes near it.
