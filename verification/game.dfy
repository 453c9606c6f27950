/**
 * The game loop's state and its per-frame transition: drain the input
 * events, then either advance an active round (paddles, ball, point and
 * reset) or step the round lifecycle while the round is idle.
 *
 * Lifecycle: the game starts with `firstTime` set and no active round; the
 * first idle frame only clears `firstTime` (so the start layout is drawn
 * once), every later idle frame starts the round after the serve delay,
 * and a point ends the round again.
 */
module Game {
  import opened Prims
  import opened Config
  import opened Input
  import opened Paddle
  import opened Ball

  datatype GameState = GameState(
    flags: Flags,
    ballX: int,
    ballY: int,
    angle: Angle,
    paddle1Y: int,
    paddle2Y: int,
    scoreP1: nat,
    scoreP2: nat,
    game: bool,        // a round is being played
    firstTime: bool)   // the first frame has not been drawn yet

  /** Nothing held, ball and paddles centred, serving towards player 2, no points. */
  const Initial: GameState :=
    GameState(NoneHeld, CenterX, CenterY, Zero, CenterY, CenterY, 0, 0, false, true)

  /** Both scores are unchanged, or exactly one of them went up by exactly one. */
  predicate ScoresStep(s: GameState, r: GameState) {
    || (r.scoreP1 == s.scoreP1 && r.scoreP2 == s.scoreP2)
    || (r.scoreP1 == s.scoreP1 + 1 && r.scoreP2 == s.scoreP2)
    || (r.scoreP1 == s.scoreP1 && r.scoreP2 == s.scoreP2 + 1)
  }

  predicate SameScores(s: GameState, r: GameState) {
    r.scoreP1 == s.scoreP1 && r.scoreP2 == s.scoreP2
  }

  /** Ball, direction, paddles, scores and hold flags are all as they were. */
  predicate Frozen(s: GameState, r: GameState) {
    && r.ballX == s.ballX && r.ballY == s.ballY && r.angle == s.angle
    && r.paddle1Y == s.paddle1Y && r.paddle2Y == s.paddle2Y
    && SameScores(s, r) && r.flags == s.flags
  }

  /** Ball and paddles back at their start positions, serving in direction `serve`, round over. */
  predicate IsReset(r: GameState, serve: Angle) {
    && !r.game
    && r.ballX == CenterX && r.ballY == CenterY && r.angle == serve
    && r.paddle1Y == CenterY && r.paddle2Y == CenterY
  }

  /**
   * Each paddle takes one step according to its own two hold flags; the
   * other paddle's flags play no part, and nothing else changes.
   */
  function MovePaddles(s: GameState): (r: GameState)
    ensures r.paddle1Y == PaddleStep(s.paddle1Y, s.flags.upP1, s.flags.downP1)
    ensures r.paddle2Y == PaddleStep(s.paddle2Y, s.flags.upP2, s.flags.downP2)
    ensures r.(paddle1Y := s.paddle1Y, paddle2Y := s.paddle2Y) == s
  {
    s.(paddle1Y := PaddleStep(s.paddle1Y, s.flags.upP1, s.flags.downP1),
       paddle2Y := PaddleStep(s.paddle2Y, s.flags.upP2, s.flags.downP2))
  }

  /**
   * The ball's direction is decided by the paddle tests, then the wall
   * test, against the paddles' new positions; the ball then moves by the
   * displacement `motion` gives for that direction.
   */
  function MoveBall(s: GameState, motion: Angle -> Displacement): (r: GameState)
    ensures Abs(r.ballX - s.ballX) <= BallSpeed && Abs(r.ballY - s.ballY) <= BallSpeed
    ensures (r.ballX - s.ballX, r.ballY - s.ballY) == motion(r.angle)
    ensures HitsWall(s.ballY) ==> r.angle.Negated?
    ensures
      // the direction the paddle tests chose, before any wall bounce negated it
      var p := if HitsWall(s.ballY) then r.angle.a else r.angle;
      && (HitsPaddle1(s.ballX, s.ballY, s.paddle1Y) ==>
            Paddle1Direction(p, s.ballX, s.ballY, s.paddle1Y))
      && (!HitsPaddle1(s.ballX, s.ballY, s.paddle1Y) && HitsPaddle2(s.ballX, s.ballY, s.paddle2Y) ==>
            Paddle2Direction(p, s.ballX, s.ballY, s.paddle2Y))
      && (!HitsPaddle1(s.ballX, s.ballY, s.paddle1Y) && !HitsPaddle2(s.ballX, s.ballY, s.paddle2Y) ==>
            p == s.angle)
    ensures r.(ballX := s.ballX, ballY := s.ballY, angle := s.angle) == s
  {
    CollisionBands(s.ballX, s.ballY, s.paddle1Y, s.paddle2Y);
    var a := WallResponse(s.ballY, PaddleResponse(s.ballX, s.ballY, s.paddle1Y, s.paddle2Y, s.angle));
    var d := motion(a);
    s.(angle := a, ballX := s.ballX + d.0, ballY := s.ballY + d.1)
  }

  /** The end of a round: ball and paddles recentred, serving in direction `serve`. */
  function Reset(s: GameState, serve: Angle): (r: GameState)
    ensures IsReset(r, serve)
    ensures SameScores(s, r) && r.flags == s.flags && r.firstTime == s.firstTime
  {
    s.(game := false, ballX := CenterX, ballY := CenterY, angle := serve,
       paddle1Y := CenterY, paddle2Y := CenterY)
  }

  /**
   * The side tests after the ball has moved. A ball at the left side
   * gives player 2 a point and the next serve goes left (-PI); otherwise a
   * ball at the right side gives player 1 a point and the serve goes right
   * (0.0). Either way the round ends.
   */
  function ScoreAndReset(s: GameState): (r: GameState)
    ensures PointScored(s.ballX) == NoPoint ==> r == s
    ensures PointScored(s.ballX) == PointToP2 ==>
      r.scoreP2 == s.scoreP2 + 1 && r.scoreP1 == s.scoreP1 && IsReset(r, MinusPi)
    ensures PointScored(s.ballX) == PointToP1 ==>
      r.scoreP1 == s.scoreP1 + 1 && r.scoreP2 == s.scoreP2 && IsReset(r, Zero)
    ensures r.flags == s.flags && r.firstTime == s.firstTime
  {
    match PointScored(s.ballX)
    case NoPoint => s
    case PointToP2 => Reset(s.(scoreP2 := s.scoreP2 + 1), MinusPi)
    case PointToP1 => Reset(s.(scoreP1 := s.scoreP1 + 1), Zero)
  }

  /**
   * One frame of an active round. At most one score rises, by one; the
   * round stays active exactly when no point was scored, and then the ball
   * is strictly inside the side bands and the paddles have taken their
   * step; after a point everything is reset.
   */
  function Simulate(s: GameState, motion: Angle -> Displacement): (r: GameState)
    requires s.game
    ensures ScoresStep(s, r)
    ensures r.game <==> SameScores(s, r)
    ensures r.game ==> 16 < r.ballX < 1064
    ensures r.game ==> r.paddle1Y == PaddleStep(s.paddle1Y, s.flags.upP1, s.flags.downP1)
    ensures r.game ==> r.paddle2Y == PaddleStep(s.paddle2Y, s.flags.upP2, s.flags.downP2)
    ensures !r.game ==> IsReset(r, if r.scoreP2 > s.scoreP2 then MinusPi else Zero)
    ensures r.flags == s.flags && r.firstTime == s.firstTime
  {
    ScoreAndReset(MoveBall(MovePaddles(s), motion))
  }

  /**
   * A frame with no active round: the first one only clears `firstTime`,
   * later ones start the round (after the serve delay, not modelled).
   */
  function Idle(s: GameState): (r: GameState)
    requires !s.game
    ensures Frozen(s, r)
    ensures !r.firstTime
    ensures r.game <==> !s.firstTime
  {
    if s.firstTime then s.(firstTime := false) else s.(game := true)
  }

  /**
   * The simulation part of one frame, chosen by the lifecycle flags. A
   * state with both `game` and `firstTime` set matches neither branch and
   * is left as it is; no reachable state has both (see `Inv`).
   */
  function Step(s: GameState, motion: Angle -> Displacement): (r: GameState)
    ensures ScoresStep(s, r)
    ensures r.scoreP1 >= s.scoreP1 && r.scoreP2 >= s.scoreP2
    ensures !SameScores(s, r) ==> s.game && !s.firstTime && !r.game
    ensures !s.game ==> Frozen(s, r) && !r.firstTime && (r.game <==> !s.firstTime)
    ensures s.game && s.firstTime ==> r == s
    ensures r.flags == s.flags
  {
    if s.game && !s.firstTime then Simulate(s, motion)
    else if !s.game then Idle(s)
    else s
  }

  datatype FrameOutcome = Exit | Next(state: GameState)

  /**
   * One iteration of the game loop: the events, then the simulation.
   * An event that ends the loop ends it at once, before any simulation.
   */
  function Frame(s: GameState, events: seq<Event>, motion: Angle -> Displacement): (r: FrameOutcome)
    ensures r.Exit? <==> exists i :: 0 <= i < |events| && EndsLoop(events[i])
    ensures r.Next? ==> ScoresStep(s, r.state)
    ensures r.Next? && !s.game ==>
      r.state.ballX == s.ballX && r.state.ballY == s.ballY && r.state.angle == s.angle
      && r.state.paddle1Y == s.paddle1Y && r.state.paddle2Y == s.paddle2Y && SameScores(s, r.state)
  {
    match Poll(s.flags, events)
    case Stopped(_) => Exit
    case Drained(f) => Next(Step(s.(flags := f), motion))
  }

  /**
   * What the loop keeps true from its first frame on: a round is never
   * active while `firstTime` is set, both paddles are at reachable grid
   * positions, and the ball's centre is strictly inside the side bands.
   */
  predicate Inv(s: GameState) {
    && (s.game ==> !s.firstTime)
    && OnGrid(s.paddle1Y) && OnGrid(s.paddle2Y)
    && 16 < s.ballX < 1064
  }

  lemma InitialInv()
    ensures Inv(Initial)
    ensures !Initial.game && Initial.firstTime
  {
    PaddleStepStaysOnGrid(CenterY, false, false);
  }

  lemma {:induction false} StepPreservesInv(s: GameState, motion: Angle -> Displacement)
    requires Inv(s)
    ensures Inv(Step(s, motion))
  {
    PaddleStepStaysOnGrid(s.paddle1Y, s.flags.upP1, s.flags.downP1);
    PaddleStepStaysOnGrid(s.paddle2Y, s.flags.upP2, s.flags.downP2);
  }

  lemma FramePreservesInv(s: GameState, events: seq<Event>, motion: Angle -> Displacement)
    requires Inv(s)
    ensures Frame(s, events, motion).Next? ==> Inv(Frame(s, events, motion).state)
  {
    if Poll(s.flags, events).Drained? {
      StepPreservesInv(s.(flags := Poll(s.flags, events).flags), motion);
    }
  }

  datatype RunResult = RunResult(last: GameState, exited: bool)

  /**
   * The loop over a sequence of frames, each with the events polled in
   * it, until the frames run out or an event ends the loop; `last` is the
   * state after the last completed frame.
   */
  function Run(s: GameState, frames: seq<seq<Event>>, motion: Angle -> Displacement): RunResult
    decreases |frames|
  {
    if |frames| == 0 then RunResult(s, false)
    else match Frame(s, frames[0], motion)
      case Exit => RunResult(s, true)
      case Next(t) => Run(t, frames[1..], motion)
  }

  lemma {:induction false} RunPreservesInv(s: GameState, frames: seq<seq<Event>>, motion: Angle -> Displacement)
    requires Inv(s)
    ensures Inv(Run(s, frames, motion).last)
    decreases |frames|
  {
    if |frames| > 0 {
      FramePreservesInv(s, frames[0], motion);
      if Frame(s, frames[0], motion).Next? {
        RunPreservesInv(Frame(s, frames[0], motion).state, frames[1..], motion);
      }
    }
  }

  function Points(s: GameState): nat {
    s.scoreP1 + s.scoreP2
  }

  /**
   * Scores never go down, and since a point ends the round and the next
   * frame can only restart it, a run of n frames scores at most half of
   * n + 1 points, and at most half of n when it starts between rounds.
   */
  lemma {:induction false} RunScores(s: GameState, frames: seq<seq<Event>>, motion: Angle -> Displacement)
    ensures Run(s, frames, motion).last.scoreP1 >= s.scoreP1
    ensures Run(s, frames, motion).last.scoreP2 >= s.scoreP2
    ensures 2 * Points(Run(s, frames, motion).last) <= 2 * Points(s) + |frames| + (if s.game then 1 else 0)
    decreases |frames|
  {
    if |frames| > 0 {
      match Frame(s, frames[0], motion)
      case Exit =>
      case Next(t) =>
        RunScores(t, frames[1..], motion);
    }
  }

  /**
   * A serve to the right from the centre, with `motion` giving the full
   * speed horizontally for angle 0.0, moves the ball 12 pixels right and
   * leaves its height and direction alone.
   */
  lemma ServeMovesBallRight(s: GameState, motion: Angle -> Displacement)
    requires s.game && !s.firstTime
    requires s.ballX == CenterX && s.ballY == CenterY && s.angle == Zero
    requires motion(Zero) == (BallSpeed, 0)
    ensures Step(s, motion).ballX == CenterX + 12
    ensures Step(s, motion).ballY == CenterY
    ensures Step(s, motion).angle == Zero && Step(s, motion).game
  {
    var m := MovePaddles(s);
    CollisionBands(s.ballX, s.ballY, m.paddle1Y, m.paddle2Y);
  }
}
