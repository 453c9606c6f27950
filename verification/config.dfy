/**
 * The fixed geometry of the game: window size, ball and paddle dimensions
 * and speeds, all in pixels (speeds in pixels per frame). Every value is
 * derived exactly as the game derives it, with integer division.
 */
module Config {

  const WindowWidth: int := 1080
  const WindowHeight: int := 720

  /** Horizontal distance from each window side to its paddle's centre. */
  const PaddleInset: int := WindowWidth / 10

  const BallSize: int := 20
  const BallSpeed: int := 12

  const PaddleWidth: int := 15
  const PaddleHeight: int := 100
  const PaddleSpeed: int := 8

  /** Fixed horizontal centres of the left (player 1) and right (player 2) paddles. */
  const Paddle1X: int := PaddleInset
  const Paddle2X: int := WindowWidth - PaddleInset

  /** A paddle may step up only while above `PaddleLimitMin`, down only while below `PaddleLimitMax`. */
  const PaddleLimitMin: int := PaddleHeight / 2
  const PaddleLimitMax: int := WindowHeight - PaddleHeight / 2

  /** Where the ball and the paddles start, and return after every point. */
  const CenterX: int := WindowWidth / 2
  const CenterY: int := WindowHeight / 2

  /**
   * Half the ball's per-frame travel: the tolerance band within which the
   * ball counts as touching a paddle, a wall or a side of the window.
   */
  const Tolerance: int := BallSpeed / 2
}
