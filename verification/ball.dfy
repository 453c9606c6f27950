/**
 * The ball: its direction, the collision tests against the paddles and the
 * top and bottom walls, and the side tests that decide a point.
 *
 * The game keeps the direction as a floating-point angle and moves the
 * ball by the truncated `BallSpeed * cos` and `BallSpeed * sin` of it.
 * Here the angle is a symbolic term recording how the game built it, and
 * the per-frame displacement is supplied from outside (see `Displacement`).
 */
module Ball {
  import opened Prims
  import opened Config

  /**
   * A direction in radians, as the expression that produced it. The `q`
   * arguments are the integer quotients the game converts to floating
   * point before taking the arc tangent.
   */
  datatype Angle =
    | Zero                      // 0.0: towards player 2
    | MinusPi                   // -PI: towards player 1
    | Atan(q: int)              // atan(q)
    | NegAtan(q: int)           // -atan(q)
    | MinusPiPlusAtan(q: int)   // -PI + atan(q)
    | PiMinusAtan(q: int)       // PI - atan(q)
    | Negated(a: Angle)         // -a, a bounce off a wall

  /** Angles produced by a hit on the left paddle (player 1). */
  predicate FromPaddle1(a: Angle) {
    a.Atan? || a.NegAtan?
  }

  /** Angles produced by a hit on the right paddle (player 2). */
  predicate FromPaddle2(a: Angle) {
    a.MinusPiPlusAtan? || a.PiMinusAtan?
  }

  /**
   * `a` is the direction a hit on paddle 1 at height `py` gives a ball at
   * (x, y): negated (up) exactly when the ball is at or above the paddle's
   * centre, with quotient the vertical offset divided by the horizontal
   * gap, at most 5.
   */
  predicate Paddle1Direction(a: Angle, x: int, y: int, py: int) {
    && x - Paddle1X > 0
    && FromPaddle1(a)
    && (a.NegAtan? <==> y <= py)
    && a.q == Abs(y - py) / (x - Paddle1X)
    && 0 <= a.q <= 5
  }

  /** The same for paddle 2: `-PI + atan(q)` exactly when the ball is at or above its centre. */
  predicate Paddle2Direction(a: Angle, x: int, y: int, py: int) {
    && Paddle2X - x > 0
    && FromPaddle2(a)
    && (a.MinusPiPlusAtan? <==> y <= py)
    && a.q == Abs(y - py) / (Paddle2X - x)
    && 0 <= a.q <= 5
  }

  /**
   * One frame's move of the ball: `BallSpeed * cos(angle)` and
   * `BallSpeed * sin(angle)` truncated toward zero, so each lies within
   * `BallSpeed` of zero.
   */
  type Displacement = d: (int, int) | Abs(d.0) <= BallSpeed && Abs(d.1) <= BallSpeed witness (0, 0)

  /**
   * The ball's left edge is within the tolerance band of paddle 1's right
   * edge and the two overlap vertically.
   */
  predicate HitsPaddle1(x: int, y: int, py: int) {
    && Abs(x - BallSize / 2 - (Paddle1X + PaddleWidth / 2)) <= Tolerance
    && y + BallSize / 2 >= py - PaddleHeight / 2
    && y - BallSize / 2 <= py + PaddleHeight / 2
  }

  /**
   * The ball's right edge is within the tolerance band of paddle 2's left
   * edge and the two overlap vertically.
   */
  predicate HitsPaddle2(x: int, y: int, py: int) {
    && Abs(x + BallSize / 2 - (Paddle2X - PaddleWidth / 2)) <= Tolerance
    && y + BallSize / 2 >= py - PaddleHeight / 2
    && y - BallSize / 2 <= py + PaddleHeight / 2
  }

  /** The ball's top edge is near `y = 0` or its bottom edge near the window's height. */
  predicate HitsWall(y: int) {
    || Abs(y - BallSize / 2) <= Tolerance
    || Abs(y + BallSize / 2 - WindowHeight) <= Tolerance
  }

  /**
   * The collision tests as explicit pixel bands: paddle 1 is hit by a ball
   * centred at x in [119, 131], paddle 2 at x in [949, 961], each within
   * 60 pixels of the paddle's centre vertically; the walls are hit at y in
   * [4, 16] or [704, 716]. In particular no ball can touch both paddles.
   */
  lemma CollisionBands(x: int, y: int, p1y: int, p2y: int)
    ensures HitsPaddle1(x, y, p1y) <==> 119 <= x <= 131 && Abs(y - p1y) <= 60
    ensures HitsPaddle2(x, y, p2y) <==> 949 <= x <= 961 && Abs(y - p2y) <= 60
    ensures HitsWall(y) <==> 4 <= y <= 16 || 704 <= y <= 716
    ensures !(HitsPaddle1(x, y, p1y) && HitsPaddle2(x, y, p2y))
  {
  }

  /**
   * The direction after a hit on paddle 1: the arc tangent of the integer
   * quotient of the vertical offset by the horizontal gap, negated (up)
   * when the ball is at or above the paddle's centre. The gap lies in
   * [11, 23], so the division is defined, and the offset is non-negative,
   * so truncating and Euclidean division agree; the quotient is at most 5.
   */
  function Paddle1Angle(x: int, y: int, py: int): (a: Angle)
    requires HitsPaddle1(x, y, py)
    ensures 11 <= x - Paddle1X <= 23
    ensures Paddle1Direction(a, x, y, py)
  {
    var gap := x - Paddle1X;
    assert 11 <= gap <= 23;
    QuotientBound(Abs(y - py), gap);
    if y <= py then NegAtan(TruncDiv(py - y, gap))
    else Atan(TruncDiv(y - py, gap))
  }

  /**
   * The direction after a hit on paddle 2, mirrored into the leftward
   * half-plane: `-PI + atan(q)` when the ball is at or above the paddle's
   * centre, `PI - atan(q)` below it, with the same quotient bounds.
   */
  function Paddle2Angle(x: int, y: int, py: int): (a: Angle)
    requires HitsPaddle2(x, y, py)
    ensures 11 <= Paddle2X - x <= 23
    ensures Paddle2Direction(a, x, y, py)
  {
    var gap := Paddle2X - x;
    assert 11 <= gap <= 23;
    QuotientBound(Abs(y - py), gap);
    if y <= py then MinusPiPlusAtan(TruncDiv(py - y, gap))
    else PiMinusAtan(TruncDiv(y - py, gap))
  }

  lemma QuotientBound(n: int, d: int)
    requires 0 <= n <= 60 && 11 <= d
    ensures TruncDiv(n, d) == n / d
    ensures 0 <= n / d <= 5
  {
    TruncDivAgreesWithEuclidean(n, d);
    var q := n / d;
    assert 0 <= q && q * d <= n;
    MulMonotone(q, 11, d);
  }

  lemma MulMonotone(a: int, b: int, c: int)
    requires 0 <= a && b <= c
    ensures a * b <= a * c
  {
    assert a * c - a * b == a * (c - b);
  }

  /**
   * The direction after the paddle tests: paddle 1 is checked first and
   * paddle 2 only when paddle 1 is missed; without a hit the direction is
   * kept.
   */
  function PaddleResponse(x: int, y: int, p1y: int, p2y: int, a: Angle): (r: Angle)
    ensures HitsPaddle1(x, y, p1y) ==> Paddle1Direction(r, x, y, p1y)
    ensures !HitsPaddle1(x, y, p1y) && HitsPaddle2(x, y, p2y) ==> Paddle2Direction(r, x, y, p2y)
    ensures !HitsPaddle1(x, y, p1y) && !HitsPaddle2(x, y, p2y) ==> r == a
  {
    if HitsPaddle1(x, y, p1y) then Paddle1Angle(x, y, p1y)
    else if HitsPaddle2(x, y, p2y) then Paddle2Angle(x, y, p2y)
    else a
  }

  /** A ball near a wall has its direction negated, whatever the paddle test decided. */
  function WallResponse(y: int, a: Angle): (r: Angle)
    ensures HitsWall(y) ==> r.Negated? && r.a == a
    ensures !HitsWall(y) ==> r == a
  {
    if HitsWall(y) then Negated(a) else a
  }

  /** Who wins a point, if anyone, once the ball has moved. */
  datatype Point = NoPoint | PointToP1 | PointToP2

  /**
   * The side tests: the ball's left edge within the tolerance band of the
   * left side gives player 2 the point; otherwise its right edge within
   * the band of the right side gives it to player 1.
   */
  function PointScored(x: int): (p: Point)
    ensures p == PointToP2 <==> x <= 16
    ensures p == PointToP1 <==> x >= 1064
    ensures p == NoPoint <==> 16 < x < 1064
  {
    if x - BallSize / 2 <= Tolerance then PointToP2
    else if x + BallSize / 2 >= WindowWidth - Tolerance then PointToP1
    else NoPoint
  }
}
