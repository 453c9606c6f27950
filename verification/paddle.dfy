/**
 * Paddle movement: while a hold flag is set, a paddle's vertical centre
 * moves a fixed step per frame, but only if it is not yet past the limit
 * on that side. The limit is checked before the step, so the paddle can
 * end up less than one step beyond the limit (2 px with these constants).
 */
module Paddle {
  import opened Config

  /**
   * One frame of movement for one paddle (y grows downwards). Up is tried
   * first, so holding both keys moves the paddle up whenever it may.
   */
  function PaddleStep(y: int, up: bool, down: bool): (r: int)
    ensures r == y || r == y - PaddleSpeed || r == y + PaddleSpeed
    ensures r < y <==> up && y > PaddleLimitMin
    ensures r > y <==> down && y < PaddleLimitMax && !(up && y > PaddleLimitMin)
  {
    if up && y > PaddleLimitMin then y - PaddleSpeed
    else if down && y < PaddleLimitMax then y + PaddleSpeed
    else y
  }

  /**
   * The range a paddle centre stays in: it may pass a limit, but by less
   * than one step.
   */
  predicate InRange(y: int) {
    PaddleLimitMin - PaddleSpeed < y < PaddleLimitMax + PaddleSpeed
  }

  /** The reset position lies in the range and every step keeps the paddle in it. */
  lemma PaddleStepStaysInRange(y: int, up: bool, down: bool)
    requires InRange(y)
    ensures InRange(PaddleStep(y, up, down))
    ensures InRange(CenterY)
  {
  }

  /**
   * The positions a paddle can actually occupy: the reset position plus a
   * whole number of steps, between 48 and 672. Both ends lie two pixels
   * beyond the limits 50 and 670.
   */
  predicate OnGrid(y: int) {
    48 <= y <= 672 && (y - CenterY) % PaddleSpeed == 0
  }

  lemma PaddleStepStaysOnGrid(y: int, up: bool, down: bool)
    requires OnGrid(y)
    ensures OnGrid(PaddleStep(y, up, down))
    ensures OnGrid(CenterY)
    ensures InRange(y)
  {
  }

  /**
   * The limits are not a clamp: from grid positions a paddle reaches 672,
   * past the bottom limit 670, and 48, past the top limit 50.
   */
  lemma PaddleOvershootsLimits()
    ensures OnGrid(664) && PaddleStep(664, false, true) == 672 > PaddleLimitMax
    ensures OnGrid(56) && PaddleStep(56, true, false) == 48 < PaddleLimitMin
  {
  }
}
