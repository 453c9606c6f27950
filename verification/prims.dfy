/**
 * The few pieces of Rust's standard behaviour the game loop relies on:
 * `Option`, `i32::abs` and `i32` division, which truncates toward zero
 * (Dafny's own `/` is Euclidean).
 */
module Prims {

  /** Rust's `Option`: a keycode that may be absent, a flag write that may not happen. */
  datatype Option<T> = None | Some(value: T) {

    /** `Option::unwrap_or`. */
    function GetOr(fallback: T): T {
      if Some? then value else fallback
    }
  }

  /** Absolute value, as `i32::abs` computes it (overflow at `i32::MIN` is not modelled). */
  function Abs(x: int): (r: nat)
    ensures r == x || r == -x
  {
    if x < 0 then -x else x
  }

  /**
   * Division as Rust's `/` computes it on signed integers: the quotient is
   * rounded toward zero, so the remainder is smaller than the divisor in
   * magnitude and carries the sign of the dividend.
   */
  function TruncDiv(a: int, b: int): (q: int)
    requires b != 0
    ensures Abs(a - q * b) < Abs(b)
    ensures a - q * b == 0 || (a - q * b < 0 <==> a < 0)
    ensures Abs(q * b) <= Abs(a)
  {
    var m := Abs(a) / Abs(b);
    var q := if (a < 0) == (b < 0) then m else -m;
    TruncDivProduct(a, b, m, q);
    q
  }

  /** The remainder and product of the truncated quotient, by sign case. */
  lemma TruncDivProduct(a: int, b: int, m: int, q: int)
    requires b != 0 && m == Abs(a) / Abs(b)
    requires q == if (a < 0) == (b < 0) then m else -m
    ensures 0 <= m * Abs(b) <= Abs(a)
    ensures Abs(q * b) == m * Abs(b)
    ensures a - q * b == (if a < 0 then m * Abs(b) - Abs(a) else Abs(a) - m * Abs(b))
    ensures Abs(a) - m * Abs(b) < Abs(b)
  {
    var B := Abs(b);
    assert Abs(a) == m * B + Abs(a) % B;
    assert 0 <= m;
    if b < 0 {
      assert q * b == -q * B;
    } else {
      assert q * b == q * B;
    }
  }

  /** On a non-negative dividend and a positive divisor the two divisions agree. */
  lemma TruncDivAgreesWithEuclidean(a: int, b: int)
    requires 0 <= a && 0 < b
    ensures TruncDiv(a, b) == a / b
  {
  }
}
