/**
 * Python's built-in `min` and `round`, over exact reals.
 *
 * `round(x)` with one argument returns the integer nearest to `x`, and on a
 * tie (a fractional part of exactly one half) the even one of the two.
 */
module PyMath {

  /** `min(a, b)`: the first argument unless the second is strictly smaller. */
  function Min(a: real, b: real): (m: real)
    ensures m <= a && m <= b
    ensures m == a || m == b
  {
    if b < a then b else a
  }

  /** `round(x)`: the nearest integer, ties going to the even neighbour. */
  function Round(x: real): (r: int)
    ensures -0.5 <= r as real - x <= 0.5
    ensures (r as real - x == 0.5 || x - r as real == 0.5) ==> r % 2 == 0
  {
    var f := x.Floor;
    var frac := x - f as real;
    if frac < 0.5 then f
    else if frac > 0.5 then f + 1
    else if f % 2 == 0 then f
    else f + 1
  }

  /** Rounding leaves integers alone. */
  lemma RoundOfInt(n: int)
    ensures Round(n as real) == n
  {
  }

  /** Rounding is monotone. */
  lemma RoundMonotone(x: real, y: real)
    requires x <= y
    ensures Round(x) <= Round(y)
  {
  }

  /** Round-half-to-even is symmetric about zero. */
  lemma RoundOdd(x: real)
    ensures Round(-x) == -Round(x)
  {
  }

  /** The three tie cases Python documents, and one non-tie. */
  lemma RoundExamples()
    ensures Round(0.5) == 0 && Round(1.5) == 2 && Round(2.5) == 2 && Round(-2.5) == -2
    ensures Round(8421.05) == 8421
  {
  }

  /** Multiplying by a positive real keeps order. */
  lemma MulMonotone(a: real, b: real, k: real)
    requires a <= b && 0.0 < k
    ensures a * k <= b * k
  {
  }

  /** Dividing by a positive real keeps order. */
  lemma DivMonotone(a: real, b: real, d: real)
    requires a <= b && 0.0 < d
    ensures a / d <= b / d
  {
  }

  /** Dividing a non-negative real by a larger positive real gives less. */
  lemma DivAntitone(a: real, d1: real, d2: real)
    requires 0.0 <= a && 0.0 < d1 <= d2
    ensures a / d2 <= a / d1
  {
  }
}
