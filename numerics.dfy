/** Numeric conventions of the C++ widget, stated over Dafny's unbounded
    `int` and exact `real`.

    Dafny's `/` on `int` is Euclidean, C++ truncates toward zero; a
    float-to-int conversion in C++ truncates toward zero, `round` rounds
    halfway cases away from zero. */
module Numerics {

  /** C++ `a / d` on `int` for a positive divisor: the quotient truncated
      toward zero, so the remainder takes the sign of `a`. */
  function CDiv(a: int, d: int): (q: int)
    requires d > 0
    ensures a >= 0 ==> 0 <= a - q * d < d
    ensures a < 0 ==> -d < a - q * d <= 0
  {
    if a >= 0 then a / d else -((-a) / d)
  }

  /** Conversion of a float to `int` in C++: drop the fraction, toward zero. */
  function Trunc(r: real): (t: int)
    ensures r >= 0.0 ==> 0 <= t && t as real <= r < t as real + 1.0
    ensures r < 0.0 ==> t <= 0 && t as real - 1.0 < r <= t as real
  {
    if r >= 0.0 then r.Floor else -((-r).Floor)
  }

  /** Truncation is monotone against an integer bound: a value above `n`
      truncates to at least `n`, ... */
  lemma TruncAboveInt(r: real, n: int)
    requires r > n as real
    ensures Trunc(r) >= n
  {
  }

  /** ... and a value at most `n` truncates to at most `n`. */
  lemma TruncAtMostInt(r: real, n: int)
    requires r <= n as real
    ensures Trunc(r) <= n
  {
  }

  /** C's `round`: to the nearest integer, halfway cases away from zero. */
  function Round(r: real): (n: int)
    ensures r - 0.5 <= n as real <= r + 0.5
    ensures r >= 0.0 ==> n as real > r - 0.5
    ensures r < 0.0 ==> n as real < r + 0.5
  {
    if r >= 0.0 then (r + 0.5).Floor else -((-r + 0.5).Floor)
  }

  /** A single-precision value as the widget stores it: a finite number or
      the not-a-number a `0/0` produces. NaN compares unequal to everything. */
  datatype Float = Finite(value: real) | NaN

  /** `sqrt((float)3)`: the single-precision value nearest to the square
      root of three. */
  const Sqrt3Float: real := 1.73205077648162841796875

}
