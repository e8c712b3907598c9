/**
 * Python's numeric conversions as the handlers use them, over exact reals:
 * `round(x, d)` (round half to even at d decimals) and `int(x)` on a float
 * (truncation toward zero).
 */
module Numeric {
  import opened Common
  import Text

  /** The integer nearest to y; an exact half goes to the even neighbour. */
  function RoundHalfEven(y: real): (n: int)
    ensures -0.5 <= n as real - y <= 0.5
    ensures y >= 0.0 ==> n >= 0
  {
    var f := y.Floor;
    var frac := y - f as real;
    if frac > 0.5 then f + 1
    else if frac < 0.5 then f
    else if f % 2 == 0 then f else f + 1
  }

  /** x shifted left by d decimal places. */
  function Scale(x: real, d: nat): real {
    x * Text.Pow10(d)
  }

  /** `round(x, d)`: x to the nearest multiple of 10^-d. */
  function RoundTo(x: real, d: nat): real {
    RoundHalfEven(Scale(x, d)) as real / Text.Pow10(d)
  }

  lemma DivMul(a: real, p: real)
    requires p > 0.0
    ensures (a / p) * p == a
  {
  }

  /** Rounding moves a value by at most half a unit in the last kept decimal. */
  lemma RoundToClose(x: real, d: nat)
    ensures -0.5 <= Scale(RoundTo(x, d), d) - Scale(x, d) <= 0.5
  {
    DivMul(RoundHalfEven(Scale(x, d)) as real, Text.Pow10(d));
  }

  /** Rounding never turns a non-negative value negative. */
  lemma RoundToNonNegative(x: real, d: nat)
    requires x >= 0.0
    ensures RoundTo(x, d) >= 0.0
  {
    assert Scale(x, d) >= 0.0;
  }

  /** Rounding a value that is already rounded changes nothing. */
  lemma RoundToIdempotent(x: real, d: nat)
    ensures RoundTo(RoundTo(x, d), d) == RoundTo(x, d)
  {
    var n := RoundHalfEven(Scale(x, d));
    DivMul(n as real, Text.Pow10(d));
    assert Scale(RoundTo(x, d), d) == n as real;
    assert (n as real).Floor == n;
    assert RoundHalfEven(n as real) == n;
  }

  /** `int(x)` for a float x: truncation toward zero. */
  function Trunc(x: real): (n: int)
    ensures x >= 0.0 ==> 0.0 <= n as real <= x < n as real + 1.0
    ensures x < 0.0 ==> n as real - 1.0 < x <= n as real <= 0.0
  {
    if x >= 0.0 then x.Floor else -((-x).Floor)
  }

  /** A non-zero number divided by itself is one (the moneyness of a strike equal to the spot). */
  lemma RatioToSelf(x: real)
    requires x != 0.0
    ensures x / x == 1.0
  {
  }
}
