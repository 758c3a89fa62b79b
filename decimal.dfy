/** Decimal helpers: powers of ten, the length of `str(n)`, and `round(x, d)` on exact decimals. */
module Decimal {

  /** 10^d as an integer. */
  function IntPow10(d: nat): (r: nat)
    ensures r >= 1
    ensures d > 0 ==> r >= 10
  {
    if d == 0 then 1 else 10 * IntPow10(d - 1)
  }

  /** 10^d as a real. */
  function Pow10(d: nat): (r: real)
    ensures r >= 1.0
  {
    IntPow10(d) as real
  }

  /** The number of characters of `str(n)` for a non-negative Python int n:
      the unique r >= 1 with 10^(r-1) <= n < 10^r (or r = 1 for n = 0). */
  function DecimalLength(n: nat): (r: nat)
    ensures r >= 1
    ensures n < IntPow10(r)
    ensures r > 1 ==> IntPow10(r - 1) <= n
  {
    if n < 10 then 1 else 1 + DecimalLength(n / 10)
  }

  /** The length of `str(n)` is below n for every n >= 2, so a count of
      digits never equals the number it counts from 2 on. */
  lemma {:induction false} DecimalLengthBelow(n: nat)
    requires n >= 2
    ensures DecimalLength(n) < n
  {
    if n >= 10 && n / 10 >= 2 {
      DecimalLengthBelow(n / 10);
    }
  }

  /** The integer nearest to y, ties to the even neighbour (Python's `round(y)`). */
  function RoundHalfEvenInt(y: real): (n: int)
    ensures -0.5 <= n as real - y <= 0.5
  {
    var f := y.Floor;
    var frac := y - f as real;
    if frac > 0.5 then f + 1
    else if frac < 0.5 then f
    else if f % 2 == 0 then f else f + 1
  }

  /** x rounded to the nearest multiple of 1/scale, ties to even. */
  function RoundToScale(x: real, scale: real): real
    requires scale > 0.0
  {
    RoundHalfEvenInt(x * scale) as real / scale
  }

  /** `round(x, d)`: x rounded to d decimal places, ties to even, computed on the
      exact decimal value of x. */
  function Round(x: real, d: nat): real
  {
    RoundToScale(x, Pow10(d))
  }

  /** Dividing by a positive real keeps a bound. */
  lemma DivideBound(a: real, b: real, s: real)
    requires s > 0.0 && a <= b
    ensures a / s <= b / s
  {
    assert b / s - a / s == (b - a) / s;
    assert (b - a) / s * s == b - a;
  }

  /** Shifting a scaled value back: (x*s + e) / s == x + e/s. */
  lemma UnscaleShift(x: real, e: real, s: real)
    requires s > 0.0
    ensures (x * s + e) / s == x + e / s
  {
    assert (x + e / s) * s == x * s + e;
  }

  /** An integer n within half a unit of x*s lies, scaled back, within 0.5/s of x. */
  lemma UnscaleError(x: real, n: real, s: real)
    requires s > 0.0
    requires x * s - 0.5 <= n <= x * s + 0.5
    ensures x - 0.5 / s <= n / s <= x + 0.5 / s
  {
    DivideBound(x * s + -0.5, n, s);
    DivideBound(n, x * s + 0.5, s);
    UnscaleShift(x, -0.5, s);
    UnscaleShift(x, 0.5, s);
    assert -0.5 / s == -(0.5 / s);
  }

  /** Rounding to a multiple of 1/scale moves x by at most 0.5/scale. */
  lemma RoundToScaleError(x: real, scale: real)
    requires scale > 0.0
    ensures x - 0.5 / scale <= RoundToScale(x, scale) <= x + 0.5 / scale
  {
    var q := RoundHalfEvenInt(x * scale) as real;
    UnscaleError(x, q, scale);
  }

  /** `round(x, d)` moves x by at most half a unit of the d-th decimal place. */
  lemma RoundError(x: real, d: nat)
    ensures x - 0.5 / Pow10(d) <= Round(x, d) <= x + 0.5 / Pow10(d)
  {
    RoundToScaleError(x, Pow10(d));
  }
}
