/** Exact-real versions of the Python built-ins the scoring rules use:
    `min` of two numbers, `abs`, and `round(x, 3)`. */
module Numeric {

  /** Python's `min(a, b)`: the first argument unless the second is strictly smaller. */
  function Min(a: real, b: real): (r: real)
    ensures r <= a && r <= b
    ensures r == a || r == b
  {
    if b < a then b else a
  }

  function Abs(x: real): (r: real)
    ensures 0.0 <= r
    ensures r == x || r == -x
  {
    if x < 0.0 then -x else x
  }

  /** The integer nearest to `y`; a value exactly halfway between two integers
      goes to the even one (the rounding rule of Python's `round`). */
  function RoundHalfEven(y: real): (n: int)
    ensures -0.5 <= y - n as real <= 0.5
    ensures y - n as real == 0.5 || n as real - y == 0.5 ==> n % 2 == 0
  {
    var f := y.Floor;
    var frac := y - f as real;
    if frac < 0.5 then f
    else if frac > 0.5 then f + 1
    else if f % 2 == 0 then f
    else f + 1
  }

  /** True when `x` has at most three decimal places. */
  predicate ThreeDecimals(x: real)
  {
    (x * 1000.0).Floor as real == x * 1000.0
  }

  /** Python's `round(x, 3)` on an exact real: the nearest multiple of 1/1000,
      ties to the even multiple. */
  function Round3(x: real): (r: real)
    ensures ThreeDecimals(r)
    ensures -0.0005 <= r - x <= 0.0005
    ensures 0.0 <= x <= 1.0 ==> 0.0 <= r <= 1.0
  {
    var y := x * 1000.0;
    var n := RoundHalfEven(y);
    var r := n as real / 1000.0;
    assert r * 1000.0 == n as real;
    assert (n as real).Floor == n;
    assert r - x == (n as real - y) / 1000.0;
    assert 0.0 <= x ==> 0.0 <= y && 0 <= n;
    assert x <= 1.0 ==> y <= 1000.0 && n <= 1000;
    r
  }

  /** An exact tie goes to the even neighbour: 0.0125 rounds down to 0.012. */
  lemma Round3TieToEven()
    ensures Round3(0.0125) == 0.012
  {
    assert 0.0125 * 1000.0 == 12.5;
    assert (12.5).Floor == 12;
  }

  /** Rounding never reverses the order of two values. */
  lemma RoundHalfEvenMonotone(y1: real, y2: real)
    requires y1 <= y2
    ensures RoundHalfEven(y1) <= RoundHalfEven(y2)
  {
  }

  lemma Round3Monotone(x1: real, x2: real)
    requires x1 <= x2
    ensures Round3(x1) <= Round3(x2)
  {
    RoundHalfEvenMonotone(x1 * 1000.0, x2 * 1000.0);
  }

  /** A value that already has three decimals is left as it is. */
  lemma Round3Idempotent(x: real)
    requires ThreeDecimals(x)
    ensures Round3(x) == x
  {
    var y := x * 1000.0;
    assert y.Floor as real == y;
    assert RoundHalfEven(y) == y.Floor;
  }
}
