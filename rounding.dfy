/**
  Python's `round` on exact real numbers. `round(x)` and `round(x, 0)` pick
  the nearest integer and break ties toward the even neighbour;
  `round(x, d)` does the same on the d-th decimal place.
 */
module Rounding {

  function Abs(x: real): real {
    if x < 0.0 then -x else x
  }

  /** `round(x)`: the nearest integer, ties to the even one. */
  function RoundHalfEven(x: real): (n: int)
    ensures x - 0.5 <= n as real <= x + 0.5
    ensures Abs(n as real - x) == 0.5 ==> n % 2 == 0
  {
    var f := x.Floor;
    var frac := x - f as real;
    if frac < 0.5 then f
    else if frac > 0.5 then f + 1
    else if f % 2 == 0 then f
    else f + 1
  }

  /** The two conditions of RoundHalfEven's contract pin its result down. */
  lemma RoundHalfEvenUnique(x: real, n: int)
    requires x - 0.5 <= n as real <= x + 0.5
    requires Abs(n as real - x) == 0.5 ==> n % 2 == 0
    ensures n == RoundHalfEven(x)
  {
  }

  /** Whole numbers are left as they are. */
  lemma RoundWhole(k: int)
    ensures RoundHalfEven(k as real) == k
  {
    RoundHalfEvenUnique(k as real, k);
  }

  /** The scales of `round(x, 2)` and `round(x, 4)`: 10^2 and 10^4. */
  const TwoPlaces: real := 100.0
  const FourPlaces: real := 10000.0

  /**
    `round(x, d)` with scale = 10^d: x rounded half-to-even to a whole
    number of units 1/scale, the nearest such number to x.
   */
  function RoundTo(x: real, scale: real): (r: real)
    requires scale >= 1.0
    ensures Abs(r - x) <= 0.5 / scale
    ensures r * scale == RoundHalfEven(x * scale) as real
  {
    var n := RoundHalfEven(x * scale);
    ScaleBack(x, scale, n);
    n as real / scale
  }

  /** Dividing an integer within 1/2 of x * p by p lands within 1/(2p) of x. */
  lemma ScaleBack(x: real, p: real, n: int)
    requires p >= 1.0
    requires x * p - 0.5 <= n as real <= x * p + 0.5
    ensures Abs(n as real / p - x) <= 0.5 / p
    ensures (n as real / p) * p == n as real
  {
    var r := n as real / p;
    assert r * p == n as real;
    assert (r - x) * p == n as real - x * p;
    if r >= x {
      assert (r - x) * p <= 0.5;
      assert r - x <= 0.5 / p;
    } else {
      assert (x - r) * p <= 0.5;
      assert x - r <= 0.5 / p;
    }
  }
}
