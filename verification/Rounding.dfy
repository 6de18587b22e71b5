/** Rounding to the nearest integer, ties to even: Python's `round` and `Decimal.quantize`. */
module Rounding {
  function HalfEven(x: real): (n: int)
    ensures n as real - 0.5 <= x <= n as real + 0.5
    ensures x == n as real - 0.5 || x == n as real + 0.5 ==> n % 2 == 0
  {
    var low := x.Floor;
    var rest := x - low as real;
    if rest < 0.5 || (rest == 0.5 && low % 2 == 0) then low else low + 1
  }

  /** The two ensures above leave no other choice. */
  lemma HalfEvenUnique(x: real, n: int)
    requires n as real - 0.5 <= x <= n as real + 0.5
    requires x == n as real - 0.5 || x == n as real + 0.5 ==> n % 2 == 0
    ensures n == HalfEven(x)
  {
  }
}
