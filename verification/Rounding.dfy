/**
  Decimal rounding. Prices are real numbers of ticks (the last quoted digit), money is a
  whole number of cents and volume a whole number of 1/10000 lots, so every rounding of
  the brokers is a rounding to the nearest integer, ties to even.
 */
module Rounding {

  function Round(x: real): (n: int)
    ensures -0.5 <= n as real - x <= 0.5
    ensures n as real - x == 0.5 || x - n as real == 0.5 ==> n % 2 == 0
  {
    var f := x.Floor;
    var d := x - f as real;
    if d < 0.5 || (d == 0.5 && f % 2 == 0) then f else f + 1
  }

  /** A price rounded to the symbol's digits. */
  function Tick(x: real): real {
    Round(x) as real
  }

  /** Rounding to 4 decimals, used by the oscillators. */
  function Round4(x: real): real {
    Round(x * 10000.0) as real / 10000.0
  }

  /** Rounding to 8 decimals, used by the moving averages. */
  function Round8(x: real): real {
    Round(x * 100000000.0) as real / 100000000.0
  }

  lemma RoundInt(n: int)
    ensures Round(n as real) == n
  {
    assert (n as real).Floor == n;
  }

  lemma RoundMonotone(x: real, y: real)
    requires x <= y
    ensures Round(x) <= Round(y)
  {
  }

  lemma TickMonotone(x: real, y: real)
    requires x <= y
    ensures Tick(x) <= Tick(y)
  {
    RoundMonotone(x, y);
  }

  /** Values between two grid points stay between them. */
  lemma RoundWithin(lo: int, x: real, hi: int)
    requires lo as real <= x <= hi as real
    ensures lo <= Round(x) <= hi
  {
    RoundInt(lo);
    RoundInt(hi);
    RoundMonotone(lo as real, x);
    RoundMonotone(x, hi as real);
  }

  lemma Round4Within(x: real)
    requires 0.0 <= x <= 100.0
    ensures 0.0 <= Round4(x) <= 100.0
  {
    RoundWithin(0, x * 10000.0, 1000000);
  }
}
