/** The rounding all prices and commissions go through: to the nearest integer, halves up. */
module Rounding {

  function Round(x: real): int {
    (x + 0.5).Floor
  }

  /** `Round(x)` is the one integer within half a unit of `x`, the upper one on a tie. */
  lemma RoundIsNearest(x: real, n: int)
    ensures n == Round(x) <==> n as real - 0.5 <= x < n as real + 0.5
  {}

  lemma RoundIsMonotone(x: real, y: real)
    requires x <= y
    ensures Round(x) <= Round(y)
  {}

  lemma RoundAtMostIff(x: real, n: int)
    ensures Round(x) <= n <==> x < n as real + 0.5
  {}

  /** Multiplication by name, so that its laws below can be applied product by product. */
  function Times(x: real, y: real): real {
    x * y
  }

  lemma TimesIsMonotone(a: real, b: real, x: real, y: real)
    requires 0.0 <= a <= x && 0.0 <= b <= y
    ensures 0.0 <= Times(a, b) <= Times(x, y)
  {
    assert (x - a) * b >= 0.0 && x * (y - b) >= 0.0;
    assert x * y - a * b == (x - a) * b + x * (y - b);
  }

  lemma TimesIsNonNegative(x: real, y: real)
    requires 0.0 <= x && 0.0 <= y
    ensures 0.0 <= Times(x, y)
  {}

  lemma TimesDistributes(a: real, b: real, k: real)
    ensures Times(a + b, k) == Times(a, k) + Times(b, k)
  {}

  lemma TimesOfHalf(k: real)
    ensures Times(0.5, k) == k / 2.0
  {}

  lemma TimesScalesError(x: real, y: real, k: real)
    requires k >= 0.0 && -0.5 <= x - y <= 0.5
    ensures -(k / 2.0) <= Times(x, k) - Times(y, k) <= k / 2.0
  {
    var above, below := y + 0.5 - x, x + 0.5 - y;
    TimesIsNonNegative(above, k);
    TimesIsNonNegative(below, k);
    TimesDistributes(above, x, k);
    TimesDistributes(below, y, k);
    TimesDistributes(y, 0.5, k);
    TimesDistributes(x, 0.5, k);
    TimesOfHalf(k);
    assert above + x == y + 0.5 && below + y == x + 0.5;
  }

  /** The platform's share of a price; percentages run from 0 to 100. */
  function Commission(price: real, percentage: real): real {
    Round(Times(price, percentage / 100.0)) as real
  }
}
