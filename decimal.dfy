/** Decimal arithmetic used by the services: `Number(x.toFixed(2))` and
    `Math.ceil`, on exact reals (binary floating point is not modelled). */
module Decimal {

  /** `x` has at most two decimal places (a whole number of hundredths). */
  ghost predicate IsTwoDecimal(x: real) {
    (x * 100.0).Floor as real == x * 100.0
  }

  /** Whole hundredths nearest to `x`, ties away from zero: the digits that
      `toFixed(2)` prints (it rounds the magnitude and picks the larger
      candidate on a tie). */
  function Hundredths(x: real): (n: int)
    ensures x * 100.0 - 0.5 <= n as real <= x * 100.0 + 0.5
    ensures x >= 0.0 ==> x * 100.0 - 0.5 < n as real
    ensures x < 0.0 ==> n as real < x * 100.0 + 0.5
  {
    if x >= 0.0 then (x * 100.0 + 0.5).Floor
    else -((-x * 100.0 + 0.5).Floor)
  }

  /** `Number(x.toFixed(2))`. */
  function Round2(x: real): (r: real)
    ensures IsTwoDecimal(r)
    ensures x - 0.005 <= r <= x + 0.005
    ensures x >= 0.0 ==> r >= 0.0
    ensures x >= 0.0 ==> x - 0.005 < r
    ensures x < 0.0 ==> r < x + 0.005
  {
    Hundredths(x) as real / 100.0
  }

  /** Rounding leaves a value that already has two decimals unchanged. */
  lemma Round2Fixes(x: real)
    requires IsTwoDecimal(x)
    ensures Round2(x) == x
  {
    var n := (x * 100.0).Floor;
    assert n as real == x * 100.0;
    if x >= 0.0 {
      assert (x * 100.0 + 0.5).Floor == n;
    } else {
      assert (-x * 100.0 + 0.5).Floor == -n;
    }
  }

  /** Rounding twice is rounding once. */
  lemma Round2Idempotent(x: real)
    ensures Round2(Round2(x)) == Round2(x)
  {
    Round2Fixes(Round2(x));
  }

  /** `Math.ceil`. */
  function Ceil(x: real): (n: int)
    ensures x <= n as real < x + 1.0
  {
    -((-x).Floor)
  }
}
