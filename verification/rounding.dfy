/** `Number(x.toFixed(2))`, the rounding the forms apply before storing an
    auto-computed amount, taken on exact decimals: the nearest hundredth,
    ties away from zero (toFixed rounds the magnitude and re-attaches the
    sign). */
module Rounding {

  /** The whole number of hundredths `x.toFixed(2)` prints. */
  function Cents(x: real): int
  {
    if x >= 0.0 then (x * 100.0 + 0.5).Floor else -((-x) * 100.0 + 0.5).Floor
  }

  function ToFixed2(x: real): (r: real)
    ensures r - x <= 0.005 && x - r <= 0.005
    ensures x >= 0.0 ==> r >= 0.0
    ensures x <= 0.0 ==> r <= 0.0
    ensures r * 100.0 == Cents(x) as real
  {
    Cents(x) as real / 100.0
  }

  /** An amount that already is a whole number of hundredths is stored as is. */
  lemma CentsOfHundredths(n: int)
    ensures ToFixed2(n as real / 100.0) == n as real / 100.0
  {
    var x := n as real / 100.0;
    if n >= 0 {
      assert x * 100.0 + 0.5 == n as real + 0.5;
      assert (x * 100.0 + 0.5).Floor == n;
    } else {
      assert (-x) * 100.0 + 0.5 == (-n) as real + 0.5;
      assert ((-x) * 100.0 + 0.5).Floor == -n;
    }
  }

  /** Rounding twice is rounding once. */
  lemma ToFixed2Idempotent(x: real)
    ensures ToFixed2(ToFixed2(x)) == ToFixed2(x)
  {
    var n := Cents(x);
    assert ToFixed2(x) == n as real / 100.0;
    CentsOfHundredths(n);
  }
}
