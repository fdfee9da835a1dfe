/** JavaScript's Math.round applied to a non-negative ratio a / b, computed
    exactly on integers: halves round up. */
module Rounding {

  /** The integer nearest to a / b, halves rounded up. */
  function RoundDiv(a: nat, b: nat): (r: nat)
    requires b > 0
    ensures (2 * r - 1) * b <= 2 * a < (2 * r + 1) * b
  {
    var r := (2 * a + b) / (2 * b);
    DivBounds(2 * a + b, 2 * b);
    r
  }

  lemma DivBounds(x: nat, y: nat)
    requires y > 0
    ensures (x / y) * y <= x < (x / y + 1) * y
  {
  }

  /** The rounded ratio is at least `k` exactly when 2a >= (2k - 1) b. */
  lemma {:induction false} RoundDivAtLeast(a: nat, b: nat, k: nat)
    requires b > 0
    ensures RoundDiv(a, b) >= k <==> 2 * a >= (2 * k - 1) * b
  {
    var r := RoundDiv(a, b);
    if r >= k {
      MulMonotone(2 * k - 1, 2 * r - 1, b);
    } else {
      MulMonotone(2 * r + 1, 2 * k - 1, b);
    }
  }

  /** A ratio between lo and hi rounds to a value between lo and hi. */
  lemma {:induction false} RoundDivBetween(a: nat, b: nat, lo: nat, hi: nat)
    requires b > 0 && lo * b <= a <= hi * b
    ensures lo <= RoundDiv(a, b) <= hi
  {
    RoundDivAtLeast(a, b, lo);
    RoundDivAtLeast(a, b, hi + 1);
    assert (2 * (hi + 1) - 1) * b == 2 * (hi * b) + b;
    assert (2 * lo - 1) * b == 2 * (lo * b) - b;
  }

  lemma MulMonotone(x: int, y: int, b: nat)
    requires x <= y
    ensures x * b <= y * b
  {
  }
}
