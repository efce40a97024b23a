/** Exact-arithmetic models of the two roundings the backend applies to money:
    `Math.round` (to whole pence) and `Number.prototype.toFixed(2)` followed by `+`
    (to two decimals). Amounts are `real`, so no binary floating-point error arises. */
module Money {

  /** `Math.round`: the nearest integer, a half rounding towards +infinity. */
  function RoundHalfUp(x: real): (n: int)
    ensures x - 0.5 < n as real <= x + 0.5
  {
    (x + 0.5).Floor
  }

  /** The two inequalities of `RoundHalfUp` pin down a single integer. */
  lemma RoundHalfUpUnique(x: real, n: int)
    requires x - 0.5 < n as real <= x + 0.5
    ensures RoundHalfUp(x) == n
  {
  }

  /** `x` is a whole number of pence (at most two decimals). */
  predicate WholePence(x: real) {
    (x * 100.0).Floor as real == x * 100.0
  }

  /** The amount of `n` pence. */
  function FromPence(n: int): (r: real)
    ensures r * 100.0 == n as real
    ensures WholePence(r)
  {
    n as real / 100.0
  }

  /** `r` is `x` to two decimals, half a penny going away from zero. */
  predicate NearestPence(x: real, r: real) {
    && WholePence(r)
    && (x >= 0.0 ==> x - 0.005 < r <= x + 0.005)
    && (x < 0.0 ==> x - 0.005 <= r < x + 0.005)
  }

  /** At most one amount is `x` to two decimals. */
  lemma NearestPenceUnique(x: real, r1: real, r2: real)
    requires NearestPence(x, r1) && NearestPence(x, r2)
    ensures r1 == r2
  {
    var n1, n2 := (r1 * 100.0).Floor, (r2 * 100.0).Floor;
    assert n1 as real == r1 * 100.0 && n2 as real == r2 * 100.0;
    assert -1.0 < n1 as real - n2 as real < 1.0;
    assert n1 == n2;
  }

  /** `+x.toFixed(2)`: rounds the magnitude to two decimals, a half going away from
      zero (toFixed picks the larger candidate on a tie after taking |x|). */
  function ToFixed2(x: real): (r: real)
    ensures NearestPence(x, r)
    ensures x >= 0.0 ==> r >= 0.0
    ensures x <= 0.0 ==> r <= 0.0
  {
    if x < 0.0 then FromPence(-RoundHalfUp(-x * 100.0))
    else FromPence(RoundHalfUp(x * 100.0))
  }

  /** `ToFixed2` is the one amount that is `x` to two decimals. */
  lemma ToFixed2Only(x: real, r: real)
    requires NearestPence(x, r)
    ensures ToFixed2(x) == r
  {
    NearestPenceUnique(x, ToFixed2(x), r);
  }

  /** An amount that already has at most two decimals is left as it is. */
  lemma ToFixed2OfWholePence(x: real)
    requires WholePence(x)
    ensures ToFixed2(x) == x
  {
    var n := (x * 100.0).Floor;
    if x < 0.0 {
      RoundHalfUpUnique(-x * 100.0, -n);
    } else {
      RoundHalfUpUnique(x * 100.0, n);
    }
  }

  /** Rounding twice is rounding once. */
  lemma ToFixed2Idempotent(x: real)
    ensures ToFixed2(ToFixed2(x)) == ToFixed2(x)
  {
    ToFixed2OfWholePence(ToFixed2(x));
  }

  /** Ties go away from zero on both sides: an amount exactly half a penny above `k`
      pence (below `-k` pence) becomes `k + 1` pence (`-(k + 1)` pence). */
  lemma ToFixed2Ties(k: nat)
    ensures ToFixed2((k as real + 0.5) / 100.0) == FromPence(k + 1)
    ensures ToFixed2(-(k as real + 0.5) / 100.0) == FromPence(-(k + 1))
  {
    var x := (k as real + 0.5) / 100.0;
    RoundHalfUpUnique(x * 100.0, k + 1);
    RoundHalfUpUnique(-(-x) * 100.0, k + 1);
  }
}
