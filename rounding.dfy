/** The two quantisation rules of the estimator: labour hours snap to the
    nearest quarter hour, mulch yardage rounds up (to a whole yard in one
    revision, to half a yard in the other). */
module Rounding {

  /** `r` is a whole number of quarter hours. */
  predicate IsQuarter(r: real)
  {
    (r * 4.0).Floor as real == r * 4.0
  }

  /** `r` is a whole number of half yards. */
  predicate IsHalf(r: real)
  {
    (r * 2.0).Floor as real == r * 2.0
  }

  /** `Number((Math.round(x * 4) / 4).toFixed(2))`: the nearest quarter, a tie
      going up. A multiple of 0.25 has an exact two-decimal form, so `toFixed(2)`
      changes nothing. */
  function SnapQuarter(x: real): (r: real)
    ensures IsQuarter(r)
    ensures r - 0.125 <= x < r + 0.125
  {
    (x * 4.0 + 0.5).Floor as real / 4.0
  }

  /** The quarter that `SnapQuarter` picks is the only one within reach. */
  lemma SnapQuarterUnique(x: real, q: real)
    requires IsQuarter(q)
    requires q - 0.125 <= x < q + 0.125
    ensures SnapQuarter(x) == q
  {
    var r := SnapQuarter(x);
    var a, b := (r * 4.0).Floor, (q * 4.0).Floor;
    assert a as real - b as real < 1.0 && b as real - a as real < 1.0;
    assert a == b;
  }

  /** Snapping an already snapped value changes nothing. */
  lemma SnapQuarterIdempotent(x: real)
    ensures SnapQuarter(SnapQuarter(x)) == SnapQuarter(x)
  {
    SnapQuarterUnique(SnapQuarter(x), SnapQuarter(x));
  }

  /** `Math.ceil(x)`: the least whole number not below `x`. */
  function Ceil(x: real): (r: int)
    ensures x <= r as real < x + 1.0
  {
    -((-x).Floor)
  }

  /** `Math.ceil(x / 0.5) * 0.5`: the least half yard not below `x`. */
  function CeilHalf(x: real): (r: real)
    ensures IsHalf(r)
    ensures x <= r < x + 0.5
  {
    Ceil(x / 0.5) as real * 0.5
  }

  /** No whole number lies at or above `x` and below `Ceil(x)`. */
  lemma CeilIsLeast(x: real, n: int)
    requires x <= n as real
    ensures Ceil(x) <= n
  {
  }

  /** Rounding up to half a yard never orders more than rounding up to a whole yard. */
  lemma CeilHalfAtMostCeil(x: real)
    ensures CeilHalf(x) <= Ceil(x) as real
  {
    CeilIsLeast(x / 0.5, 2 * Ceil(x));
  }
}
