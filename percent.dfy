/** `Math.round((part / whole) * 100)` over integers: the percentage rounded to
    the nearest integer, halves rounded up, as `Math.round` does. */
module Percent {

  function RoundedPercent(part: int, whole: int): (r: int)
    requires whole > 0
    ensures 2 * whole * r <= 200 * part + whole < 2 * whole * (r + 1)
  {
    (200 * part + whole) / (2 * whole)
  }

  /** Multiplying by a positive factor keeps a strict order, so it can be cancelled. */
  lemma CancelPositiveFactor(d: int, a: int, b: int)
    requires d > 0 && d * a < d * b
    ensures a < b
  {
    assert d * b - d * a == d * (b - a);
  }

  /** A share between none and all of the whole rounds to a percentage in [0, 100]. */
  lemma RoundedPercentBounds(part: int, whole: int)
    requires whole > 0 && 0 <= part <= whole
    ensures 0 <= RoundedPercent(part, whole) <= 100
  {
    var r, d := RoundedPercent(part, whole), 2 * whole;
    assert d * 0 < d * (r + 1);
    CancelPositiveFactor(d, 0, r + 1);
    assert 200 * part <= 200 * whole;
    assert d * r < d * 101;
    CancelPositiveFactor(d, r, 101);
  }

  /** The whole is exactly one hundred per cent. */
  lemma RoundedPercentOfWhole(whole: int)
    requires whole > 0
    ensures RoundedPercent(whole, whole) == 100
  {
    var r, d := RoundedPercent(whole, whole), 2 * whole;
    assert d * r <= d * 100 + whole < d * (r + 1);
    assert d * 99 < d * 100;
    assert d * r < d * 101;
    CancelPositiveFactor(d, r, 101);
    assert d * 100 < d * (r + 1);
    CancelPositiveFactor(d, 100, r + 1);
  }

  /** A larger share never rounds to a smaller percentage. */
  lemma RoundedPercentMonotone(part: int, part': int, whole: int)
    requires whole > 0 && part <= part'
    ensures RoundedPercent(part, whole) <= RoundedPercent(part', whole)
  {
    var r, r', d := RoundedPercent(part, whole), RoundedPercent(part', whole), 2 * whole;
    assert d * r < d * (r' + 1);
    CancelPositiveFactor(d, r, r' + 1);
  }
}
