/** Integer division and rounding as the money code does them. */
module Rounding {
  /** Rust's `/` on integers: toward zero. */
  function TruncDiv(a: int, b: int): int
    requires b > 0
  {
    if a >= 0 then a / b else -(-a / b)
  }

  function Sign(n: int): int {
    if n > 0 then 1 else if n < 0 then -1 else 0
  }

  /** To the nearest multiple of `unit`, halves away from zero. */
  function HalfAway(n: int, unit: int): int
    requires unit > 0
  {
    TruncDiv(if n >= 0 then n + unit / 2 else n - unit / 2, unit)
  }

  /** Rounded at most half a unit off, to the side away from zero at the half. */
  lemma HalfAwayIsNearest(n: int, unit: int)
    requires unit > 0 && unit % 2 == 0
    ensures -unit <= 2 * (unit * HalfAway(n, unit) - n) <= unit
    ensures n >= 0 ==> -unit < 2 * (unit * HalfAway(n, unit) - n)
    ensures n <= 0 ==> 2 * (unit * HalfAway(n, unit) - n) < unit
  {
    var m := if n >= 0 then n + unit / 2 else -n + unit / 2;
    QuotientBounds(m, unit);
  }

  lemma QuotientBounds(m: int, unit: int)
    requires unit > 0
    ensures unit * (m / unit) <= m < unit * (m / unit) + unit
  {
  }

  /** The nearest multiple is the only one this near. */
  lemma NearestIsUnique(n: int, unit: int, q: int)
    requires unit > 0 && unit % 2 == 0
    requires -unit <= 2 * (unit * q - n) <= unit
    requires n >= 0 ==> -unit < 2 * (unit * q - n)
    requires n <= 0 ==> 2 * (unit * q - n) < unit
    ensures q == HalfAway(n, unit)
  {
    HalfAwayIsNearest(n, unit);
    var r := HalfAway(n, unit);
    hide HalfAway;
    if q > r {
      Apart(unit, q, r);
    } else if q < r {
      Apart(unit, r, q);
    }
  }

  lemma Apart(unit: int, q: int, r: int)
    requires unit > 0 && q > r
    ensures unit * q >= unit * r + unit
  {
    assert q - r >= 1;
    assert unit * (q - r) >= unit;
    assert unit * q == unit * r + unit * (q - r);
  }

  lemma HalfAwayIsOdd(n: int, unit: int)
    requires unit > 0
    ensures HalfAway(-n, unit) == -HalfAway(n, unit)
  {
    if n == 0 {
      assert (unit / 2) / unit == 0;
    }
  }

  lemma HalfAwayOfNatural(n: int, unit: int)
    requires unit > 0 && n >= 0
    ensures HalfAway(n, unit) == (n + unit / 2) / unit >= 0
  {
  }

  lemma HalfAwayIsMonotone(m: int, n: int, unit: int)
    requires unit > 0 && m <= n
    ensures HalfAway(m, unit) <= HalfAway(n, unit)
  {
    hide HalfAway;
    if m >= 0 {
      HalfAwayOfNatural(m, unit);
      HalfAwayOfNatural(n, unit);
      QuotientMonotone(m + unit / 2, n + unit / 2, unit);
    } else {
      HalfAwayIsOdd(m, unit);
      HalfAwayOfNatural(-m, unit);
      if n < 0 {
        HalfAwayIsOdd(n, unit);
        HalfAwayOfNatural(-n, unit);
        QuotientMonotone(-n + unit / 2, -m + unit / 2, unit);
      } else {
        HalfAwayOfNatural(n, unit);
      }
    }
  }

  lemma QuotientMonotone(a: int, b: int, unit: int)
    requires unit > 0 && a <= b
    ensures a / unit <= b / unit
  {
    QuotientBounds(a, unit);
    QuotientBounds(b, unit);
    if a / unit > b / unit {
      Apart(unit, a / unit, b / unit);
    }
  }
}
