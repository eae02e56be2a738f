/**
 * Monetary arithmetic. Amounts are exact decimals (`real`); the only
 * rounding the system performs is BigDecimal's scale-2 HALF_UP rounding,
 * used both by `setScale(2, HALF_UP)` and by `divide(x, 2, HALF_UP)`.
 */
module Money {

  /** `x` has at most two decimal places. */
  predicate IsCents(x: real) {
    (x * 100.0).Floor as real == x * 100.0
  }

  /**
   * Rounds to two decimal places, ties away from zero (HALF_UP), so that
   * -0.005 becomes -0.01 and not 0.00.
   */
  function Round2(x: real): (r: real)
    ensures IsCents(r)
    ensures x >= 0.0 ==> r >= 0.0
    ensures x <= 0.0 ==> r <= 0.0
  {
    var n := if x >= 0.0 then (x * 100.0 + 0.5).Floor else -(((-x) * 100.0 + 0.5).Floor);
    assert (n as real / 100.0) * 100.0 == n as real;
    n as real / 100.0
  }

  /** Rounding never moves a value by more than half a cent. */
  lemma Round2Error(x: real)
    ensures -0.005 <= Round2(x) - x <= 0.005
  {
  }

  /** HALF_UP is symmetric: negative amounts round like their magnitude. */
  lemma Round2Odd(x: real)
    ensures Round2(-x) == -Round2(x)
  {
    if x == 0.0 {
    } else if x > 0.0 {
    } else {
    }
  }

  /**
   * A tie, an odd number of half-cents, rounds away from zero: 0.005 to
   * 0.01 and -0.005 to -0.01.
   */
  lemma Round2Tie(k: int)
    ensures Round2((2 * k + 1) as real / 200.0) == (if k >= 0 then k + 1 else k) as real / 100.0
  {
    var x := (2 * k + 1) as real / 200.0;
    assert x * 100.0 == (2 * k + 1) as real / 2.0;
    if k >= 0 {
      assert x >= 0.0;
      assert x * 100.0 + 0.5 == (k + 1) as real;
      assert (x * 100.0 + 0.5).Floor == k + 1;
    } else {
      assert x < 0.0;
      assert (-x) * 100.0 + 0.5 == (-k) as real;
      assert ((-x) * 100.0 + 0.5).Floor == -k;
    }
  }

  /** A value that already has two decimals is left unchanged. */
  lemma Round2Cents(k: int)
    ensures Round2(k as real / 100.0) == k as real / 100.0
  {
    var x := k as real / 100.0;
    assert x * 100.0 == k as real;
    if k >= 0 {
      assert (x * 100.0 + 0.5).Floor == k;
    } else {
      assert (-x) * 100.0 == (-k) as real;
      assert ((-x) * 100.0 + 0.5).Floor == -k;
    }
  }

  /** Rounding preserves order. */
  lemma Round2Monotone(x: real, y: real)
    requires x <= y
    ensures Round2(x) <= Round2(y)
  {
    if x >= 0.0 {
      assert (x * 100.0 + 0.5).Floor <= (y * 100.0 + 0.5).Floor;
    } else if y <= 0.0 {
      assert ((-y) * 100.0 + 0.5).Floor <= ((-x) * 100.0 + 0.5).Floor;
    }
  }

  /**
   * `amount * 100 / total` rounded to two places when `total > 0`, and
   * exactly zero otherwise (no division is attempted).
   */
  function Percentage(amount: real, total: real): (r: real)
    ensures total <= 0.0 ==> r == 0.0
    ensures total > 0.0 ==> IsCents(r)
    ensures total > 0.0 ==> -0.005 <= r - amount * 100.0 / total <= 0.005
  {
    if total > 0.0 then
      Round2Error(amount * 100.0 / total);
      Round2(amount * 100.0 / total)
    else 0.0
  }

  /** A part of a positive whole is between 0 and 100 percent. */
  lemma PercentageBounds(amount: real, total: real)
    requires 0.0 <= amount <= total && total > 0.0
    ensures 0.0 <= Percentage(amount, total) <= 100.0
  {
    var q := amount * 100.0 / total;
    assert q <= 100.0 by {
      assert amount * 100.0 <= total * 100.0;
    }
    Round2Monotone(q, 100.0);
    Round2Cents(10000);
  }

  /** The whole is exactly 100 percent of itself. */
  lemma PercentageOfWhole(total: real)
    requires total > 0.0
    ensures Percentage(total, total) == 100.0
  {
    assert total * 100.0 / total == 100.0;
    Round2Cents(10000);
  }
}
