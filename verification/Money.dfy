/** Dollar amounts and their conversion to integer cents.

    Amounts are exact rationals; `quantize(Decimal("1"), ROUND_HALF_UP)` of Python's decimal
    rounds to the nearest integer and ties away from zero, for negative amounts too. */
module Money {
  import opened Wrappers

  function RoundHalfUp(x: real): int {
    if x >= 0.0 then (x + 0.5).Floor else -(0.5 - x).Floor
  }

  /** The nearest integer; of two, the one farther from zero. */
  lemma RoundHalfUpIsNearest(x: real, n: int)
    ensures n == RoundHalfUp(x) <==>
      -0.5 <= n as real - x <= 0.5 && (n as real - x == 0.5 ==> x >= 0.0) && (n as real - x == -0.5 ==> x < 0.0)
  {
    var m := RoundHalfUp(x);
    var f := (if x >= 0.0 then x + 0.5 else 0.5 - x).Floor as real;
    if n != m {
      assert n >= m + 1 || n <= m - 1;
      assert n as real >= m as real + 1.0 || n as real <= m as real - 1.0;
    }
  }

  /** Rounding to cents is off by at most half a cent, and by all of it only away from zero. */
  lemma HalfCentOff(dollars: real)
    ensures var cents := RoundHalfUp(dollars * 100.0);
      var off := cents as real - dollars * 100.0;
      && -0.5 <= off <= 0.5
      && (off == 0.5 ==> dollars * 100.0 >= 0.0 && cents >= 1)
      && (off == -0.5 ==> dollars * 100.0 < 0.0 && cents <= -1)
  {
    var x := dollars * 100.0;
    RoundHalfUpIsNearest(x, RoundHalfUp(x));
    hide RoundHalfUp;
    var cents := RoundHalfUp(x) as real;
    if cents - x == 0.5 {
      assert cents > 0.0;
    } else if cents - x == -0.5 {
      assert cents < 0.0;
    }
  }

  /** Whether the cents conversion of an amount goes through: oversized magnitudes do not. */
  type Converts = real -> bool

  /** `_to_cents` and `_to_cents_safe`: None when the conversion fails. */
  function ToCents(fits: Converts, dollars: real): Option<int> {
    if fits(dollars) then Some(RoundHalfUp(dollars * 100.0)) else None
  }
}
