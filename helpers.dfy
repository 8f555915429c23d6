/** The percentage helpers: conversions between percentage points and fractions,
    each guarded against a zero total. Python floats are modelled as exact reals. */
module Helpers {

  /** Python's `round(x, 2)`, kept abstract: some value at most half a cent away
      from `x`. Binary floating point and the tie-breaking rule are not modelled;
      nothing proved here depends on more than this bound. */
  ghost function Round2(x: real): (r: real)
    ensures WithinHalfCent(r, x)
  {
    assert WithinHalfCent(x, x);
    var r :| WithinHalfCent(r, x); r
  }

  predicate WithinHalfCent(r: real, x: real) {
    -0.005 <= r - x <= 0.005
  }

  /** `percentage_of(percent, total)`: `percent`% of `total`, or 0 for a zero total. */
  function PercentageOf(percent: real, total: real): (r: real)
    ensures total == 0.0 ==> r == 0.0
    ensures total != 0.0 ==> r / total == percent / 100.0
  {
    if total == 0.0 then 0.0 else (percent / 100.0) * total
  }

  /** `percent_from_total(value, total)`: how many percent of `total` the `value` is,
      rounded to two decimals, or 0 for a zero total. */
  ghost function PercentFromTotal(value: real, total: real): (r: real)
    ensures total == 0.0 ==> r == 0.0
    ensures total != 0.0 ==> -0.005 <= r - (value / total) * 100.0 <= 0.005
  {
    if total == 0.0 then 0.0 else Round2((value / total) * 100.0)
  }

  /** `percentage_division(p)`: percentage points to a fraction (20.0 becomes 0.20). */
  function PercentageDivision(percent: real): (f: real)
    ensures f * 100.0 == percent
  {
    percent / 100.0
  }

  /** `percentage_multiplication(f)`: a fraction to percentage points (0.17 becomes 17.0). */
  function PercentageMultiplication(factor: real): (p: real)
    ensures p / 100.0 == factor
  {
    factor * 100.0
  }

  /** The two conversions are inverse to each other, in both orders. */
  lemma ConversionsRoundTrip(p: real, f: real)
    ensures PercentageMultiplication(PercentageDivision(p)) == p
    ensures PercentageDivision(PercentageMultiplication(f)) == f
  {
  }

  /** For a non-zero total, taking p% of it and asking what percentage that is
      gives back p up to the two-decimal rounding. */
  lemma PercentRoundTrip(p: real, total: real)
    requires total != 0.0
    ensures -0.005 <= PercentFromTotal(PercentageOf(p, total), total) - p <= 0.005
  {
    var v := PercentageOf(p, total);
    assert v / total == p / 100.0;
    assert (v / total) * 100.0 == p;
  }
}
