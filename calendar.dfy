/**
 * The Gregorian calendar on day numbers counted from 1905-01-01 (day 0): which year a day
 * falls in, and the day numbers of New Year's days. This stands in for JavaScript's `Date`
 * in local time, read at day granularity.
 */
module Calendar {
  import Eras

  const EPOCH_YEAR: int := 1905

  predicate IsLeap(y: int) {
    y % 4 == 0 && (y % 100 != 0 || y % 400 == 0)
  }

  function DaysInYear(y: int): nat {
    if IsLeap(y) then 366 else 365
  }

  /** The number of days in the k years starting with year y. */
  function DaysSpan(y: int, k: nat): nat
    decreases k
  {
    if k == 0 then 0 else DaysInYear(y) + DaysSpan(y + 1, k - 1)
  }

  /** The year of day d, counting d from January 1 of year y. */
  function YearFrom(d: nat, y: int): int
    decreases d
  {
    if d < DaysInYear(y) then y else YearFrom(d - DaysInYear(y), y + 1)
  }

  /** `getFullYear()` of a day number. */
  function YearOf(d: nat): int {
    YearFrom(d, EPOCH_YEAR)
  }

  lemma {:induction false} YearFromAtLeast(d: nat, y: int)
    ensures YearFrom(d, y) >= y
    decreases d
  {
    if d >= DaysInYear(y) {
      YearFromAtLeast(d - DaysInYear(y), y + 1);
    }
  }

  /** Day d is in year y + k or later exactly when at least k whole years have passed. */
  lemma {:induction false} YearFromReaches(d: nat, y: int, k: nat)
    ensures YearFrom(d, y) >= y + k <==> d >= DaysSpan(y, k)
    decreases k
  {
    if k == 0 {
      YearFromAtLeast(d, y);
    } else if d >= DaysInYear(y) {
      YearFromReaches(d - DaysInYear(y), y + 1, k - 1);
    }
  }

  /** Between 1901 and 2000 every fourth year is a leap year. */
  lemma {:induction false} DaysSpanFormula(y: int, k: nat)
    requires 1901 <= y && y + k <= 2001
    ensures DaysSpan(y, k) == 365 * k + (y + k - 1) / 4 - (y - 1) / 4
    decreases k
  {
    if k > 0 {
      DaysSpanFormula(y + 1, k - 1);
      assert DaysInYear(y) == 365 + y / 4 - (y - 1) / 4;
    }
  }

  /** The day number of January 1 of year y. */
  function NewYear(y: int): nat
    requires y >= EPOCH_YEAR
  {
    DaysSpan(EPOCH_YEAR, y - EPOCH_YEAR)
  }

  /** A day is in year y or later exactly when it is on or after January 1 of y. */
  lemma YearAtLeast(d: nat, y: int)
    requires y >= EPOCH_YEAR
    ensures YearOf(d) >= y <==> d >= NewYear(y)
  {
    YearFromReaches(d, EPOCH_YEAR, y - EPOCH_YEAR);
  }

  /** The year of a day is the one whose January 1 is the last on or before it. */
  lemma YearOfBounds(d: nat)
    ensures YearOf(d) >= EPOCH_YEAR
    ensures NewYear(YearOf(d)) <= d < NewYear(YearOf(d) + 1)
  {
    YearFromAtLeast(d, EPOCH_YEAR);
    YearAtLeast(d, YearOf(d));
    YearAtLeast(d, YearOf(d) + 1);
  }

  /** `getFullYear() >= 1929` holds from day 8766 (1929-01-01) on, and never before. */
  lemma From1929(d: nat)
    ensures YearOf(d) >= 1929 <==> d >= 8766
  {
    YearAtLeast(d, 1929);
    DaysSpanFormula(EPOCH_YEAR, 24);
  }

  /** Between 1905 and 2001, January 1 of year y is day 365 (y - 1905) plus one per leap year since. */
  lemma NewYearClosedForm(y: int)
    requires EPOCH_YEAR <= y <= 2001
    ensures NewYear(y) == 365 * (y - EPOCH_YEAR) + (y - 1) / 4 - 476
  {
    DaysSpanFormula(EPOCH_YEAR, y - EPOCH_YEAR);
  }

  /**
   * The era table's bounds are New Year's days: the eras start on January 1 of 1905, 1917,
   * 1922, 1928 and 1934, each ends the day before the next starts, and the last ends on
   * December 31, 1940.
   */
  lemma EraBoundsAreNewYears()
    ensures Eras.ERAS[0].start == NewYear(1905)
    ensures Eras.ERAS[1].start == NewYear(1917)
    ensures Eras.ERAS[2].start == NewYear(1922)
    ensures Eras.ERAS[3].start == NewYear(1928)
    ensures Eras.ERAS[4].start == NewYear(1934)
    ensures Eras.LAST_DAY + 1 == NewYear(1941)
  {
    NewYearClosedForm(1917);
    NewYearClosedForm(1922);
    NewYearClosedForm(1928);
    NewYearClosedForm(1934);
    NewYearClosedForm(1941);
  }
}
