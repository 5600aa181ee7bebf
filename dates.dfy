/** The proleptic Gregorian calendar of Python's `datetime.date`, reduced to
    the operations the archive code uses: comparison, `timedelta(days=n)`
    steps, `replace(day=1)` and day differences `(d2 - d1).days`. */
module Dates {

  datatype Date = Date(year: int, month: int, day: int)

  /** `datetime.MAXYEAR`; `datetime.MINYEAR` is 1. */
  const MaxYear := 9999

  predicate IsLeapYear(y: int) {
    y % 4 == 0 && (y % 100 != 0 || y % 400 == 0)
  }

  function DaysInMonth(y: int, m: int): int {
    if m == 2 then (if IsLeapYear(y) then 29 else 28)
    else if m == 4 || m == 6 || m == 9 || m == 11 then 30
    else 31
  }

  function DaysInYear(y: int): int {
    if IsLeapYear(y) then 366 else 365
  }

  /** Fields in range, with no upper bound on the year (intermediate values of proofs). */
  predicate WellFormed(d: Date) {
    1 <= d.year && 1 <= d.month <= 12 && 1 <= d.day <= DaysInMonth(d.year, d.month)
  }

  /** A value that a Python `date` can hold. */
  predicate Valid(d: Date) {
    WellFormed(d) && d.year <= MaxYear
  }

  /** Number of days in the years before year `y`. */
  function DaysBeforeYear(y: int): int {
    var p := y - 1;
    365 * p + p / 4 - p / 100 + p / 400
  }

  /** Number of days in year `y` before month `m` (`m == 13`: the whole year). */
  function DaysBeforeMonth(y: int, m: int): int
    requires 1 <= m <= 13
  {
    var cumulative :=
      if m == 1 then 0 else if m == 2 then 31 else if m == 3 then 59
      else if m == 4 then 90 else if m == 5 then 120 else if m == 6 then 151
      else if m == 7 then 181 else if m == 8 then 212 else if m == 9 then 243
      else if m == 10 then 273 else if m == 11 then 304 else if m == 12 then 334
      else 365;
    cumulative + (if m > 2 && IsLeapYear(y) then 1 else 0)
  }

  /** `date.toordinal()`: 0001-01-01 is day 1. `(d2 - d1).days` is `Ordinal(d2) - Ordinal(d1)`. */
  function Ordinal(d: Date): int
    requires 1 <= d.month <= 12
  {
    DaysBeforeYear(d.year) + DaysBeforeMonth(d.year, d.month) + d.day
  }

  /** Python's `date` order: lexicographic on (year, month, day). */
  predicate Less(a: Date, b: Date) {
    a.year < b.year
    || (a.year == b.year && (a.month < b.month || (a.month == b.month && a.day < b.day)))
  }

  predicate LessEq(a: Date, b: Date) {
    a == b || Less(a, b)
  }

  lemma LessEqTransitive(a: Date, b: Date, c: Date)
    requires LessEq(a, b) && LessEq(b, c)
    ensures LessEq(a, c)
  {
  }

  /** `d + timedelta(days=1)`. */
  function NextDay(d: Date): Date {
    if d.day < DaysInMonth(d.year, d.month) then Date(d.year, d.month, d.day + 1)
    else if d.month < 12 then Date(d.year, d.month + 1, 1)
    else Date(d.year + 1, 1, 1)
  }

  /** `d + timedelta(days=n)`, taken one day at a time. */
  function AddDays(d: Date, n: nat): Date
    decreases n
  {
    if n == 0 then d else AddDays(NextDay(d), n - 1)
  }

  /** `d.replace(day=1)`. */
  function FloorMonth(d: Date): Date {
    Date(d.year, d.month, 1)
  }

  /** The first day of the calendar month that follows `d`'s month. */
  function NextMonthStart(d: Date): Date {
    if d.month < 12 then Date(d.year, d.month + 1, 1) else Date(d.year + 1, 1, 1)
  }

  /** `(d + timedelta(days=32)).replace(day=1)`, the month step of `split_date_range`. */
  function MonthStep(d: Date): Date {
    FloorMonth(AddDays(d, 32))
  }

  // ---------------------------------------------------------------------------
  // Day counts

  lemma DaysBeforeYearStep(y: int)
    ensures DaysBeforeYear(y + 1) == DaysBeforeYear(y) + DaysInYear(y)
  {
    var p := y - 1;
    assert (p + 1) / 4 == p / 4 + (if (p + 1) % 4 == 0 then 1 else 0);
    assert (p + 1) / 100 == p / 100 + (if (p + 1) % 100 == 0 then 1 else 0);
    assert (p + 1) / 400 == p / 400 + (if (p + 1) % 400 == 0 then 1 else 0);
  }

  lemma {:induction false} DaysBeforeYearGrows(y1: int, y2: int)
    requires y1 <= y2
    ensures DaysBeforeYear(y2) - DaysBeforeYear(y1) >= 365 * (y2 - y1)
    decreases y2 - y1
  {
    if y1 < y2 {
      DaysBeforeYearGrows(y1, y2 - 1);
      DaysBeforeYearStep(y2 - 1);
    }
  }

  lemma DaysBeforeMonthStep(y: int, m: int)
    requires 1 <= m <= 12
    ensures DaysBeforeMonth(y, m + 1) == DaysBeforeMonth(y, m) + DaysInMonth(y, m)
    ensures DaysBeforeMonth(y, 13) == DaysInYear(y)
  {
  }

  /** The ordinal of a well-formed date lies within its year. */
  lemma OrdinalWithinYear(d: Date)
    requires WellFormed(d)
    ensures DaysBeforeYear(d.year) < Ordinal(d) <= DaysBeforeYear(d.year + 1)
  {
    DaysBeforeYearStep(d.year);
    DaysBeforeMonthStep(d.year, d.month);
    if d.month < 12 {
      DaysBeforeMonthMonotone(d.year, d.month + 1, 13);
    }
  }

  lemma DaysBeforeMonthMonotone(y: int, m1: int, m2: int)
    requires 1 <= m1 <= m2 <= 13
    ensures DaysBeforeMonth(y, m1) <= DaysBeforeMonth(y, m2)
  {
  }

  // ---------------------------------------------------------------------------
  // The ordinal is a faithful day count

  /** One day later is one ordinal later. */
  lemma NextDayOrdinal(d: Date)
    requires WellFormed(d)
    ensures WellFormed(NextDay(d))
    ensures Ordinal(NextDay(d)) == Ordinal(d) + 1
  {
    if d.day == DaysInMonth(d.year, d.month) {
      DaysBeforeMonthStep(d.year, d.month);
      if d.month == 12 {
        DaysBeforeYearStep(d.year);
      }
    }
  }

  /** Date order and ordinal order agree. */
  lemma {:induction false} LessIsOrdinalLess(a: Date, b: Date)
    requires WellFormed(a) && WellFormed(b)
    ensures Less(a, b) <==> Ordinal(a) < Ordinal(b)
  {
    if a.year < b.year {
      OrdinalWithinYear(a);
      OrdinalWithinYear(b);
      DaysBeforeYearGrows(a.year + 1, b.year);
    } else if b.year < a.year {
      OrdinalWithinYear(a);
      OrdinalWithinYear(b);
      DaysBeforeYearGrows(b.year + 1, a.year);
    } else if a.month < b.month {
      DaysBeforeMonthStep(a.year, a.month);
      DaysBeforeMonthMonotone(a.year, a.month + 1, b.month);
    } else if b.month < a.month {
      DaysBeforeMonthStep(b.year, b.month);
      DaysBeforeMonthMonotone(b.year, b.month + 1, a.month);
    }
  }

  /** Two well-formed dates with the same ordinal are the same date. */
  lemma OrdinalInjective(a: Date, b: Date)
    requires WellFormed(a) && WellFormed(b)
    requires Ordinal(a) == Ordinal(b)
    ensures a == b
  {
    LessIsOrdinalLess(a, b);
    LessIsOrdinalLess(b, a);
  }

  /** A month start is followed by the next month start after exactly the month's length. */
  lemma NextMonthStartOrdinal(d: Date)
    requires WellFormed(d)
    ensures WellFormed(NextMonthStart(d))
    ensures Ordinal(NextMonthStart(d)) == Ordinal(FloorMonth(d)) + DaysInMonth(d.year, d.month)
  {
    DaysBeforeMonthStep(d.year, d.month);
    if d.month == 12 {
      DaysBeforeYearStep(d.year);
    }
  }

  // ---------------------------------------------------------------------------
  // Steps

  /** Nothing lies strictly between a date and the next day. */
  lemma NextDayIsImmediate(d: Date, x: Date)
    requires WellFormed(d) && WellFormed(x)
    requires Less(d, x)
    ensures LessEq(NextDay(d), x)
  {
  }

  /** No month start lies strictly between a date and the next month start. */
  lemma NextMonthStartIsImmediate(d: Date, x: Date)
    requires WellFormed(d) && WellFormed(x) && x.day == 1
    requires Less(d, x)
    ensures LessEq(NextMonthStart(d), x)
  {
  }

  lemma {:induction false} AddDaysSplit(d: Date, a: nat, b: nat)
    ensures AddDays(d, a + b) == AddDays(AddDays(d, a), b)
    decreases a
  {
    if a > 0 {
      AddDaysSplit(NextDay(d), a - 1, b);
    }
  }

  lemma {:induction false} AddDaysWithinMonth(d: Date, n: nat)
    requires d.day + n <= DaysInMonth(d.year, d.month)
    ensures AddDays(d, n) == Date(d.year, d.month, d.day + n)
    decreases n
  {
    if n > 0 {
      AddDaysWithinMonth(NextDay(d), n - 1);
    }
  }

  /** The month step `(d + timedelta(days=32)).replace(day=1)` of a month start is the next month start. */
  lemma MonthStepIsNextMonthStart(d: Date)
    requires WellFormed(d) && d.day == 1
    ensures MonthStep(d) == NextMonthStart(d)
  {
    var n := DaysInMonth(d.year, d.month);
    var last := Date(d.year, d.month, n);
    var next := NextMonthStart(d);
    AddDaysSplit(d, n - 1, 33 - n);
    AddDaysWithinMonth(d, n - 1);
    assert AddDays(last, 33 - n) == AddDays(next, 32 - n);
    AddDaysWithinMonth(next, 32 - n);
  }

  /** What `check_date_range` accepts in monthly mode: two month starts 28 to 31
      days apart are consecutive months. */
  lemma MonthGapIsNextMonth(a: Date, b: Date)
    requires WellFormed(a) && WellFormed(b) && a.day == 1 && b.day == 1
    requires 28 <= Ordinal(b) - Ordinal(a) <= 31
    ensures b == NextMonthStart(a)
  {
    var n := NextMonthStart(a);
    NextMonthStartOrdinal(a);
    LessIsOrdinalLess(a, b);
    NextMonthStartIsImmediate(a, b);
    if n != b {
      var n2 := NextMonthStart(n);
      NextMonthStartOrdinal(n);
      LessIsOrdinalLess(n, b);
      NextMonthStartIsImmediate(n, b);
      LessIsOrdinalLess(n2, b);
      assert false;
    }
  }

  /** Consecutive month starts are 28 to 31 days apart. */
  lemma NextMonthGap(a: Date)
    requires WellFormed(a) && a.day == 1
    ensures 28 <= Ordinal(NextMonthStart(a)) - Ordinal(a) <= 31
  {
    NextMonthStartOrdinal(a);
  }

  /** What `check_date_range` accepts in daily mode: dates one day apart are consecutive. */
  lemma DayGapIsNextDay(a: Date, b: Date)
    requires WellFormed(a) && WellFormed(b)
    requires Ordinal(b) - Ordinal(a) == 1
    ensures b == NextDay(a)
  {
    NextDayOrdinal(a);
    OrdinalInjective(b, NextDay(a));
  }

  /** `d + timedelta(days=n)` is `n` ordinals later and still a date. */
  lemma {:induction false} AddDaysOrdinal(d: Date, n: nat)
    requires WellFormed(d)
    ensures WellFormed(AddDays(d, n))
    ensures Ordinal(AddDays(d, n)) == Ordinal(d) + n
    decreases n
  {
    if n > 0 {
      NextDayOrdinal(d);
      AddDaysOrdinal(NextDay(d), n - 1);
    }
  }

  // ---------------------------------------------------------------------------
  // Months counted from year 0

  /** The number of months from January of year 0 to `d`'s month. */
  function MonthIndex(d: Date): int {
    12 * d.year + d.month - 1
  }

  /** The first day of the month with index `k`. */
  function MonthAt(k: int): Date {
    Date(k / 12, k % 12 + 1, 1)
  }

  lemma IndexOfMonthAt(k: int)
    ensures MonthIndex(MonthAt(k)) == k
  {
  }

  lemma MonthAtIndex(d: Date)
    requires 1 <= d.month <= 12
    ensures MonthAt(MonthIndex(d)) == FloorMonth(d)
  {
    var k := MonthIndex(d);
    assert k == 12 * d.year + (d.month - 1);
    assert k / 12 == d.year && k % 12 == d.month - 1;
  }

  lemma NextMonthStartAt(k: int)
    ensures NextMonthStart(MonthAt(k)) == MonthAt(k + 1)
  {
    if k % 12 == 11 {
      assert (k + 1) / 12 == k / 12 + 1 && (k + 1) % 12 == 0;
    } else {
      assert (k + 1) / 12 == k / 12 && (k + 1) % 12 == k % 12 + 1;
    }
  }

  /** Against a month start `m`, date order is month-index order. */
  lemma MonthStartOrder(m: Date, x: Date)
    requires m.day == 1 && 1 <= m.month <= 12 && WellFormed(x)
    ensures LessEq(m, x) <==> MonthIndex(m) <= MonthIndex(x)
    ensures Less(x, m) <==> MonthIndex(x) < MonthIndex(m)
  {
  }
}
