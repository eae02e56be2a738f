/**
 * A proleptic-Gregorian calendar date with the semantics of java.time's
 * LocalDate and YearMonth: month arithmetic clamps the day to the target
 * month's length, comparison is chronological, and the day distance is a
 * difference of epoch days. Years are unbounded.
 */
module Dates {

  datatype YMD = YMD(year: int, month: int, day: int)

  predicate IsLeap(y: int) {
    y % 4 == 0 && (y % 100 != 0 || y % 400 == 0)
  }

  function LengthOfMonth(y: int, m: int): (n: int)
    requires 1 <= m <= 12
    ensures 28 <= n <= 31
  {
    if m == 2 then (if IsLeap(y) then 29 else 28)
    else if m == 4 || m == 6 || m == 9 || m == 11 then 30
    else 31
  }

  function LengthOfYear(y: int): int {
    if IsLeap(y) then 366 else 365
  }

  predicate ValidYMD(d: YMD) {
    1 <= d.month <= 12 && 1 <= d.day <= LengthOfMonth(d.year, d.month)
  }

  /** A LocalDate: a day that exists in the calendar. */
  type Date = d: YMD | ValidYMD(d) witness YMD(1970, 1, 1)

  // ---------------------------------------------------------------- order

  /** `a.isBefore(b)`: chronological (year, month, day) order. */
  predicate IsBefore(a: Date, b: Date) {
    a.year < b.year
    || (a.year == b.year && (a.month < b.month || (a.month == b.month && a.day < b.day)))
  }

  /** `a.isAfter(b)`. */
  predicate IsAfter(a: Date, b: Date) {
    IsBefore(b, a)
  }

  /** `start <= d <= end`, the meaning of SQL `BETWEEN` and of `!isBefore && !isAfter`. */
  predicate InWindow(d: Date, start: Date, end: Date) {
    !IsBefore(d, start) && !IsAfter(d, end)
  }

  // ------------------------------------------------------- adjusters

  /** `withDayOfMonth(1)`. */
  function FirstOfMonth(d: Date): (r: Date)
    ensures r.year == d.year && r.month == d.month && r.day == 1
  {
    YMD(d.year, d.month, 1)
  }

  /** `withDayOfYear(1)`. */
  function FirstOfYear(d: Date): (r: Date)
    ensures r.year == d.year && r.month == 1 && r.day == 1
  {
    YMD(d.year, 1, 1)
  }

  /** The last valid day of year `y`, month `m`, not after `day` (java's resolvePreviousValid). */
  function Clamp(y: int, m: int, day: int): (r: Date)
    requires 1 <= m <= 12 && 1 <= day
    ensures r.year == y && r.month == m
    ensures r.day == if day <= LengthOfMonth(y, m) then day else LengthOfMonth(y, m)
  {
    YMD(y, m, if day <= LengthOfMonth(y, m) then day else LengthOfMonth(y, m))
  }

  /** Months since the start of year 0 (java's `year * 12 + month - 1`). */
  function MonthCount(y: int, m: int): int {
    y * 12 + m - 1
  }

  /** `plusMonths(n)` (and `minusMonths(k)` as `plusMonths(-k)`): day clamped to the target month. */
  function PlusMonths(d: Date, n: int): (r: Date)
    ensures MonthCount(r.year, r.month) == MonthCount(d.year, d.month) + n
    ensures r.day == if d.day <= LengthOfMonth(r.year, r.month) then d.day else LengthOfMonth(r.year, r.month)
  {
    var c := MonthCount(d.year, d.month) + n;
    Clamp(c / 12, c % 12 + 1, d.day)
  }

  function MinusMonths(d: Date, n: int): Date {
    PlusMonths(d, -n)
  }

  /** `plusYears(n)`: Feb 29 becomes Feb 28 in a common year. */
  function PlusYears(d: Date, n: int): (r: Date)
    ensures r.year == d.year + n && r.month == d.month
    ensures r.day == if d.day <= LengthOfMonth(r.year, r.month) then d.day else LengthOfMonth(r.year, r.month)
  {
    Clamp(d.year + n, d.month, d.day)
  }

  /** `minusDays(1)`. */
  function PrevDay(d: Date): (r: Date)
    ensures IsBefore(r, d)
  {
    if d.day > 1 then YMD(d.year, d.month, d.day - 1)
    else if d.month > 1 then YMD(d.year, d.month - 1, LengthOfMonth(d.year, d.month - 1))
    else YMD(d.year - 1, 12, 31)
  }

  /** The last day of `d`'s month. */
  function LastOfMonth(d: Date): (r: Date)
    ensures r.year == d.year && r.month == d.month && !IsBefore(r, d)
  {
    YMD(d.year, d.month, LengthOfMonth(d.year, d.month))
  }

  /** The default end of a window: `start.plusMonths(1).minusDays(1)`. */
  function MonthAfter(start: Date): Date {
    PrevDay(PlusMonths(start, 1))
  }

  /** A window starting on day 1 of a month ends on that month's last day. */
  lemma MonthAfterFirst(d: Date)
    ensures MonthAfter(FirstOfMonth(d)) == LastOfMonth(d)
  {
    var n := PlusMonths(FirstOfMonth(d), 1);
    if d.month == 12 {
      assert n == YMD(d.year + 1, 1, 1);
    } else {
      assert n == YMD(d.year, d.month + 1, 1);
    }
  }

  /** `start.plusYears(1).minusDays(1)` from January 1 is December 31 of that year. */
  lemma YearAfterFirst(d: Date)
    ensures PrevDay(PlusYears(FirstOfYear(d), 1)) == YMD(d.year, 12, 31)
  {
  }

  /** The default window `[start, start + 1 month - 1 day]` is never empty. */
  lemma MonthAfterNotBefore(start: Date)
    ensures !IsBefore(MonthAfter(start), start)
  {
    var n := PlusMonths(start, 1);
    if start.month == 12 {
      assert n.year == start.year + 1 && n.month == 1;
    } else {
      assert n.year == start.year && n.month == start.month + 1;
    }
  }

  // ------------------------------------------------------- epoch days

  /** Leap years in [0, y) (negative for y < 0), by floor division. */
  function LeapsBefore(y: int): int {
    (y + 3) / 4 - (y + 99) / 100 + (y + 399) / 400
  }

  function DaysBeforeYear(y: int): int {
    365 * y + LeapsBefore(y)
  }

  function DaysBeforeMonth(y: int, m: int): int
    requires 1 <= m <= 12
  {
    (if m == 1 then 0 else if m == 2 then 31 else if m == 3 then 59
     else if m == 4 then 90 else if m == 5 then 120 else if m == 6 then 151
     else if m == 7 then 181 else if m == 8 then 212 else if m == 9 then 243
     else if m == 10 then 273 else if m == 11 then 304 else 334)
    + (if m > 2 && IsLeap(y) then 1 else 0)
  }

  /** `toEpochDay()`: days since 1970-01-01. */
  function EpochDay(d: Date): int {
    DaysBeforeYear(d.year) + DaysBeforeMonth(d.year, d.month) + d.day - 1 - DaysBeforeYear(1970)
  }

  /** `ChronoUnit.DAYS.between(a, b)`. */
  function DaysBetween(a: Date, b: Date): int {
    EpochDay(b) - EpochDay(a)
  }

  lemma LeapsStep(y: int)
    ensures LeapsBefore(y + 1) == LeapsBefore(y) + (if IsLeap(y) then 1 else 0)
  {
    assert (y + 4) / 4 == (y + 3) / 4 + (if y % 4 == 0 then 1 else 0);
    assert (y + 100) / 100 == (y + 99) / 100 + (if y % 100 == 0 then 1 else 0);
    assert (y + 400) / 400 == (y + 399) / 400 + (if y % 400 == 0 then 1 else 0);
  }

  lemma YearStep(y: int)
    ensures DaysBeforeYear(y + 1) == DaysBeforeYear(y) + LengthOfYear(y)
  {
    LeapsStep(y);
  }

  lemma {:induction false} YearsMonotone(a: int, b: int)
    requires a <= b
    ensures DaysBeforeYear(a) + 365 * (b - a) <= DaysBeforeYear(b)
    decreases b - a
  {
    if a < b {
      YearStep(a);
      YearsMonotone(a + 1, b);
    }
  }

  lemma MonthStep(y: int, m: int)
    requires 1 <= m <= 12
    ensures m < 12 ==> DaysBeforeMonth(y, m + 1) == DaysBeforeMonth(y, m) + LengthOfMonth(y, m)
    ensures m == 12 ==> DaysBeforeMonth(y, m) + LengthOfMonth(y, m) == LengthOfYear(y)
  {
  }

  lemma {:induction false} MonthsMonotone(y: int, a: int, b: int)
    requires 1 <= a < b <= 12
    ensures DaysBeforeMonth(y, a) + LengthOfMonth(y, a) <= DaysBeforeMonth(y, b)
    decreases b - a
  {
    MonthStep(y, a);
    if a + 1 < b {
      MonthsMonotone(y, a + 1, b);
    }
  }

  /** Chronological order is epoch-day order. */
  lemma BeforeIsEarlierEpochDay(a: Date, b: Date)
    ensures IsBefore(a, b) <==> EpochDay(a) < EpochDay(b)
  {
    if a.year < b.year {
      LessYear(a, b);
    } else if b.year < a.year {
      LessYear(b, a);
    } else if a.month < b.month {
      MonthsMonotone(a.year, a.month, b.month);
    } else if b.month < a.month {
      MonthsMonotone(a.year, b.month, a.month);
    }
  }

  lemma LessYear(a: Date, b: Date)
    requires a.year < b.year
    ensures EpochDay(a) < EpochDay(b)
  {
    MonthStep(a.year, a.month);
    if a.month < 12 {
      MonthsMonotone(a.year, a.month, 12);
      MonthStep(a.year, 12);
    }
    YearStep(a.year);
    YearsMonotone(a.year + 1, b.year);
  }

  /** `minusDays(1)` moves exactly one epoch day back. */
  lemma PrevDayEpoch(d: Date)
    ensures EpochDay(PrevDay(d)) == EpochDay(d) - 1
  {
    if d.day == 1 {
      if d.month > 1 {
        MonthStep(d.year, d.month - 1);
      } else {
        MonthStep(d.year - 1, 12);
        YearStep(d.year - 1);
      }
    }
  }

  // ------------------------------------------------------- year-months

  /** A java.time YearMonth. */
  datatype YearMonth = YearMonth(year: int, month: int)

  function YearMonthOf(d: Date): YearMonth {
    YearMonth(d.year, d.month)
  }

  /** Months since year 0 of a year-month, the measure that YearMonth order follows. */
  function Index(ym: YearMonth): int {
    MonthCount(ym.year, ym.month)
  }

  predicate ValidYearMonth(ym: YearMonth) {
    1 <= ym.month <= 12
  }

  /** `YearMonth.plusMonths(n)`. */
  function PlusMonthsYM(ym: YearMonth, n: int): (r: YearMonth)
    ensures ValidYearMonth(r)
    ensures ValidYearMonth(ym) ==> Index(r) == Index(ym) + n
  {
    var c := MonthCount(ym.year, ym.month) + n;
    YearMonth(c / 12, c % 12 + 1)
  }

  /** `YearMonth.isAfter`. */
  predicate YMIsAfter(a: YearMonth, b: YearMonth) {
    a.year > b.year || (a.year == b.year && a.month > b.month)
  }

  /** `atDay(1)`. */
  function AtDay1(ym: YearMonth): Date
    requires ValidYearMonth(ym)
  {
    YMD(ym.year, ym.month, 1)
  }

  /** `atEndOfMonth()`. */
  function AtEndOfMonth(ym: YearMonth): Date
    requires ValidYearMonth(ym)
  {
    YMD(ym.year, ym.month, LengthOfMonth(ym.year, ym.month))
  }

  /** Between the first and the last day of a month are exactly that month's days. */
  lemma InMonthWindow(d: Date, ym: YearMonth)
    requires ValidYearMonth(ym)
    ensures InWindow(d, AtDay1(ym), AtEndOfMonth(ym)) <==> YearMonthOf(d) == ym
  {
  }

  /** For valid year-months, `isAfter` is the order of month indexes. */
  lemma YMIsAfterIndex(a: YearMonth, b: YearMonth)
    requires ValidYearMonth(a) && ValidYearMonth(b)
    ensures YMIsAfter(a, b) <==> Index(a) > Index(b)
    ensures Index(a) == Index(b) ==> a == b
  {
  }
}
