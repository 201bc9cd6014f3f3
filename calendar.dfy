/**
 * The proleptic Gregorian calendar as JavaScript's `Date` sees it in local
 * time: civil dates, their day numbers, the weekday `getDay()` reports and
 * local instants in milliseconds. Time zones and daylight saving are not
 * part of this model: a local day is always 86 400 000 ms long.
 */
module Calendar {
  const MsPerDay: int := 86400000

  predicate IsLeap(y: int) {
    y % 4 == 0 && (y % 100 != 0 || y % 400 == 0)
  }

  /** What `new Date(y, m, 0).getDate()` gives for the last day of month `m` (1-based). */
  function DaysInMonth(y: int, m: int): (n: int)
    requires 1 <= m <= 12
    ensures 28 <= n <= 31
    ensures m == 2 ==> (n == 29 <==> IsLeap(y))
  {
    if m == 2 then (if IsLeap(y) then 29 else 28)
    else if m == 4 || m == 6 || m == 9 || m == 11 then 30
    else 31
  }

  function DaysInYear(y: int): int {
    if IsLeap(y) then 366 else 365
  }

  /** A civil date: year, month 1..12 and day of month. */
  datatype Date = Date(year: int, month: int, day: int)

  predicate ValidDate(d: Date) {
    1 <= d.month <= 12 && 1 <= d.day <= DaysInMonth(d.year, d.month)
  }

  /** Days from 0000-01-01 to the first day of year `y`. */
  function DaysBeforeYear(y: int): int {
    365 * y + (y + 3) / 4 - (y + 99) / 100 + (y + 399) / 400
  }

  /** Days from the first of January to the first day of month `m` (13 stands for the next year). */
  function DaysBeforeMonth(y: int, m: int): int
    requires 1 <= m <= 13
  {
    var cumulative := [0, 31, 59, 90, 120, 151, 181, 212, 243, 273, 304, 334, 365];
    cumulative[m - 1] + (if m > 2 && IsLeap(y) then 1 else 0)
  }

  /** Number of the day counted from 0000-01-01. */
  function DayNumber(d: Date): int
    requires ValidDate(d)
  {
    DaysBeforeYear(d.year) + DaysBeforeMonth(d.year, d.month) + d.day - 1
  }

  /** `getDay()` of a day number: 0 is Sunday, 1 Monday, ..., 6 Saturday. */
  function Weekday(n: int): (w: int)
    ensures 0 <= w < 7
  {
    (n + 6) % 7
  }

  function WeekdayOf(d: Date): int
    requires ValidDate(d)
  {
    Weekday(DayNumber(d))
  }

  /** Calendar order of two dates. */
  predicate Before(a: Date, b: Date) {
    a.year < b.year
    || (a.year == b.year && a.month < b.month)
    || (a.year == b.year && a.month == b.month && a.day < b.day)
  }

  /** Each month's length closes the gap to the next month's offset. */
  lemma MonthStep(y: int, m: int)
    requires 1 <= m <= 12
    ensures DaysBeforeMonth(y, m) + DaysInMonth(y, m) == DaysBeforeMonth(y, m + 1)
    ensures DaysBeforeMonth(y, 13) == DaysInYear(y)
  {
  }

  /** Stepping `y + k - 1` to `y + k` raises the quotient by one exactly when `k` divides `y`, for `k` = 4, 100 and 400. */
  lemma DivStep4(y: int)
    ensures (y + 4) / 4 - (y + 4 - 1) / 4 == (if y % 4 == 0 then 1 else 0)
  {
    var q, r := y / 4, y % 4;
    assert y + 4 == (q + 1) * 4 + r;
    if r == 0 {
      assert y + 4 - 1 == q * 4 + (4 - 1);
    } else {
      assert y + 4 - 1 == (q + 1) * 4 + (r - 1);
    }
  }

  lemma DivStep100(y: int)
    ensures (y + 100) / 100 - (y + 100 - 1) / 100 == (if y % 100 == 0 then 1 else 0)
  {
    var q, r := y / 100, y % 100;
    assert y + 100 == (q + 1) * 100 + r;
    if r == 0 {
      assert y + 100 - 1 == q * 100 + (100 - 1);
    } else {
      assert y + 100 - 1 == (q + 1) * 100 + (r - 1);
    }
  }

  lemma DivStep400(y: int)
    ensures (y + 400) / 400 - (y + 400 - 1) / 400 == (if y % 400 == 0 then 1 else 0)
  {
    var q, r := y / 400, y % 400;
    assert y + 400 == (q + 1) * 400 + r;
    if r == 0 {
      assert y + 400 - 1 == q * 400 + (400 - 1);
    } else {
      assert y + 400 - 1 == (q + 1) * 400 + (r - 1);
    }
  }

  /** The leap-year counts in `DaysBeforeYear` step by one exactly at multiples of 4, 100 and 400. */
  lemma DivSteps(y: int)
    ensures (y + 4) / 4 - (y + 3) / 4 == (if y % 4 == 0 then 1 else 0)
    ensures (y + 100) / 100 - (y + 99) / 100 == (if y % 100 == 0 then 1 else 0)
    ensures (y + 400) / 400 - (y + 399) / 400 == (if y % 400 == 0 then 1 else 0)
  {
    DivStep4(y);
    DivStep100(y);
    DivStep400(y);
  }

  lemma DivisorsNest(y: int)
    ensures y % 400 == 0 ==> y % 100 == 0
    ensures y % 100 == 0 ==> y % 4 == 0
  {
    CenturyOfQuadricentury(y);
    QuadOfCentury(y);
  }

  lemma CenturyOfQuadricentury(y: int)
    ensures y % 400 == 0 ==> y % 100 == 0
  {
    if y % 400 == 0 {
      var q := y / 400;
      assert y == 100 * (4 * q);
    }
  }

  lemma QuadOfCentury(y: int)
    ensures y % 100 == 0 ==> y % 4 == 0
  {
    if y % 100 == 0 {
      var q := y / 100;
      assert y == 4 * (25 * q);
    }
  }

  lemma YearStep(y: int)
    ensures DaysBeforeYear(y + 1) == DaysBeforeYear(y) + DaysInYear(y)
  {
    DivSteps(y);
    DivisorsNest(y);
    var l4 := if y % 4 == 0 then 1 else 0;
    var l100 := if y % 100 == 0 then 1 else 0;
    var l400 := if y % 400 == 0 then 1 else 0;
    assert DaysBeforeYear(y + 1) - DaysBeforeYear(y) == 365 + l4 - l100 + l400;
  }

  lemma {:induction false} YearsGrow(a: int, b: int)
    requires a < b
    ensures DaysBeforeYear(a + 1) <= DaysBeforeYear(b)
    decreases b - a
  {
    if a + 1 < b {
      YearsGrow(a, b - 1);
      YearStep(b - 1);
    }
  }

  lemma DayNumberInYear(d: Date)
    requires ValidDate(d)
    ensures DaysBeforeYear(d.year) <= DayNumber(d) < DaysBeforeYear(d.year + 1)
  {
    YearStep(d.year);
    MonthStep(d.year, d.month);
    if d.month < 12 {
      MonthsGrow(d.year, d.month, 12);
      MonthStep(d.year, 12);
    }
  }

  /** Day numbers follow the calendar: an earlier date has a smaller number. */
  lemma DayNumberMonotone(a: Date, b: Date)
    requires ValidDate(a) && ValidDate(b) && Before(a, b)
    ensures DayNumber(a) < DayNumber(b)
  {
    DayNumberInYear(a);
    DayNumberInYear(b);
    if a.year < b.year {
      YearsGrow(a.year, b.year);
    } else if a.month < b.month {
      MonthsGrow(a.year, a.month, b.month);
    }
  }

  lemma {:induction false} MonthsGrow(y: int, m: int, n: int)
    requires 1 <= m < n <= 12
    ensures DaysBeforeMonth(y, m) + DaysInMonth(y, m) <= DaysBeforeMonth(y, n)
    decreases n - m
  {
    MonthStep(y, m);
    if m + 1 < n {
      MonthsGrow(y, m + 1, n);
      MonthStep(y, m + 1);
    }
  }

  /** Day numbers and civil dates determine each other, in both directions of the order. */
  lemma DayNumberOrder(a: Date, b: Date)
    requires ValidDate(a) && ValidDate(b)
    ensures DayNumber(a) < DayNumber(b) <==> Before(a, b)
    ensures DayNumber(a) == DayNumber(b) <==> a == b
  {
    if Before(a, b) {
      DayNumberMonotone(a, b);
    } else if Before(b, a) {
      DayNumberMonotone(b, a);
    }
  }

  /** The day after the last day of a month is the first day of the next one. */
  lemma MonthsAdjoin(y: int, m: int)
    requires 1 <= m <= 12
    ensures var next := if m == 12 then Date(y + 1, 1, 1) else Date(y, m + 1, 1);
      DayNumber(Date(y, m, DaysInMonth(y, m))) + 1 == DayNumber(next)
  {
    YearStep(y);
    MonthStep(y, m);
  }

  /** A local date and time: the date and the milliseconds since local midnight. */
  datatype Stamp = Stamp(date: Date, ms: int)

  predicate ValidStamp(s: Stamp) {
    ValidDate(s.date) && 0 <= s.ms < MsPerDay
  }

  /** Milliseconds since 0000-01-01 00:00 local time. */
  function Instant(s: Stamp): int
    requires ValidStamp(s)
  {
    DayNumber(s.date) * MsPerDay + s.ms
  }

  /** 00:00:00.000 of a day number. */
  function DayStart(n: int): int { n * MsPerDay }

  /** 23:59:59.999 of a day number. */
  function DayEnd(n: int): int { n * MsPerDay + MsPerDay - 1 }

  /** An instant lies between the start of day `lo` and the end of day `hi` exactly when its day does. */
  lemma InstantInDays(s: Stamp, lo: int, hi: int)
    requires ValidStamp(s)
    ensures DayStart(lo) <= Instant(s) <= DayEnd(hi) <==> lo <= DayNumber(s.date) <= hi
  {
  }

  /** Instants order stamps the way the calendar and the clock do. */
  lemma InstantOrder(a: Stamp, b: Stamp)
    requires ValidStamp(a) && ValidStamp(b)
    ensures Instant(a) < Instant(b) <==> Before(a.date, b.date) || (a.date == b.date && a.ms < b.ms)
  {
    DayNumberOrder(a.date, b.date);
  }

  function FirstOfMonth(y: int, m: int): Date requires 1 <= m <= 12 { Date(y, m, 1) }

  function LastOfMonth(y: int, m: int): Date requires 1 <= m <= 12 { Date(y, m, DaysInMonth(y, m)) }

  /** A stamp falls between the first and the last day of a month exactly when it has that year and month. */
  lemma InMonthIff(s: Stamp, y: int, m: int)
    requires ValidStamp(s) && 1 <= m <= 12
    ensures DayStart(DayNumber(FirstOfMonth(y, m))) <= Instant(s) <= DayEnd(DayNumber(LastOfMonth(y, m)))
        <==> s.date.year == y && s.date.month == m
  {
    var d := s.date;
    InstantInDays(s, DayNumber(FirstOfMonth(y, m)), DayNumber(LastOfMonth(y, m)));
    DayNumberOrder(d, FirstOfMonth(y, m));
    DayNumberOrder(LastOfMonth(y, m), d);
  }

  /** A stamp falls between 1 January and 31 December of a year exactly when it has that year. */
  lemma InYearIff(s: Stamp, y: int)
    requires ValidStamp(s)
    ensures DayStart(DayNumber(Date(y, 1, 1))) <= Instant(s) <= DayEnd(DayNumber(Date(y, 12, 31)))
        <==> s.date.year == y
  {
    var d := s.date;
    InstantInDays(s, DayNumber(Date(y, 1, 1)), DayNumber(Date(y, 12, 31)));
    DayNumberOrder(d, Date(y, 1, 1));
    DayNumberOrder(Date(y, 12, 31), d);
  }
}
