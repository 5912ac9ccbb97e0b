/** Calendar dates (proleptic Gregorian, time of day dropped) with a day ordinal.
    The finance tracker normalises every date with `startOfDay`, so a date is a
    (year, month, day) triple here, and comparing two dates is comparing ordinals. */
module Calendar {

  datatype Date = Date(year: int, month: int, day: int)

  predicate IsLeapYear(y: int) {
    y % 4 == 0 && (y % 100 != 0 || y % 400 == 0)
  }

  function DaysInMonth(y: int, m: int): (n: int)
    requires 1 <= m <= 12
    ensures 28 <= n <= 31
    ensures n == 29 <==> m == 2 && IsLeapYear(y)
  {
    if m == 2 then (if IsLeapYear(y) then 29 else 28)
    else if m == 4 || m == 6 || m == 9 || m == 11 then 30
    else 31
  }

  function DaysInYear(y: int): (n: int)
    ensures n == 365 || n == 366
  {
    if IsLeapYear(y) then 366 else 365
  }

  predicate ValidDate(d: Date) {
    1 <= d.year && 1 <= d.month <= 12 && 1 <= d.day <= DaysInMonth(d.year, d.month)
  }

  /** A real day of the calendar. */
  type CalendarDate = d: Date | ValidDate(d) witness Date(2000, 1, 1)

  /** Days in the years 1 .. y-1. */
  function DaysBeforeYear(y: int): nat
    requires y >= 1
    decreases y
  {
    if y == 1 then 0 else DaysBeforeYear(y - 1) + DaysInYear(y - 1)
  }

  /** Days in the months 1 .. m-1 of year y. */
  function DaysBeforeMonth(y: int, m: int): nat
    requires 1 <= m <= 12
  {
    var common :=
      if m == 1 then 0 else if m == 2 then 31 else if m == 3 then 59
      else if m == 4 then 90 else if m == 5 then 120 else if m == 6 then 151
      else if m == 7 then 181 else if m == 8 then 212 else if m == 9 then 243
      else if m == 10 then 273 else if m == 11 then 304 else 334;
    common + (if m > 2 && IsLeapYear(y) then 1 else 0)
  }

  /** The ordinal of a date: 1 for 0001-01-01, one more for each following day. */
  function ToDays(d: CalendarDate): int {
    DaysBeforeYear(d.year) + DaysBeforeMonth(d.year, d.month) + d.day
  }

  /** `isBefore(a, b)` on start-of-day dates. */
  predicate Before(a: CalendarDate, b: CalendarDate) {
    ToDays(a) < ToDays(b)
  }

  /** `isAfter(a, b)` on start-of-day dates. */
  predicate IsAfter(a: CalendarDate, b: CalendarDate) {
    Before(b, a)
  }

  /** The order of dates as written: year, then month, then day. */
  predicate CalendarLess(a: Date, b: Date) {
    a.year < b.year
    || (a.year == b.year && (a.month < b.month || (a.month == b.month && a.day < b.day)))
  }

  lemma MonthStepDays(y: int, m: int)
    requires 1 <= m < 12
    ensures DaysBeforeMonth(y, m + 1) == DaysBeforeMonth(y, m) + DaysInMonth(y, m)
  {
  }

  lemma YearStepDays(y: int)
    ensures DaysBeforeMonth(y, 12) + DaysInMonth(y, 12) == DaysInYear(y)
  {
  }

  lemma {:induction false} MonthEndBeforeLaterMonth(y: int, m1: int, m2: int)
    requires 1 <= m1 < m2 <= 12
    ensures DaysBeforeMonth(y, m1) + DaysInMonth(y, m1) <= DaysBeforeMonth(y, m2)
    decreases m2 - m1
  {
    MonthStepDays(y, m1);
    if m1 + 1 < m2 {
      MonthEndBeforeLaterMonth(y, m1 + 1, m2);
    }
  }

  lemma MonthEndWithinYear(y: int, m: int)
    requires 1 <= m <= 12
    ensures DaysBeforeMonth(y, m) + DaysInMonth(y, m) <= DaysInYear(y)
  {
    YearStepDays(y);
    if m < 12 {
      MonthEndBeforeLaterMonth(y, m, 12);
    }
  }

  lemma {:induction false} YearEndBeforeLaterYear(y1: int, y2: int)
    requires 1 <= y1 < y2
    ensures DaysBeforeYear(y1) + DaysInYear(y1) <= DaysBeforeYear(y2)
    decreases y2 - y1
  {
    if y1 + 1 < y2 {
      YearEndBeforeLaterYear(y1 + 1, y2);
    }
  }

  lemma CalendarLessImpliesBefore(a: CalendarDate, b: CalendarDate)
    requires CalendarLess(a, b)
    ensures Before(a, b)
  {
    if a.year < b.year {
      MonthEndWithinYear(a.year, a.month);
      YearEndBeforeLaterYear(a.year, b.year);
    } else if a.month < b.month {
      MonthEndBeforeLaterMonth(a.year, a.month, b.month);
    }
  }

  /** Comparing ordinals is comparing dates as written, so `Before` is the
      calendar order and two dates with the same ordinal are the same date. */
  lemma OrdinalIsCalendarOrder(a: CalendarDate, b: CalendarDate)
    ensures Before(a, b) <==> CalendarLess(a, b)
    ensures ToDays(a) == ToDays(b) <==> a == b
  {
    if CalendarLess(a, b) {
      CalendarLessImpliesBefore(a, b);
    } else if a != b {
      assert CalendarLess(b, a);
      CalendarLessImpliesBefore(b, a);
    }
  }

  /** `addDays(d, 1)`. */
  function NextDay(d: CalendarDate): (r: CalendarDate)
    ensures ToDays(r) == ToDays(d) + 1
  {
    if d.day < DaysInMonth(d.year, d.month) then Date(d.year, d.month, d.day + 1)
    else if d.month < 12 then
      MonthStepDays(d.year, d.month);
      Date(d.year, d.month + 1, 1)
    else
      YearStepDays(d.year);
      Date(d.year + 1, 1, 1)
  }

  /** `addDays(d, n)`. */
  function AddDays(d: CalendarDate, n: nat): (r: CalendarDate)
    ensures ToDays(r) == ToDays(d) + n
    decreases n
  {
    if n == 0 then d else AddDays(NextDay(d), n - 1)
  }

  /** The day `day` of the given month, or that month's last day when it is shorter
      (the day-of-month clamp `addMonths` and `addYears` apply). */
  function ClampedDate(y: int, m: int, day: int): (r: CalendarDate)
    requires 1 <= y && 1 <= m <= 12 && 1 <= day
    ensures r.year == y && r.month == m && r.day <= day
    ensures r.day == day || r.day == DaysInMonth(y, m)
  {
    var last := DaysInMonth(y, m);
    Date(y, m, if day <= last then day else last)
  }

  /** `addMonths(d, 1)`: the same day of the next month, clamped to its length. */
  function AddOneMonth(d: CalendarDate): (r: CalendarDate)
    ensures 28 <= ToDays(r) - ToDays(d) <= 31
    ensures r.day <= d.day
    ensures r.year == (if d.month < 12 then d.year else d.year + 1)
    ensures r.month == (if d.month < 12 then d.month + 1 else 1)
    ensures r.day == (if d.day <= DaysInMonth(r.year, r.month) then d.day else DaysInMonth(r.year, r.month))
  {
    if d.month < 12 then
      MonthStepDays(d.year, d.month);
      ClampedDate(d.year, d.month + 1, d.day)
    else
      YearStepDays(d.year);
      ClampedDate(d.year + 1, 1, d.day)
  }

  /** `addYears(d, 1)`: the same day of the same month a year later, so
      29 February becomes 28 February in a common year. */
  function AddOneYear(d: CalendarDate): (r: CalendarDate)
    ensures 365 <= ToDays(r) - ToDays(d) <= 366
    ensures r.year == d.year + 1 && r.month == d.month
    ensures r.day == (if d.day <= DaysInMonth(r.year, r.month) then d.day else DaysInMonth(r.year, r.month))
  {
    ClampedDate(d.year + 1, d.month, d.day)
  }
}
