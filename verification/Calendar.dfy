/** The proleptic Gregorian calendar: dates are day numbers (day 1 is
    1 January of the year 1), months are year * 12 + month, January first. */
module Calendar {
  import opened Wrappers

  type Date = int
  type Month = int

  predicate IsLeap(year: int) {
    year % 4 == 0 && (year % 100 != 0 || year % 400 == 0)
  }

  function MonthLength(m: Month): (n: int)
    ensures 28 <= n <= 31
    ensures n == 31 || m % 12 != 0
  {
    var month := m % 12;
    if month == 1 then (if IsLeap(m / 12) then 29 else 28)
    else if month in {3, 5, 8, 10} then 30
    else 31
  }

  /** The first day of a month: each month starts where the one before it ends. */
  function FirstOf(m: Month): Date
    decreases if m < 12 then 12 - m else m - 12
  {
    if m == 12 then 1
    else if m > 12 then FirstOf(m - 1) + MonthLength(m - 1)
    else FirstOf(m + 1) - MonthLength(m)
  }

  function DayAfter(m: Month): Date { FirstOf(m + 1) }

  lemma MonthsAreContiguous(m: Month)
    ensures DayAfter(m) == FirstOf(m) + MonthLength(m)
  {
  }

  lemma {:induction false} MonthsAscend(a: Month, b: Month)
    requires a <= b
    ensures FirstOf(a) + 28 * (b - a) <= FirstOf(b)
    decreases b - a
  {
    if a < b {
      MonthsAreContiguous(a);
      MonthsAscend(a + 1, b);
    }
  }

  function MonthDown(m: Month, d: Date): (r: Month)
    ensures FirstOf(r) <= d
    decreases FirstOf(m) - d
  {
    if FirstOf(m) <= d then m
    else
      MonthsAreContiguous(m - 1);
      MonthDown(m - 1, d)
  }

  function MonthUp(m: Month, d: Date): (r: Month)
    requires FirstOf(m) <= d
    ensures FirstOf(r) <= d < DayAfter(r)
    decreases d - FirstOf(m)
  {
    MonthsAreContiguous(m);
    if d < DayAfter(m) then m else MonthUp(m + 1, d)
  }

  /** The month a date is in. */
  function MonthOf(d: Date): (m: Month)
    ensures FirstOf(m) <= d < DayAfter(m)
  {
    MonthUp(MonthDown(0, d), d)
  }

  lemma MonthIsUnique(m: Month, d: Date)
    requires FirstOf(m) <= d < DayAfter(m)
    ensures MonthOf(d) == m
  {
    var r := MonthOf(d);
    if r < m { MonthsAscend(r + 1, m); }
    if m < r { MonthsAscend(m + 1, r); }
  }

  lemma LaterMonthLaterDate(d: Date, e: Date)
    requires MonthOf(d) < MonthOf(e)
    ensures d + 28 * (MonthOf(e) - MonthOf(d) - 1) < e
  {
    MonthsAscend(MonthOf(d) + 1, MonthOf(e));
  }

  lemma LaterDateNoEarlierMonth(d: Date, e: Date)
    requires d <= e
    ensures MonthOf(d) <= MonthOf(e)
  {
    if MonthOf(e) < MonthOf(d) { LaterMonthLaterDate(e, d); }
  }

  function DayOfMonth(d: Date): (n: int)
    ensures 1 <= n <= MonthLength(MonthOf(d))
  {
    MonthsAreContiguous(MonthOf(d));
    d - FirstOf(MonthOf(d)) + 1
  }

  /** Days since Monday. */
  function Weekday(d: Date): (w: int)
    ensures 0 <= w < 7
  {
    (d - 1) % 7
  }

  /** `NaiveDate::from_ymd_opt`: the day of a month, if it's that long. */
  function FromMonthDay(m: Month, day: int): (d: Option<Date>)
    ensures d.Some? <==> 1 <= day <= MonthLength(m)
    ensures d.Some? ==> MonthOf(d.value) == m && DayOfMonth(d.value) == day
  {
    if 1 <= day <= MonthLength(m) then
      DayIsInMonth(m, day);
      Some(FirstOf(m) + day - 1)
    else None
  }

  lemma DayIsInMonth(m: Month, day: int)
    requires 1 <= day <= MonthLength(m)
    ensures MonthOf(FirstOf(m) + day - 1) == m && DayOfMonth(FirstOf(m) + day - 1) == day
  {
    hide MonthOf, FirstOf, MonthLength;
    MonthsAreContiguous(m);
    MonthIsUnique(m, FirstOf(m) + day - 1);
  }

  /** How many of the days in [from, end) fall on weekday `w`. */
  function CountWeekday(from: Date, end: Date, w: int): nat
    decreases end - from
  {
    if end <= from then 0
    else CountWeekday(from, end - 1, w) + if Weekday(end - 1) == w then 1 else 0
  }

  lemma {:induction false} NoWeekday(from: Date, end: Date, w: int)
    requires forall e :: from <= e < end ==> Weekday(e) != w
    ensures CountWeekday(from, end, w) == 0
    decreases end - from
  {
    if from < end { NoWeekday(from, end - 1, w); }
  }

  /** Weekdays come every seven days. */
  lemma {:induction false} WeekdaysEverySeven(from: Date, d: Date, w: int)
    requires from <= d && Weekday(d) == w
    ensures CountWeekday(from, d + 1, w) == (d - from) / 7 + 1
    decreases d - from
  {
    if d - 7 < from {
      NoWeekday(from, d, w);
    } else {
      WeekdaysEverySeven(from, d - 7, w);
      SkipWeek(from, d, 6, w);
    }
  }

  lemma {:induction false} SkipWeek(from: Date, d: Date, k: nat, w: int)
    requires from <= d - 7 && Weekday(d) == w && k <= 6
    ensures CountWeekday(from, d - 6 + k, w) == CountWeekday(from, d - 6, w)
  {
    hide Weekday;
    if k > 0 {
      SkipWeek(from, d, k - 1, w);
      WeekdayOnceAWeek(d, k);
    }
  }

  lemma WeekdayOnceAWeek(d: Date, k: nat)
    requires 0 < k < 7
    ensures Weekday(d - 7 + k) != Weekday(d)
  {
  }

  // ----- the calendar in closed form -----

  function DaysBeforeYear(year: int): int {
    365 * (year - 1) + (year - 1) / 4 - (year - 1) / 100 + (year - 1) / 400
  }

  function DaysBeforeMonth(year: int, month: int): int
    requires 0 <= month < 12
  {
    [0, 31, 59, 90, 120, 151, 181, 212, 243, 273, 304, 334][month]
      + if month > 1 && IsLeap(year) then 1 else 0
  }

  function ClosedFirstOf(m: Month): Date {
    1 + DaysBeforeYear(m / 12) + DaysBeforeMonth(m / 12, m % 12)
  }

  lemma MultiplesUpTo(y: int)
    ensures y / 4 - (y - 1) / 4 == if y % 4 == 0 then 1 else 0
    ensures y / 100 - (y - 1) / 100 == if y % 100 == 0 then 1 else 0
    ensures y / 400 - (y - 1) / 400 == if y % 400 == 0 then 1 else 0
  {
  }

  lemma MultiplesNest(y: int)
    ensures y % 400 == 0 ==> y % 100 == 0
    ensures y % 100 == 0 ==> y % 4 == 0
  {
  }

  lemma YearLength(y: int)
    ensures DaysBeforeYear(y + 1) == DaysBeforeYear(y) + if IsLeap(y) then 366 else 365
  {
    MultiplesUpTo(y);
    MultiplesNest(y);
  }

  lemma ClosedStep(m: Month)
    ensures ClosedFirstOf(m + 1) == ClosedFirstOf(m) + MonthLength(m)
  {
    var y, month := m / 12, m % 12;
    assert m == 12 * y + month;
    if month < 11 {
      assert (m + 1) / 12 == y && (m + 1) % 12 == month + 1;
    } else {
      assert (m + 1) / 12 == y + 1 && (m + 1) % 12 == 0;
      YearLength(y);
    }
  }

  /** Laying the months end to end gives the usual count of leap days. */
  lemma {:induction false} FirstOfIsClosed(m: Month)
    ensures FirstOf(m) == ClosedFirstOf(m)
    decreases if m < 12 then 12 - m else m - 12
  {
    if m > 12 {
      FirstOfIsClosed(m - 1);
      ClosedStep(m - 1);
    } else if m < 12 {
      FirstOfIsClosed(m + 1);
      ClosedStep(m);
    }
  }

  lemma DayNumber(m: Month, day: int)
    requires 1 <= day <= MonthLength(m)
    ensures FromMonthDay(m, day) == Some(ClosedFirstOf(m) + day - 1)
  {
    hide ClosedFirstOf;
    FirstOfIsClosed(m);
  }

  /** 18 October 2026 is a Sunday, on the wall calendar and here. */
  lemma ASunday(october: Month)
    requires october / 12 == 2026 && october % 12 == 9
    ensures FromMonthDay(october, 18).Some? && Weekday(FromMonthDay(october, 18).value) == 6
  {
    DayNumber(october, 18);
  }
}
