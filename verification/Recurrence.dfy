/** When a schedule runs. Times are nanoseconds on the scale of the calendar's
    day numbers: UTC instants, and local ("naive") times read off a wall clock. */
module Recurrence {
  import opened Wrappers
  import opened Calendar

  const SECOND: int := 1_000_000_000
  const MINUTE: int := 60_000_000_000
  const HOUR: int := 3_600_000_000_000
  const DAY: int := 86_400_000_000_000

  type Instant = int

  // ----- the time zone -----

  datatype LocalResult = Single(t: Instant) | Ambiguous(t: Instant, later: Instant) | NoTime

  /** A time zone: how far local time is ahead of UTC, and the instants that
      read as a local time. */
  datatype Zone = Zone(offset: Instant -> int, resolve: int -> LocalResult) {

    /** What a wall clock shows at an instant. */
    function Local(t: Instant): int { t + offset(t) }

    function LocalDate(t: Instant): Date { Local(t) / DAY }

    function Earliest(local: int): Option<Instant> {
      match resolve(local)
      case Single(t) => Some(t)
      case Ambiguous(t, _) => Some(t)
      case NoTime => None
    }

    /** `resolve` finds the instants that read as a local time, the first first. */
    ghost predicate Consistent() {
      forall local ::
        match Earliest(local)
        case Some(t) => t + offset(t) == local && forall u :: u + offset(u) == local ==> t <= u
        case None => forall u :: u + offset(u) != local
    }

    /** No two offsets ever used are more than two days apart. */
    ghost predicate Bounded() { forall s, t :: offset(s) - offset(t) <= 2 * DAY }

    ghost predicate Valid() { Consistent() && Bounded() }

    /** In the ten days before and after `t` the clocks aren't set back past what they show
        then by more than 21 hours. */
    ghost predicate SteadyAround(t: Instant) {
      && (forall s :: t < s <= t + 10 * DAY ==> Local(t) - Local(s) <= 21 * HOUR)
      && (forall s :: t - 10 * DAY <= s < t ==> Local(s) - Local(t) <= 21 * HOUR)
    }

    /** In the twelve days before and after `t` they aren't set back by 21 hours at all. */
    ghost predicate Steady(t: Instant) {
      forall a, b :: t - 12 * DAY <= a <= b <= t + 12 * DAY ==> Local(a) - Local(b) < 21 * HOUR
    }
  }

  /** The first instant that reads `j` minutes past `local`. */
  function MinuteAfter(z: Zone, local: int, j: nat): Option<Instant> { z.Earliest(local + j * MINUTE) }

  /** The instant of the first minute `m`, `m` + 1, … 180 after `local` that the clocks show. */
  function FirstMinute(z: Zone, local: int, m: nat): Option<Instant>
    decreases 181 - m
  {
    if m > 180 then None
    else if MinuteAfter(z, local, m).Some? then MinuteAfter(z, local, m)
    else FirstMinute(z, local, m + 1)
  }

  lemma {:induction false} FirstMinuteIsFirst(z: Zone, local: int, m: nat)
    requires m <= 181
    ensures match FirstMinute(z, local, m)
            case Some(t) =>
              exists k: nat :: m <= k <= 180 && MinuteAfter(z, local, k) == Some(t)
                               && forall j: nat :: m <= j < k ==> MinuteAfter(z, local, j) == None
            case None => forall j: nat :: m <= j <= 180 ==> MinuteAfter(z, local, j) == None
    decreases 181 - m
  {
    hide MinuteAfter;
    if m <= 180 && MinuteAfter(z, local, m).None? {
      FirstMinuteIsFirst(z, local, m + 1);
    }
  }

  // ----- rules -----

  datatype Kind = Once | Weekly | Monthly

  /** What parsing makes of a stored schedule. Only one-off and monthly rules have a `date`, and
      monthly ones needn't; `weekdays` are numbered as `Weekday` numbers them. */
  datatype Rule = Rule(kind: Kind, date: Option<Date>, weekdays: set<int>, monthDay: Option<int>,
                       monthWeek: Option<int>, start: int, duration: Option<int>)
  {
    /** What parsing lets through. */
    ghost predicate Valid() {
      && (forall i :: i in weekdays ==> 0 <= i < 7)
      && 0 <= start < 24 * 60
      && (duration.Some? ==> duration.value > 0)
      && match kind
         case Once => date.Some? && monthDay.None? && monthWeek.None?
         case Weekly => weekdays != {} && date.None? && monthDay.None? && monthWeek.None?
         case Monthly =>
           || (monthDay.Some? && 1 <= monthDay.value <= 31 && monthWeek.None?)
           || (monthDay.None? && monthWeek.Some? && (1 <= monthWeek.value <= 4 || monthWeek.value == -1)
               && |weekdays| == 1)
    }
  }

  datatype ParseError =
    | BadTime | BadDate | NoDate | NoDay | DayAndWeek | NoDayOrWeek | BadMonthDay(day: int)
    | BadWeek(week: int) | NotOneDay | NoLength

  /** A stored text field read by the date library: absent, unreadable or a value. */
  datatype Field = Absent | Unreadable | Read(value: int)

  function ParseDate(date: Field): Result<Option<Date>, ParseError> {
    match date
    case Absent => Success(None)
    case Unreadable => Failure(BadDate)
    case Read(d) => Success(Some(d))
  }

  /** Of the bits set in a byte, those of weekdays. */
  function DaysOf(weekdays: set<int>): set<int> { set i | i in weekdays && 0 <= i < 7 }

  /** `weekdays` is the set of bits set in the stored byte. */
  function Parse(kind: Kind, date: Field, weekdays: set<int>, monthDay: Option<int>,
                 monthWeek: Option<int>, start: Field, duration: Option<int>)
    : (r: Result<Rule, ParseError>)
    requires duration.Some? ==> duration.value >= 0
    requires start.Read? ==> 0 <= start.value < 24 * 60
    ensures r.Success? ==> r.value.Valid()
    ensures r.Success? ==> r.value.kind == kind && r.value.duration == duration && start == Read(r.value.start)
  {
    if !start.Read? then Failure(BadTime)
    else
      var days := DaysOf(weekdays);
      var ready: Result<(Option<Date>, Option<int>, Option<int>), ParseError> :=
        match kind
        case Once =>
          if date.Absent? then Failure(NoDate)
          else (match ParseDate(date)
                case Success(d) => Success((d, None, None))
                case Failure(e) => Failure(e))
        case Weekly =>
          if days == {} then Failure(NoDay) else Success((None, None, None))
        case Monthly =>
          if monthDay.Some? && monthWeek.Some? then Failure(DayAndWeek)
          else if monthDay.None? && monthWeek.None? then Failure(NoDayOrWeek)
          else if monthDay.Some? && !(1 <= monthDay.value <= 31) then Failure(BadMonthDay(monthDay.value))
          else if monthWeek.Some? && !(1 <= monthWeek.value <= 4 || monthWeek.value == -1) then
            Failure(BadWeek(monthWeek.value))
          else if monthWeek.Some? && |days| != 1 then Failure(NotOneDay)
          else (match ParseDate(date)
                case Success(d) => Success((d, monthDay, monthWeek))
                case Failure(e) => Failure(e));
      if ready.Failure? then Failure(ready.error)
      else if duration == Some(0) then Failure(NoLength)
      else Success(Rule(kind, ready.value.0, days, ready.value.1, ready.value.2, start.value, duration))
  }

  /** Every valid rule is what parsing its own fields gives. */
  lemma ParseReachesEveryRule(r: Rule)
    requires r.Valid()
    ensures Parse(r.kind, if r.date.Some? then Read(r.date.value) else Absent, r.weekdays,
                  r.monthDay, r.monthWeek, Read(r.start), r.duration) == Success(r)
  {
    assert r.weekdays == DaysOf(r.weekdays);
  }

  /** What parses, and what is kept of it: only the fields that the kind has, and of the byte's
      bits those of weekdays. */
  lemma ParseSucceedsWhen(kind: Kind, date: Field, weekdays: set<int>, monthDay: Option<int>,
                          monthWeek: Option<int>, start: Field, duration: Option<int>)
    requires (duration.Some? ==> duration.value >= 0) && (start.Read? ==> 0 <= start.value < 24 * 60)
    ensures var r := Parse(kind, date, weekdays, monthDay, monthWeek, start, duration);
            && (r.Success? <==>
                && start.Read? && duration != Some(0)
                && match kind
                   case Once => date.Read?
                   case Weekly => exists i :: i in weekdays && 0 <= i < 7
                   case Monthly =>
                     && !date.Unreadable? && (monthDay.Some? <==> monthWeek.None?)
                     && (monthDay.Some? ==> 1 <= monthDay.value <= 31)
                     && (monthWeek.Some? ==>
                           && (1 <= monthWeek.value <= 4 || monthWeek.value == -1)
                           && exists w :: OnlyDay(weekdays, w)))
            && (r.Success? ==>
                  && (forall i :: i in r.value.weekdays <==> i in weekdays && 0 <= i < 7)
                  && (r.value.date.Some? <==> kind != Weekly && date.Read?)
                  && (r.value.date.Some? ==> date == Read(r.value.date.value))
                  && r.value.monthDay == (if kind == Monthly then monthDay else None)
                  && r.value.monthWeek == (if kind == Monthly then monthWeek else None))
  {
    DaysAre(weekdays);
  }

  /** One weekday's bit is set and no other's. */
  ghost predicate OnlyDay(weekdays: set<int>, w: int) {
    0 <= w < 7 && forall i :: 0 <= i < 7 ==> (i in weekdays <==> i == w)
  }

  lemma DaysAre(weekdays: set<int>)
    ensures DaysOf(weekdays) == {} <==> !exists i :: i in weekdays && 0 <= i < 7
    ensures |DaysOf(weekdays)| == 1 <==> exists w :: OnlyDay(weekdays, w)
  {
    var days := DaysOf(weekdays);
    HasMember(days);
    forall i ensures i in days <==> i in weekdays && 0 <= i < 7 { }
    if w :| OnlyDay(weekdays, w) { assert days == {w} && |{w}| == 1; }
    if |days| == 1 {
      var w :| w in days;
      OneMember(days, w);
      assert OnlyDay(weekdays, w);
    }
  }

  lemma OneMember(s: set<int>, w: int)
    requires |s| == 1 && w in s
    ensures forall i :: i in s <==> i == w
  {
    assert |s - {w}| == 0;
    assert s == (s - {w}) + {w};
  }

  // ----- dates -----

  /** `u8::trailing_zeros`: the lowest bit set from `k` on, 8 if none is. */
  function TrailingZeros(bits: set<int>, k: nat): int
    requires k <= 8
    decreases 8 - k
  {
    if k == 8 || k in bits then k else TrailingZeros(bits, k + 1)
  }

  lemma {:induction false} TheOnlyDay(bits: set<int>, w: int, k: nat)
    requires bits == {w} && k <= w < 7
    ensures TrailingZeros(bits, k) == w
    decreases w - k
  {
    if k < w { TheOnlyDay(bits, w, k + 1); }
  }

  /** The day of month `m` that the rule's day of the month, or its weekday and week, come to. */
  function InMonth(r: Rule, m: Month): Option<Date> {
    if r.monthDay.Some? then FromMonthDay(m, r.monthDay.value)
    else if r.monthWeek.None? then None
    else if r.monthWeek.value > 0 then NthInMonth(m, TrailingZeros(r.weekdays, 0), r.monthWeek.value)
    else Some(LastInMonth(m, TrailingZeros(r.weekdays, 0)))
  }

  function NthInMonth(m: Month, weekday: int, week: int): Option<Date> {
    var ahead := (weekday + 7 - Weekday(FirstOf(m))) % 7;
    FromMonthDay(m, 1 + ahead + 7 * (week - 1))
  }

  function LastInMonth(m: Month, weekday: int): Date {
    var last := FirstOf(m + 1) - 1;
    var back := (Weekday(last) + 7 - weekday) % 7;
    last - back
  }

  predicate Matches(r: Rule, d: Date) {
    match r.kind
    case Once => r.date == Some(d)
    case Weekly => Weekday(d) in r.weekdays
    case Monthly => InMonth(r, MonthOf(d)) == Some(d) && (r.date.Some? ==> d >= r.date.value)
  }

  /** What a rule means, date by date: the day of the month; or the weekday, as
      the n-th of its month by counting, or with none after it. */
  ghost predicate Falls(r: Rule, d: Date) {
    match r.kind
    case Once => r.date == Some(d)
    case Weekly => Weekday(d) in r.weekdays
    case Monthly =>
      && (r.date.Some? ==> d >= r.date.value)
      && if r.monthDay.Some? then DayOfMonth(d) == r.monthDay.value
         else
           && Weekday(d) in r.weekdays
           && r.monthWeek.Some?
           && if r.monthWeek.value > 0
              then CountWeekday(FirstOf(MonthOf(d)), d + 1, Weekday(d)) == r.monthWeek.value
              else forall e :: d < e < DayAfter(MonthOf(d)) ==> Weekday(e) != Weekday(d)
  }

  /** `in_month` picks the date of the month the rule means: by day of month,
      by counting weekdays from the first, or the last of its weekday. */
  lemma InMonthIsExact(r: Rule, m: Month, d: Date)
    requires r.Valid() && r.kind == Monthly && MonthOf(d) == m
    requires r.date.Some? ==> d >= r.date.value
    ensures InMonth(r, m) == Some(d) <==> Falls(r, d)
  {
    if r.monthDay.Some? {
      DayIsExact(m, d, r.monthDay.value);
    } else {
      var w := TheDay(r);
      if r.monthWeek.value > 0 { NthIsCounted(m, d, w, r.monthWeek.value); } else { LastHasNoneAfter(m, d, w); }
    }
  }

  lemma DayIsExact(m: Month, d: Date, day: int)
    requires MonthOf(d) == m
    ensures FromMonthDay(m, day) == Some(d) <==> DayOfMonth(d) == day
  {
  }

  lemma HasMember(s: set<int>)
    ensures s == {} || exists x :: x in s
  {
    if forall x :: x !in s { assert s == {}; }
  }

  /** A rule on a weekday of the month has just that one day, read off its lowest bit. */
  lemma TheDay(r: Rule) returns (w: int)
    requires r.Valid() && r.monthWeek.Some?
    ensures r.weekdays == {w} && 0 <= w < 7 && TrailingZeros(r.weekdays, 0) == w
  {
    HasMember(r.weekdays);
    w :| w in r.weekdays;
    assert |r.weekdays - {w}| == 0;
    assert r.weekdays == (r.weekdays - {w}) + {w};
    TheOnlyDay(r.weekdays, w, 0);
  }

  /** Stepping `ahead` from `from` gives the first day on weekday `w`, and from
      there only whole weeks do. */
  lemma Ahead(from: Date, d: Date, w: int)
    requires 0 <= w < 7
    ensures Weekday(d) == w <==> (d - from) % 7 == (w + 7 - Weekday(from)) % 7
  {
    var a, b, c := from - 1, d - 1, (w + 7 - (from - 1) % 7) % 7;
    assert a == 7 * (a / 7) + a % 7;
    assert b == 7 * (b / 7) + b % 7;
  }

  lemma NthIsCounted(m: Month, d: Date, w: int, n: int)
    requires MonthOf(d) == m && 0 <= w < 7 && 1 <= n <= 4
    ensures NthInMonth(m, w, n).Some?
    ensures NthInMonth(m, w, n) == Some(d)
            <==> Weekday(d) == w && CountWeekday(FirstOf(m), d + 1, w) == n
  {
    hide FirstOf, MonthOf, MonthLength, Weekday, CountWeekday, FromMonthDay, DayOfMonth;
    var first := FirstOf(m);
    var ahead := (w + 7 - Weekday(first)) % 7;
    MonthIsLong(m);
    FromFirst(m, 1 + ahead + 7 * (n - 1));
    StartsBy(m, d);
    NthFromFirst(first, d, w, ahead, n);
  }

  lemma StartsBy(m: Month, d: Date)
    requires MonthOf(d) == m
    ensures FirstOf(m) <= d
  {
    hide FirstOf;
  }

  lemma FromFirst(m: Month, day: int)
    ensures FromMonthDay(m, day) == if 1 <= day <= MonthLength(m) then Some(FirstOf(m) + day - 1) else None
  {
    hide FirstOf, MonthOf, MonthLength, DayOfMonth;
  }

  lemma MonthIsLong(m: Month)
    ensures MonthLength(m) >= 28
  {
  }

  lemma NthFromFirst(first: Date, d: Date, w: int, ahead: int, n: int)
    requires first <= d && 0 <= w < 7 && ahead == (w + 7 - Weekday(first)) % 7
    ensures d == first + ahead + 7 * (n - 1)
            <==> Weekday(d) == w && CountWeekday(first, d + 1, w) == n
  {
    WholeWeeks(d - first, ahead, n);
    Ahead(first, d, w);
    if Weekday(d) == w {
      WeekdaysEverySeven(first, d, w);
    }
  }

  lemma WholeWeeks(days: int, ahead: int, n: int)
    requires 0 <= ahead < 7
    ensures days == ahead + 7 * (n - 1) <==> days % 7 == ahead && days / 7 + 1 == n
  {
    assert days == 7 * (days / 7) + days % 7;
  }

  lemma LastHasNoneAfter(m: Month, d: Date, w: int)
    requires MonthOf(d) == m && 0 <= w < 7
    ensures MonthOf(LastInMonth(m, w)) == m
    ensures LastInMonth(m, w) == d
            <==> Weekday(d) == w && forall e :: d < e < DayAfter(m) ==> Weekday(e) != w
  {
    var last, l := FirstOf(m + 1) - 1, LastInMonth(m, w);
    MonthsAreContiguous(m);
    MonthIsUnique(m, l);
    forall e | l <= e <= last
      ensures Weekday(e) == w <==> e == l
    {
      Behind(last, e, w);
    }
    if Weekday(d) == w && d < l {
      assert d < l < DayAfter(m) && Weekday(l) == w;
    }
  }

  lemma Behind(last: Date, e: Date, w: int)
    requires 0 <= w < 7 && last - 7 < e <= last
    ensures Weekday(e) == w <==> last - e == (Weekday(last) + 7 - w) % 7
  {
    var a, b := last - 1, e - 1;
    assert a == 7 * (a / 7) + a % 7;
    assert b == 7 * (b / 7) + b % 7;
  }

  /** The dates a rule matches are exactly those it means. */
  lemma MatchesIsFalls(r: Rule, d: Date)
    requires r.Valid()
    ensures Matches(r, d) <==> Falls(r, d)
  {
    if r.kind == Monthly && (r.date.Some? ==> d >= r.date.value) {
      InMonthIsExact(r, MonthOf(d), d);
    }
  }

  lemma InMonthIsInIt(r: Rule, m: Month)
    requires r.Valid() && r.kind == Monthly
    ensures InMonth(r, m).Some? ==> MonthOf(InMonth(r, m).value) == m
    ensures r.monthWeek.Some? || m % 12 == 0 ==> InMonth(r, m).Some?
  {
    if r.monthWeek.Some? {
      MonthsAreContiguous(m);
      MonthIsUnique(m, FirstOf(m));
      var w := TheDay(r);
      if r.monthWeek.value < 0 {
        LastHasNoneAfter(m, FirstOf(m), w);
      } else {
        NthIsCounted(m, FirstOf(m), w, r.monthWeek.value);
      }
    }
  }

  /** Any twelve months running hold one of a monthly schedule's dates. */
  lemma TwelveMonthsHoldOne(r: Rule, m: Month) returns (k: Month)
    requires r.Valid() && r.kind == Monthly
    ensures m <= k < m + 12 && InMonth(r, k).Some?
  {
    k := m + (12 - m % 12) % 12;
    assert k % 12 == 0;
    InMonthIsInIt(r, k);
  }
}
