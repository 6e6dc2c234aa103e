/** The starts of a rule in a time zone, and the searches for the next and the
    latest one, which look only at the dates near the time asked about. */
module Starts {
  import opened Wrappers
  import opened Calendar
  import opened Recurrence

  function Naive(r: Rule, d: Date): int { d * DAY + r.start * MINUTE }

  /** When a rule's occurrence of date `d` starts: the earlier of the instants that read as its time,
      or where none does what `FirstMinute` finds; none if that finds none. */
  function StartOn(r: Rule, z: Zone, d: Date): Option<Instant> {
    match z.resolve(Naive(r, d))
    case Single(t) => Some(t)
    case Ambiguous(t, _) => Some(t)
    case NoTime => FirstMinute(z, Naive(r, d), 1)
  }

  function Range(from: int, n: nat): seq<int> { seq(n, i => from + i) }

  function Reversed(from: int, n: nat): seq<int> { seq(n, i => from - i) }

  function DateOn(r: Rule, d: Date): Option<Date> { if Matches(r, d) then Some(d) else None }

  function DateIn(r: Rule, m: Month): Option<Date> {
    if InMonth(r, m).Some? && Matches(r, InMonth(r, m).value) then InMonth(r, m) else None
  }

  function MonthsAround(base: Month, ahead: bool): seq<Month> {
    if ahead then Range(base - 1, 15) else Reversed(base + 1, 15)
  }

  /** The dates looked at: the one-off's; the days from -1 to 8 around `today`
      (8 to 1 behind); or the dates in the months from -1 to 13 (13 to 1 behind). */
  function Candidates(r: Rule, today: Date, ahead: bool): seq<Date> {
    match r.kind
    case Once => if r.date.Some? then [r.date.value] else []
    case Weekly =>
      FilterMap(d => DateOn(r, d),
                if ahead then Range(today - 1, 10) else Reversed(today + 1, 10))
    case Monthly =>
      FilterMap(m => DateIn(r, m),
                MonthsAround(Base(r, today, ahead), ahead))
  }

  /** From where a search ahead counts its months. */
  function From(r: Rule, today: Date): Date {
    if r.date.Some? && r.date.value > today then r.date.value else today
  }

  function Base(r: Rule, today: Date, ahead: bool): Month {
    MonthOf(if ahead then From(r, today) else today)
  }

  function StartsOn(r: Rule, z: Zone, dates: seq<Date>): (starts: seq<Instant>)
    ensures forall d :: d in dates && StartOn(r, z, d).Some? ==> StartOn(r, z, d).value in starts
    ensures forall s :: s in starts ==> exists d :: d in dates && StartOn(r, z, d) == Some(s)
  {
    FilterMap(d => StartOn(r, z, d), dates)
  }

  function StartsAround(r: Rule, z: Zone, t: Instant, ahead: bool): seq<Instant> {
    StartsOn(r, z, Candidates(r, z.LocalDate(t), ahead))
  }

  function After(t: Instant, xs: seq<Instant>): (ys: seq<Instant>)
    ensures forall x :: x in ys <==> x in xs && x > t
  {
    FilterMap(s => if s > t then Some(s) else None, xs)
  }

  function UpTo(t: Instant, xs: seq<Instant>): (ys: seq<Instant>)
    ensures forall x :: x in ys <==> x in xs && x <= t
  {
    FilterMap(s => if s <= t then Some(s) else None, xs)
  }

  function Least(xs: seq<int>): (m: Option<int>)
    ensures m.None? <==> xs == []
    ensures m.Some? ==> m.value in xs && forall x :: x in xs ==> m.value <= x
  {
    if xs == [] then None
    else
      var rest := Least(xs[1..]);
      assert xs == [xs[0]] + xs[1..];
      if rest.Some? && rest.value < xs[0] then rest else Some(xs[0])
  }

  function Greatest(xs: seq<int>): (m: Option<int>)
    ensures m.None? <==> xs == []
    ensures m.Some? ==> m.value in xs && forall x :: x in xs ==> x <= m.value
  {
    if xs == [] then None
    else
      var rest := Greatest(xs[1..]);
      assert xs == [xs[0]] + xs[1..];
      if rest.Some? && rest.value >= xs[0] then rest else Some(xs[0])
  }

  function LatestAtOrBefore(r: Rule, z: Zone, t: Instant): Option<Instant> {
    Greatest(UpTo(t, StartsAround(r, z, t, false)))
  }

  function NextAfter(r: Rule, z: Zone, t: Instant): Option<Instant> {
    Least(After(t, StartsAround(r, z, t, true)))
  }

  // ----- what they should be -----

  /** Some date the rule means, of all there are, starts at `s`. */
  ghost predicate IsStart(r: Rule, z: Zone, s: Instant) {
    exists d :: Falls(r, d) && StartOn(r, z, d) == Some(s)
  }

  ghost predicate IsLatest(r: Rule, z: Zone, t: Instant, latest: Option<Instant>) {
    match latest
    case Some(s) => IsStart(r, z, s) && s <= t && forall u :: IsStart(r, z, u) && u <= t ==> u <= s
    case None => forall u :: IsStart(r, z, u) ==> u > t
  }

  ghost predicate IsNext(r: Rule, z: Zone, t: Instant, next: Option<Instant>) {
    match next
    case Some(s) => IsStart(r, z, s) && s > t && forall u :: IsStart(r, z, u) && u > t ==> s <= u
    case None => forall u :: IsStart(r, z, u) ==> u <= t
  }

  /** Around `t` the clocks are steady, and every date looked at has a start: the clocks skip
      none of them by more than three hours past its time. */
  ghost predicate Sees(r: Rule, z: Zone, t: Instant, ahead: bool) {
    && z.Valid() && z.SteadyAround(t)
    && forall c :: c in Candidates(r, z.LocalDate(t), ahead) ==> StartOn(r, z, c).Some?
  }

  // ----- starts and dates -----

  /** The clocks show this at some time. */
  ghost predicate Shown(z: Zone, local: int) { exists u :: z.Local(u) == local }

  lemma {:induction false} ShownIsFound(z: Zone, local: int)
    requires z.Consistent()
    ensures z.Earliest(local).Some? <==> Shown(z, local)
    ensures z.Earliest(local).Some? ==> IsFirst(z, local, z.Earliest(local).value)
  {
    if z.Earliest(local).Some? { assert z.Local(z.Earliest(local).value) == local; }
  }

  /** The first instant at which the clocks show `local`. */
  ghost predicate IsFirst(z: Zone, local: int, s: Instant) {
    z.Local(s) == local && forall u :: z.Local(u) == local ==> s <= u
  }

  ghost predicate ShownAfter(z: Zone, local: int, k: nat) { Shown(z, local + k * MINUTE) }

  /** A start is at its date's time, or if the clocks skip that, at the first minute after
      that they show, within three hours; and a date that the clocks show then has one. */
  lemma StartOnIsFirstMinute(r: Rule, z: Zone, d: Date)
    requires z.Consistent()
    ensures IsFirstShown(z, d * DAY + r.start * MINUTE, StartOn(r, z, d))
  {
    FirstMinuteIsShown(z, Naive(r, d));
    StartOnIsFound(r, z, d);
    assert Naive(r, d) == d * DAY + r.start * MINUTE;
  }

  /** The first instant that reads as the first minute that the clocks show of those from `local`
      to three hours after it, if they show one. */
  ghost predicate IsFirstShown(z: Zone, local: int, start: Option<Instant>) {
    && (start.Some? <==> exists j: nat :: j <= 180 && ShownAfter(z, local, j))
    && (start.Some? ==> exists k: nat ::
          && k <= 180 && IsFirst(z, local + k * MINUTE, start.value)
          && forall j: nat :: j < k ==> !ShownAfter(z, local, j))
  }

  lemma FirstMinuteIsShown(z: Zone, local: int)
    requires z.Consistent()
    ensures IsFirstShown(z, local, FirstMinute(z, local, 0))
  {
    hide FirstMinute, MinuteAfter, ShownAfter, IsFirst;
    FirstMinuteIsFirst(z, local, 0);
    forall j: nat ensures MinuteAfter(z, local, j).Some? <==> ShownAfter(z, local, j) {
      MinuteIsFound(z, local, j);
    }
    var start := FirstMinute(z, local, 0);
    if start.Some? {
      var k: nat :| k <= 180 && MinuteAfter(z, local, k) == start
                    && forall j: nat :: 0 <= j < k ==> MinuteAfter(z, local, j) == None;
      MinuteIsFound(z, local, k);
    }
  }

  /** A date on which the clocks show the rule's hour and minute has a start, and then they show
      that date, that hour and that minute, and no seconds. */
  lemma StartReadsAsMeant(r: Rule, z: Zone, d: Date)
    requires r.Valid() && z.Consistent() && Shown(z, d * DAY + r.start * MINUTE)
    ensures StartOn(r, z, d).Some?
    ensures var l := z.Local(StartOn(r, z, d).value);
            l / DAY == d && l % DAY / HOUR == r.start / 60 && l % HOUR / MINUTE == r.start % 60 && l % MINUTE == 0
  {
    StartOnIsFirstMinute(r, z, d);
    assert 0 <= r.start < 24 * 60;
    hide *;
    FirstIsShown(z, d * DAY + r.start * MINUTE, StartOn(r, z, d));
    ReadsAs(z.Local(StartOn(r, z, d).value), d, r.start);
  }

  lemma FirstIsShown(z: Zone, local: int, start: Option<Instant>)
    requires IsFirstShown(z, local, start) && Shown(z, local)
    ensures start.Some? && z.Local(start.value) == local
  {
    assert ShownAfter(z, local, 0) by { assert local + 0 * MINUTE == local; }
    assert forall k: nat :: IsFirst(z, local + k * MINUTE, start.value) && k == 0 ==> z.Local(start.value) == local;
  }

  lemma ReadsAs(l: int, d: Date, minutes: int)
    requires 0 <= minutes < 24 * 60 && l == d * DAY + minutes * MINUTE
    ensures l / DAY == d && l % DAY / HOUR == minutes / 60 && l % HOUR / MINUTE == minutes % 60 && l % MINUTE == 0
  {
    var h, m := minutes / 60, minutes % 60;
    Divides(l, d, h * HOUR + m * MINUTE, DAY);
    Divides(l % DAY, h, m * MINUTE, HOUR);
    Divides(l, 24 * d + h, m * MINUTE, HOUR);
    Divides(m * MINUTE, m, 0, MINUTE);
    Divides(l, 24 * 60 * d + 60 * h + m, 0, MINUTE);
  }

  lemma Divides(a: int, q: int, rest: int, unit: int)
    requires unit > 0 && a == q * unit + rest && 0 <= rest < unit
    ensures a / unit == q && a % unit == rest
  {
    var x := a / unit - q;
    assert x * unit == rest - a % unit;
    assert x >= 1 ==> x * unit >= unit;
    assert x <= -1 ==> x * unit <= -unit;
  }

  lemma StartOnIsFound(r: Rule, z: Zone, d: Date)
    ensures StartOn(r, z, d) == FirstMinute(z, Naive(r, d), 0)
  {
    assert Naive(r, d) + 0 * MINUTE == Naive(r, d);
  }

  lemma MinuteIsFound(z: Zone, local: int, j: nat)
    requires z.Consistent()
    ensures MinuteAfter(z, local, j).Some? <==> ShownAfter(z, local, j)
    ensures MinuteAfter(z, local, j).Some? ==> IsFirst(z, local + j * MINUTE, MinuteAfter(z, local, j).value)
  {
    ShownIsFound(z, local + j * MINUTE);
  }

  lemma StartIsNearItsDate(r: Rule, z: Zone, d: Date)
    requires r.Valid() && z.Consistent()
    ensures StartOn(r, z, d).Some? ==> d * DAY <= z.Local(StartOn(r, z, d).value) < (d + 1) * DAY + 3 * HOUR
  {
    StartOnIsFirstMinute(r, z, d);
  }

  /** A start two local days on is later, one two days back isn't. */
  lemma DaysAwayFrom(r: Rule, z: Zone, d: Date, t: Instant)
    requires r.Valid() && z.Valid() && z.SteadyAround(t) && StartOn(r, z, d).Some?
    ensures d >= z.LocalDate(t) + 2 ==> StartOn(r, z, d).value > t
    ensures d <= z.LocalDate(t) - 2 ==> StartOn(r, z, d).value <= t
  {
    StartIsNearItsDate(r, z, d);
    var s := StartOn(r, z, d).value;
    assert z.offset(s) - z.offset(t) <= 2 * DAY && z.offset(t) - z.offset(s) <= 2 * DAY;
  }

  /** Starts of dates a week apart or more keep their order, however the clocks are set. */
  lemma StartsAscend(r: Rule, z: Zone, d: Date, e: Date)
    requires r.Valid() && z.Valid() && d + 7 <= e && StartOn(r, z, d).Some? && StartOn(r, z, e).Some?
    ensures StartOn(r, z, d).value < StartOn(r, z, e).value
  {
    StartIsNearItsDate(r, z, d);
    StartIsNearItsDate(r, z, e);
    var s, t := StartOn(r, z, d).value, StartOn(r, z, e).value;
    assert z.offset(t) - z.offset(s) <= 2 * DAY;
  }

  // ----- the dates looked at -----

  lemma CandidatesFall(r: Rule, today: Date, ahead: bool)
    requires r.Valid()
    ensures forall d :: d in Candidates(r, today, ahead) ==> Falls(r, d)
  {
    forall d | d in Candidates(r, today, ahead) ensures Falls(r, d) {
      MatchesIsFalls(r, d);
    }
  }

  lemma WeeklyCandidate(r: Rule, today: Date, ahead: bool, d: Date)
    requires r.Valid() && r.kind == Weekly && Falls(r, d)
    requires if ahead then today - 1 <= d <= today + 8 else today - 8 <= d <= today + 1
    ensures d in Candidates(r, today, ahead)
  {
    var dates := if ahead then Range(today - 1, 10) else Reversed(today + 1, 10);
    var i := if ahead then d - (today - 1) else today + 1 - d;
    assert dates[i] == d && DateOn(r, dates[i]) == Some(d);
  }

  lemma DateInItsMonth(r: Rule, d: Date)
    requires r.Valid() && r.kind == Monthly && Falls(r, d)
    ensures DateIn(r, MonthOf(d)) == Some(d)
  {
    MatchesIsFalls(r, d);
  }

  lemma InDates(r: Rule, base: Month, ahead: bool, m: Month, d: Date)
    requires DateIn(r, m) == Some(d)
    requires if ahead then base - 1 <= m <= base + 13 else base - 13 <= m <= base + 1
    ensures d in FilterMap(m => DateIn(r, m), MonthsAround(base, ahead))
  {
    hide DateIn;
    var months := MonthsAround(base, ahead);
    var i := if ahead then m - (base - 1) else base + 1 - m;
    assert months[i] == m;
  }

  lemma MonthlyCandidate(r: Rule, today: Date, ahead: bool, d: Date)
    requires r.Valid() && r.kind == Monthly && Falls(r, d)
    requires var base := Base(r, today, ahead);
             if ahead then base - 1 <= MonthOf(d) <= base + 13 else base - 13 <= MonthOf(d) <= base + 1
    ensures d in Candidates(r, today, ahead)
  {
    hide DateIn, Falls, Base, MonthOf;
    DateInItsMonth(r, d);
    assert Candidates(r, today, ahead) == FilterMap(m => DateIn(r, m), MonthsAround(Base(r, today, ahead), ahead));
    hide Candidates;
    InDates(r, Base(r, today, ahead), ahead, MonthOf(d), d);
  }

  /** Of a weekly rule's dates past the window, one inside it is on the same weekday. */
  lemma WeekBefore(r: Rule, today: Date, d: Date) returns (c: Date)
    requires r.Valid() && r.kind == Weekly && Falls(r, d) && d >= today - 1
    ensures c in Candidates(r, today, true) && (c == d || (c >= today + 2 && c + 7 <= d))
  {
    c := d;
    if d > today + 8 {
      c := today + 2 + (d - today - 2) % 7;
      assert Weekday(c) == Weekday(d);
    }
    WeeklyCandidate(r, today, true, c);
  }

  lemma WeekAfter(r: Rule, today: Date, d: Date) returns (c: Date)
    requires r.Valid() && r.kind == Weekly && Falls(r, d) && d <= today + 1
    ensures c in Candidates(r, today, false) && (c == d || (c <= today - 2 && d + 7 <= c))
  {
    c := d;
    if d < today - 8 {
      c := today - 2 - (today - 2 - d) % 7;
      assert Weekday(c) == Weekday(d);
    }
    WeeklyCandidate(r, today, false, c);
  }

  /** A monthly rule's dates are a week apart or more. */
  lemma DatesApart(r: Rule, c: Date, d: Date)
    requires r.Valid() && r.kind == Monthly && Falls(r, c) && Falls(r, d) && c < d
    ensures c + 7 <= d
  {
    if r.monthDay.Some? {
      SameDayApart(c, d);
    } else {
      OneWeekday(r, c, d);
      SameWeekdayApart(c, d);
    }
  }

  lemma OneWeekday(r: Rule, c: Date, d: Date)
    requires r.Valid() && r.kind == Monthly && r.monthDay.None? && Falls(r, c) && Falls(r, d)
    ensures Weekday(c) == Weekday(d)
  {
    hide CountWeekday, TrailingZeros, MonthOf;
    var w := TheDay(r);
  }

  lemma SameWeekdayApart(c: Date, d: Date)
    requires c < d && Weekday(c) == Weekday(d)
    ensures c + 7 <= d
  {
  }

  lemma SameDayApart(c: Date, d: Date)
    requires c < d && DayOfMonth(c) == DayOfMonth(d)
    ensures c + 28 <= d
  {
    LaterDateNoEarlierMonth(c, d);
    if MonthOf(c) < MonthOf(d) { MonthsAscend(MonthOf(c), MonthOf(d)); }
  }

  /** Of a monthly rule's dates past the window, one in the year before it is inside. */
  lemma MonthBefore(r: Rule, today: Date, d: Date) returns (c: Date)
    requires r.Valid() && r.kind == Monthly && Falls(r, d) && d >= today - 1
    ensures c in Candidates(r, today, true) && (c == d || (c >= today + 2 && c + 7 <= d))
  {
    var base, from := Base(r, today, true), From(r, today);
    c := d;
    if MonthOf(d) > base + 13 {
      c := DateWithin(r, base + 2);
      LaterMonthLaterDate(from, c);
      LaterMonthLaterDate(c, d);
    } else {
      LaterDateNoEarlierMonth(from, d + 1);
      LaterDateNoEarlierMonth(d + 1, DayAfter(MonthOf(d)));
      MonthIsNext(MonthOf(d));
    }
    assert r.date.Some? ==> c >= r.date.value;
    MonthlyCandidate(r, today, true, c);
    if c < d { DatesApart(r, c, d); }
  }

  lemma MonthAfter(r: Rule, today: Date, d: Date) returns (c: Date)
    requires r.Valid() && r.kind == Monthly && Falls(r, d) && d <= today + 1
    ensures c in Candidates(r, today, false) && (c == d || (c <= today - 2 && d + 7 <= c))
  {
    var base := MonthOf(today);
    c := d;
    if MonthOf(d) < base - 13 {
      c := DateWithin(r, base - 13);
      LaterMonthLaterDate(d, c);
      LaterMonthLaterDate(c, today);
    } else {
      LaterDateNoEarlierMonth(d - 1, today);
      LaterDateNoEarlierMonth(d, DayAfter(MonthOf(d - 1)));
      MonthIsNext(MonthOf(d - 1));
    }
    MonthlyCandidate(r, today, false, c);
    if d < c { DatesApart(r, d, c); }
  }

  /** A monthly rule's date in one of twelve months running, leaving out its first date. */
  lemma DateWithin(r: Rule, m: Month) returns (c: Date)
    requires r.Valid() && r.kind == Monthly
    ensures m <= MonthOf(c) < m + 12
    ensures (r.date.Some? ==> c >= r.date.value) ==> Falls(r, c)
  {
    var k := TwelveMonthsHoldOne(r, m);
    c := InMonth(r, k).value;
    InMonthIsInIt(r, k);
    if r.date.Some? ==> c >= r.date.value { InMonthIsExact(r, k, c); }
  }

  /** A date's start after `t` has one of the dates looked at start no later, and after `t` too. */
  lemma CandidateNoLater(r: Rule, z: Zone, t: Instant, d: Date) returns (c: Date)
    requires r.Valid() && Sees(r, z, t, true) && Falls(r, d)
    requires StartOn(r, z, d).Some? && StartOn(r, z, d).value > t
    ensures c in Candidates(r, z.LocalDate(t), true)
    ensures StartOn(r, z, c).Some? && t < StartOn(r, z, c).value <= StartOn(r, z, d).value
  {
    var today := z.LocalDate(t);
    DaysAwayFrom(r, z, d, t);
    match r.kind {
      case Once => c := d;
      case Weekly => c := WeekBefore(r, today, d);
      case Monthly => c := MonthBefore(r, today, d);
    }
    DaysAwayFrom(r, z, c, t);
    if c != d { StartsAscend(r, z, c, d); }
  }

  lemma MonthIsNext(m: Month)
    ensures MonthOf(DayAfter(m)) == m + 1
  {
    MonthsAreContiguous(m + 1);
    MonthIsUnique(m + 1, DayAfter(m));
  }

  /** A date's start at or before `t` has one of the dates looked at start no earlier, and by `t` too. */
  lemma CandidateNoEarlier(r: Rule, z: Zone, t: Instant, d: Date) returns (c: Date)
    requires r.Valid() && Sees(r, z, t, false) && Falls(r, d)
    requires StartOn(r, z, d).Some? && StartOn(r, z, d).value <= t
    ensures c in Candidates(r, z.LocalDate(t), false)
    ensures StartOn(r, z, c).Some? && StartOn(r, z, d).value <= StartOn(r, z, c).value <= t
  {
    var today := z.LocalDate(t);
    DaysAwayFrom(r, z, d, t);
    match r.kind {
      case Once => c := d;
      case Weekly => c := WeekAfter(r, today, d);
      case Monthly => c := MonthAfter(r, today, d);
    }
    DaysAwayFrom(r, z, c, t);
    if c != d { StartsAscend(r, z, d, c); }
  }

  // ----- the searches are exact -----

  /** `next_after` is the first start of all strictly after `t`; none only if there's none. */
  lemma NextAfterIsNext(r: Rule, z: Zone, t: Instant)
    requires r.Valid() && Sees(r, z, t, true)
    ensures IsNext(r, z, t, NextAfter(r, z, t))
  {
    var starts := StartsAround(r, z, t, true);
    CandidatesFall(r, z.LocalDate(t), true);
    forall u | IsStart(r, z, u) && u > t
      ensures NextAfter(r, z, t).Some? && NextAfter(r, z, t).value <= u
    {
      var d :| Falls(r, d) && StartOn(r, z, d) == Some(u);
      var c := CandidateNoLater(r, z, t, d);
      assert StartOn(r, z, c).value in starts;
    }
  }

  /** `latest_at_or_before` is the last start of all at or before `t`; none only if there's none. */
  lemma LatestAtOrBeforeIsLatest(r: Rule, z: Zone, t: Instant)
    requires r.Valid() && Sees(r, z, t, false)
    ensures IsLatest(r, z, t, LatestAtOrBefore(r, z, t))
  {
    var starts := StartsAround(r, z, t, false);
    CandidatesFall(r, z.LocalDate(t), false);
    forall u | IsStart(r, z, u) && u <= t
      ensures LatestAtOrBefore(r, z, t).Some? && u <= LatestAtOrBefore(r, z, t).value
    {
      var d :| Falls(r, d) && StartOn(r, z, d) == Some(u);
      var c := CandidateNoEarlier(r, z, t, d);
      assert StartOn(r, z, c).value in starts;
    }
  }

  lemma LatestIsMonotone(r: Rule, z: Zone, t: Instant, u: Instant)
    requires r.Valid() && Sees(r, z, t, false) && Sees(r, z, u, false) && t <= u
    ensures LatestAtOrBefore(r, z, t).Some? ==>
              LatestAtOrBefore(r, z, u).Some? && LatestAtOrBefore(r, z, t).value <= LatestAtOrBefore(r, z, u).value
  {
    LatestAtOrBeforeIsLatest(r, z, t);
    LatestAtOrBeforeIsLatest(r, z, u);
  }

  /** Both only move forward as time does. */
  lemma SearchesAreMonotone(r: Rule, z: Zone, t: Instant, u: Instant)
    requires r.Valid() && t <= u
    requires Sees(r, z, t, false) && Sees(r, z, u, false) && Sees(r, z, t, true) && Sees(r, z, u, true)
    ensures LatestAtOrBefore(r, z, t).Some? ==>
              LatestAtOrBefore(r, z, u).Some? && LatestAtOrBefore(r, z, t).value <= LatestAtOrBefore(r, z, u).value
    ensures NextAfter(r, z, u).Some? ==>
              NextAfter(r, z, t).Some? && NextAfter(r, z, t).value <= NextAfter(r, z, u).value
  {
    LatestIsMonotone(r, z, t, u);
    NextAfterIsNext(r, z, t);
    NextAfterIsNext(r, z, u);
  }

  /** Between the latest start at an instant and the next one after it there's no other. */
  lemma LatestAndNextAreNeighbours(r: Rule, z: Zone, t: Instant, s: Instant)
    requires r.Valid() && LatestAtOrBefore(r, z, t) == Some(s)
    requires Sees(r, z, t, false) && Sees(r, z, s, true) && Sees(r, z, t, true)
    ensures NextAfter(r, z, s) == NextAfter(r, z, t)
  {
    LatestAtOrBeforeIsLatest(r, z, t);
    NextAfterIsNext(r, z, s);
    NextAfterIsNext(r, z, t);
    NextSkipsOver(r, z, s, t, NextAfter(r, z, s), NextAfter(r, z, t));
  }

  lemma NextSkipsOver(r: Rule, z: Zone, s: Instant, t: Instant, a: Option<Instant>, b: Option<Instant>)
    requires IsLatest(r, z, t, Some(s)) && IsNext(r, z, s, a) && IsNext(r, z, t, b)
    ensures a == b
  {
  }

  // ----- exactly when they are -----

  lemma SteadyIsSteadyAround(z: Zone, t: Instant)
    requires z.Steady(t)
    ensures z.SteadyAround(t)
  {
  }

  /** Where the clocks are steady, starts near `t` are in the order of their dates. */
  lemma StartsInOrder(r: Rule, z: Zone, t: Instant, d: Date, e: Date)
    requires r.Valid() && z.Valid() && z.Steady(t) && d < e && StartOn(r, z, d).Some? && StartOn(r, z, e).Some?
    requires t - 12 * DAY <= StartOn(r, z, e).value && StartOn(r, z, d).value <= t + 12 * DAY
    ensures StartOn(r, z, d).value < StartOn(r, z, e).value
  {
    StartOnIsFirstMinute(r, z, d);
    StartOnIsFirstMinute(r, z, e);
    var a, b := StartOn(r, z, d).value, StartOn(r, z, e).value;
    assert z.Local(a) <= Naive(r, d) + 180 * MINUTE && Naive(r, e) <= z.Local(b);
    assert b <= a ==> z.Local(b) - z.Local(a) < 21 * HOUR;
  }

  /** Of a rule's dates up to tomorrow, one not looked at is before all that are. */
  lemma Behind(r: Rule, today: Date, d: Date, c: Date)
    requires r.Valid() && Falls(r, d) && d <= today + 1 && c in Candidates(r, today, false)
    ensures d in Candidates(r, today, false) ||
            (d < c && (r.kind == Monthly ==> d + 7 <= c) && (r.kind == Weekly ==> c >= today - 8))
  {
    CandidatesFall(r, today, false);
    match r.kind {
      case Once =>
      case Weekly =>
        if d >= today - 8 { WeeklyCandidate(r, today, false, d); } else { InWindowBehind(r, today, c); }
      case Monthly =>
        var base := MonthOf(today);
        if MonthOf(d) >= base - 13 {
          LaterDateNoEarlierMonth(d - 1, today);
          LaterDateNoEarlierMonth(d, DayAfter(MonthOf(d - 1)));
          MonthIsNext(MonthOf(d - 1));
          MonthlyCandidate(r, today, false, d);
        } else {
          MonthOfCandidate(r, today, false, c);
          LaterMonthLaterDate(d, c);
          DatesApart(r, d, c);
        }
    }
  }

  /** Of those from yesterday on, one not looked at is after all that are. */
  lemma Ahead(r: Rule, today: Date, d: Date, c: Date)
    requires r.Valid() && Falls(r, d) && d >= today - 1 && c in Candidates(r, today, true)
    ensures d in Candidates(r, today, true) ||
            (c < d && (r.kind == Monthly ==> c + 7 <= d) && (r.kind == Weekly ==> c <= today + 8))
  {
    CandidatesFall(r, today, true);
    match r.kind {
      case Once =>
      case Weekly =>
        if d <= today + 8 { WeeklyCandidate(r, today, true, d); } else { InWindow(r, today, c); }
      case Monthly =>
        var base, from := Base(r, today, true), From(r, today);
        if MonthOf(d) <= base + 13 {
          LaterDateNoEarlierMonth(from, d + 1);
          LaterDateNoEarlierMonth(d + 1, DayAfter(MonthOf(d)));
          MonthIsNext(MonthOf(d));
          MonthlyCandidate(r, today, true, d);
        } else {
          MonthOfCandidate(r, today, true, c);
          LaterMonthLaterDate(c, d);
          DatesApart(r, c, d);
        }
    }
  }

  lemma InWindowBehind(r: Rule, today: Date, c: Date)
    requires r.kind == Weekly && c in Candidates(r, today, false)
    ensures today - 8 <= c <= today + 1
  {
    hide Matches;
  }

  lemma MonthOfCandidate(r: Rule, today: Date, ahead: bool, c: Date)
    requires r.Valid() && r.kind == Monthly && c in Candidates(r, today, ahead)
    ensures var base := Base(r, today, ahead);
            if ahead then base - 1 <= MonthOf(c) <= base + 13 else base - 13 <= MonthOf(c) <= base + 1
  {
    hide DateIn, MonthOf;
    var months := MonthsAround(Base(r, today, ahead), ahead);
    assert c in FilterMap(m => DateIn(r, m), months);
    var i :| 0 <= i < |months| && DateIn(r, months[i]) == Some(c);
    DateIsInItsMonth(r, months[i], c);
  }

  lemma DateIsInItsMonth(r: Rule, m: Month, c: Date)
    requires r.Valid() && r.kind == Monthly && DateIn(r, m) == Some(c)
    ensures MonthOf(c) == m
  {
    InMonthIsInIt(r, m);
  }

  /** Whatever latest start is found is the latest of all, even where others looked at have none. */
  lemma FoundIsLatest(r: Rule, z: Zone, t: Instant)
    requires r.Valid() && z.Valid() && z.Steady(t) && LatestAtOrBefore(r, z, t).Some?
    ensures IsLatest(r, z, t, LatestAtOrBefore(r, z, t))
  {
    var today := z.LocalDate(t);
    var c :| c in Candidates(r, today, false) && StartOn(r, z, c) == LatestAtOrBefore(r, z, t);
    CandidatesFall(r, today, false);
    SteadyIsSteadyAround(z, t);
    forall u | IsStart(r, z, u) && u <= t ensures u <= LatestAtOrBefore(r, z, t).value {
      var d :| Falls(r, d) && StartOn(r, z, d) == Some(u);
      DaysAwayFrom(r, z, d, t);
      Behind(r, today, d, c);
      hide Candidates, Falls, StartOn, z.Steady, z.Consistent;
      if d in Candidates(r, today, false) {
        assert u in StartsAround(r, z, t, false);
      } else if d + 7 <= c {
        StartsAscend(r, z, d, c);
      } else {
        RecentInOrder(r, z, t, d, c);
      }
    }
  }

  lemma RecentInOrder(r: Rule, z: Zone, t: Instant, d: Date, c: Date)
    requires r.Valid() && z.Valid() && z.Steady(t) && d < c && z.LocalDate(t) - 8 <= c
    requires StartOn(r, z, d).Some? && StartOn(r, z, c).Some? && StartOn(r, z, d).value <= t
    ensures StartOn(r, z, d).value < StartOn(r, z, c).value
  {
    hide StartOn, z.Steady, z.Consistent;
    StartIsNearItsDate(r, z, c);
    assert z.offset(t) - z.offset(StartOn(r, z, c).value) >= -2 * DAY;
    StartsInOrder(r, z, t, d, c);
  }

  lemma ComingInOrder(r: Rule, z: Zone, t: Instant, c: Date, d: Date)
    requires r.Valid() && z.Valid() && z.Steady(t) && c < d && c <= z.LocalDate(t) + 8
    requires StartOn(r, z, d).Some? && StartOn(r, z, c).Some? && StartOn(r, z, d).value > t
    ensures StartOn(r, z, c).value < StartOn(r, z, d).value
  {
    hide StartOn, z.Steady, z.Consistent;
    StartIsNearItsDate(r, z, c);
    assert z.offset(t) - z.offset(StartOn(r, z, c).value) <= 2 * DAY;
    StartsInOrder(r, z, t, c, d);
  }

  /** And whatever next start is found is the next of all. */
  lemma FoundIsNext(r: Rule, z: Zone, t: Instant)
    requires r.Valid() && z.Valid() && z.Steady(t) && NextAfter(r, z, t).Some?
    ensures IsNext(r, z, t, NextAfter(r, z, t))
  {
    var today := z.LocalDate(t);
    var c :| c in Candidates(r, today, true) && StartOn(r, z, c) == NextAfter(r, z, t);
    CandidatesFall(r, today, true);
    SteadyIsSteadyAround(z, t);
    forall u | IsStart(r, z, u) && u > t ensures NextAfter(r, z, t).value <= u {
      var d :| Falls(r, d) && StartOn(r, z, d) == Some(u);
      DaysAwayFrom(r, z, d, t);
      Ahead(r, today, d, c);
      hide Candidates, Falls, StartOn, z.Steady, z.Consistent;
      if d in Candidates(r, today, true) {
        assert u in StartsAround(r, z, t, true);
      } else if c + 7 <= d {
        StartsAscend(r, z, c, d);
      } else {
        ComingInOrder(r, z, t, c, d);
      }
    }
  }

  /** So the search for the latest is exact for any rule, exactly if one of the dates it looks
      at has started, or no date has. */
  lemma LatestIsExactWhen(r: Rule, z: Zone, t: Instant)
    requires r.Valid() && z.Valid() && z.Steady(t)
    ensures IsLatest(r, z, t, LatestAtOrBefore(r, z, t)) <==>
            (|| (exists c :: c in Candidates(r, z.LocalDate(t), false) && HasStarted(r, z, t, c))
             || (forall d :: Falls(r, d) ==> !HasStarted(r, z, t, d)))
  {
    hide *;
    LatestIsFoundWhen(r, z, t);
    if LatestAtOrBefore(r, z, t).Some? { FoundIsLatest(r, z, t); } else { NoneIsLatestWhen(r, z, t); }
  }

  lemma LatestIsFoundWhen(r: Rule, z: Zone, t: Instant)
    ensures LatestAtOrBefore(r, z, t).Some? <==>
            exists c :: c in Candidates(r, z.LocalDate(t), false) && HasStarted(r, z, t, c)
  {
    hide Candidates, StartOn;
    if c :| c in Candidates(r, z.LocalDate(t), false) && HasStarted(r, z, t, c) {
      assert StartOn(r, z, c).value in StartsAround(r, z, t, false);
    }
  }

  lemma NoneIsLatestWhen(r: Rule, z: Zone, t: Instant)
    ensures IsLatest(r, z, t, None) <==> forall d :: Falls(r, d) ==> !HasStarted(r, z, t, d)
  {
    hide Falls, StartOn;
    if d :| Falls(r, d) && HasStarted(r, z, t, d) { assert IsStart(r, z, StartOn(r, z, d).value); }
  }

  /** And the one for the next, exactly if one it looks at has a start to come, or no date has. */
  lemma NextIsExactWhen(r: Rule, z: Zone, t: Instant)
    requires r.Valid() && z.Valid() && z.Steady(t)
    ensures IsNext(r, z, t, NextAfter(r, z, t)) <==>
            (|| (exists c :: c in Candidates(r, z.LocalDate(t), true) && IsToStart(r, z, t, c))
             || (forall d :: Falls(r, d) ==> !IsToStart(r, z, t, d)))
  {
    hide *;
    NextIsFoundWhen(r, z, t);
    if NextAfter(r, z, t).Some? { FoundIsNext(r, z, t); } else { NoneIsNextIf(r, z, t); }
  }

  lemma NextIsFoundWhen(r: Rule, z: Zone, t: Instant)
    ensures NextAfter(r, z, t).Some? <==>
            exists c :: c in Candidates(r, z.LocalDate(t), true) && IsToStart(r, z, t, c)
  {
    hide Candidates, StartOn;
    if c :| c in Candidates(r, z.LocalDate(t), true) && IsToStart(r, z, t, c) {
      assert StartOn(r, z, c).value in StartsAround(r, z, t, true);
    }
  }

  lemma NoneIsNextIf(r: Rule, z: Zone, t: Instant)
    ensures IsNext(r, z, t, None) <==> forall d :: Falls(r, d) ==> !IsToStart(r, z, t, d)
  {
    hide Falls, StartOn;
    if d :| Falls(r, d) && IsToStart(r, z, t, d) { assert IsStart(r, z, StartOn(r, z, d).value); }
  }

  predicate HasStarted(r: Rule, z: Zone, t: Instant, d: Date) {
    StartOn(r, z, d).Some? && StartOn(r, z, d).value <= t
  }

  predicate IsToStart(r: Rule, z: Zone, t: Instant, d: Date) {
    StartOn(r, z, d).Some? && StartOn(r, z, d).value > t
  }

  /** What is found never goes back, whatever is missed in between. */
  lemma FoundNeverGoesBack(r: Rule, z: Zone, t: Instant, u: Instant)
    requires r.Valid() && z.Valid() && z.Steady(u) && t <= u
    requires LatestAtOrBefore(r, z, t).Some? && LatestAtOrBefore(r, z, u).Some?
    ensures LatestAtOrBefore(r, z, t).value <= LatestAtOrBefore(r, z, u).value
  {
    FoundIsLatest(r, z, u);
    FoundIsAStart(r, z, t);
  }

  lemma FoundIsAStart(r: Rule, z: Zone, t: Instant)
    requires r.Valid() && LatestAtOrBefore(r, z, t).Some?
    ensures IsStart(r, z, LatestAtOrBefore(r, z, t).value) && LatestAtOrBefore(r, z, t).value <= t
  {
    CandidatesFall(r, z.LocalDate(t), false);
    hide Candidates, Falls, StartOn;
  }

  // ----- clocks that skip more than three hours -----

  /** A schedule on one day of the week. */
  ghost predicate OneDay(r: Rule, w: int) { r.Valid() && r.kind == Weekly && r.weekdays == {w} }

  /** In any zone: if a week's date has no start, and the ones before and after it do, the
      search from the one before doesn't find the one after. */
  lemma SkippedWeekIsMissed(r: Rule, z: Zone, d: Date, a: Instant, b: Instant)
    requires OneDay(r, Weekday(d)) && r.Valid() && z.Consistent() && a < b
    requires StartOn(r, z, d - 7) == Some(a) && StartOn(r, z, d) == None && StartOn(r, z, d + 7) == Some(b)
    ensures IsStart(r, z, b) && NextAfter(r, z, a) == None
  {
    hide *;
    LaterWeekIsStart(r, z, d, b);
    DateOfStart(r, z, d - 7);
    forall c | c in Candidates(r, z.LocalDate(a), true) && StartOn(r, z, c).Some? ensures StartOn(r, z, c).value <= a {
      OneDayCandidate(r, z.LocalDate(a), c, d);
      assert c == d - 7;
    }
    NoneLater(r, z, a);
  }

  /** Nor, from two days after the skipped date to five, does the search back find the one before. */
  lemma SkippedWeekIsMissedBehind(r: Rule, z: Zone, d: Date, t: Instant, a: Instant)
    requires OneDay(r, Weekday(d)) && r.Valid() && z.Consistent() && a <= t
    requires StartOn(r, z, d - 7) == Some(a) && StartOn(r, z, d) == None && d + 2 <= z.LocalDate(t) <= d + 5
    ensures IsStart(r, z, a) && a <= t && LatestAtOrBefore(r, z, t) == None
  {
    hide *;
    EarlierWeekIsStart(r, z, d, a);
    forall c | c in Candidates(r, z.LocalDate(t), false) ensures c == d {
      OneDayCandidateBehind(r, z.LocalDate(t), c, d);
    }
    NoneEarlier(r, z, t);
  }

  lemma EarlierWeekIsStart(r: Rule, z: Zone, d: Date, a: Instant)
    requires OneDay(r, Weekday(d)) && StartOn(r, z, d - 7) == Some(a)
    ensures IsStart(r, z, a)
  {
    OneDayFalls(r, d);
  }

  lemma OneDayCandidateBehind(r: Rule, today: Date, c: Date, d: Date)
    requires OneDay(r, Weekday(d)) && r.Valid() && c in Candidates(r, today, false)
    ensures today - 8 <= c <= today + 1 && (c - d) % 7 == 0
  {
    assert Falls(r, c) && r.kind == Weekly by { CandidatesFall(r, today, false); }
    SameWeekday(r, d, c);
    hide OneDay, r.Valid, Falls, CountWeekday, TrailingZeros;
    InWindowBehind(r, today, c);
    WeeksApart(d, c);
  }

  lemma NoneEarlier(r: Rule, z: Zone, t: Instant)
    requires forall c :: c in Candidates(r, z.LocalDate(t), false) && StartOn(r, z, c).Some? ==>
               StartOn(r, z, c).value > t
    ensures LatestAtOrBefore(r, z, t) == None
  {
    hide Candidates, StartOn;
  }

  lemma LaterWeekIsStart(r: Rule, z: Zone, d: Date, b: Instant)
    requires OneDay(r, Weekday(d)) && StartOn(r, z, d + 7) == Some(b)
    ensures IsStart(r, z, b)
  {
    hide StartOn;
    assert Weekday(d + 7) == Weekday(d);
    assert Falls(r, d + 7);
  }

  lemma DateOfStart(r: Rule, z: Zone, d: Date)
    requires r.Valid() && z.Consistent() && StartOn(r, z, d).Some?
    ensures d <= z.LocalDate(StartOn(r, z, d).value) <= d + 1
  {
    hide StartOn, z.Consistent, r.Valid;
    StartIsNearItsDate(r, z, d);
  }

  lemma NoneLater(r: Rule, z: Zone, t: Instant)
    requires forall c :: c in Candidates(r, z.LocalDate(t), true) && StartOn(r, z, c).Some? ==>
               StartOn(r, z, c).value <= t
    ensures NextAfter(r, z, t) == None
  {
    hide Candidates, StartOn;
  }

  lemma SomeLater(r: Rule, z: Zone, t: Instant, c: Date)
    requires c in Candidates(r, z.LocalDate(t), true) && StartOn(r, z, c).Some? && StartOn(r, z, c).value > t
    ensures NextAfter(r, z, t).Some? && NextAfter(r, z, t).value <= StartOn(r, z, c).value
    ensures exists d :: d in Candidates(r, z.LocalDate(t), true) && StartOn(r, z, d) == NextAfter(r, z, t)
    ensures NextAfter(r, z, t).value > t
  {
    hide Candidates, StartOn;
    assert StartOn(r, z, c).value in StartsAround(r, z, t, true);
  }

  lemma OneDayCandidate(r: Rule, today: Date, c: Date, d: Date)
    requires OneDay(r, Weekday(d)) && r.Valid() && c in Candidates(r, today, true)
    ensures today - 1 <= c <= today + 8 && (c - d) % 7 == 0
  {
    assert Falls(r, c) && r.kind == Weekly by { CandidatesFall(r, today, true); }
    SameWeekday(r, d, c);
    hide OneDay, r.Valid, Falls, CountWeekday, TrailingZeros;
    InWindow(r, today, c);
    WeeksApart(d, c);
  }

  lemma InWindow(r: Rule, today: Date, c: Date)
    requires r.kind == Weekly && c in Candidates(r, today, true)
    ensures today - 1 <= c <= today + 8
  {
    hide Matches;
  }

  /** The search is exact for a schedule on one day of the week exactly if the week's date `c`
      has a start, or the one before it starts later than `t`, or no date after it has one. */
  lemma WeeklyIsNextWhen(r: Rule, z: Zone, t: Instant, c: Date)
    requires OneDay(r, Weekday(c)) && z.Valid() && z.SteadyAround(t)
    requires z.LocalDate(t) + 2 <= c <= z.LocalDate(t) + 8
    ensures IsNext(r, z, t, NextAfter(r, z, t)) <==>
            (|| StartOn(r, z, c).Some?
             || (StartOn(r, z, c - 7).Some? && StartOn(r, z, c - 7).value > t)
             || (forall e :: e > c && Falls(r, e) ==> StartOn(r, z, e).None?))
  {
    hide *;
    OneDayDates(r, z, t, c);
    forall e | Falls(r, e) && StartOn(r, z, e).Some? ensures InOrder(r, z, t, c, e) { OneDayOrder(r, z, t, c, e); }
    if StartOn(r, z, c - 7).Some? && StartOn(r, z, c - 7).value > t {
      SomeLater(r, z, t, c - 7);
      FirstOfTwo(r, z, t, c);
    } else if StartOn(r, z, c).Some? {
      assert StartOn(r, z, c).value > t by { IsLater(r, z, t, c); }
      SomeLater(r, z, t, c);
      FirstOfTwo(r, z, t, c);
    } else {
      NoneLater(r, z, t);
      NoneIsNextWhen(r, z, t, c);
    }
  }

  lemma IsLater(r: Rule, z: Zone, t: Instant, c: Date)
    requires StartOn(r, z, c).Some? && InOrder(r, z, t, c, c)
    ensures StartOn(r, z, c).value > t
  {
  }

  lemma FirstOfTwo(r: Rule, z: Zone, t: Instant, c: Date)
    requires forall e :: Falls(r, e) && StartOn(r, z, e).Some? ==> InOrder(r, z, t, c, e)
    requires Falls(r, c) && Falls(r, c - 7) && NextAfter(r, z, t).Some? && NextAfter(r, z, t).value > t
    requires StartOn(r, z, c - 7).Some? && StartOn(r, z, c - 7).value > t ==>
               NextAfter(r, z, t).value <= StartOn(r, z, c - 7).value
    requires NextAfter(r, z, t) == StartOn(r, z, c) || NextAfter(r, z, t) == StartOn(r, z, c - 7)
    requires StartOn(r, z, c).Some? && !(StartOn(r, z, c - 7).Some? && StartOn(r, z, c - 7).value > t) ==>
               NextAfter(r, z, t).value <= StartOn(r, z, c).value
    ensures IsNext(r, z, t, NextAfter(r, z, t))
  {
    hide StartOn, Falls, NextAfter;
  }

  lemma NoneIsNextWhen(r: Rule, z: Zone, t: Instant, c: Date)
    requires forall e :: Falls(r, e) && StartOn(r, z, e).Some? ==> InOrder(r, z, t, c, e)
    requires StartOn(r, z, c).None? && (StartOn(r, z, c - 7).Some? ==> StartOn(r, z, c - 7).value <= t)
    ensures IsNext(r, z, t, None) <==> forall e :: e > c && Falls(r, e) ==> StartOn(r, z, e).None?
  {
    hide StartOn, Falls;
    if e :| e > c && Falls(r, e) && StartOn(r, z, e).Some? {
      assert IsStart(r, z, StartOn(r, z, e).value);
    }
  }

  lemma SameWeekday(r: Rule, c: Date, e: Date)
    requires OneDay(r, Weekday(c)) && Falls(r, e)
    ensures Weekday(e) == Weekday(c)
  {
  }

  lemma WeeksApart(c: Date, e: Date)
    requires Weekday(e) == Weekday(c)
    ensures (e - c) % 7 == 0
    ensures (e > c - 7 ==> e >= c) && (e > c ==> e >= c + 7) && (e < c - 7 ==> e <= c - 14)
  {
  }

  /** Where a date's start is to those of `c` and the week's before it. */
  ghost predicate InOrder(r: Rule, z: Zone, t: Instant, c: Date, e: Date)
    requires StartOn(r, z, e).Some?
  {
    && (e > c - 7 ==> e >= c && StartOn(r, z, e).value > t)
    && (e < c - 7 ==> StartOn(r, z, e).value <= t)
    && (e > c && StartOn(r, z, c).Some? ==> StartOn(r, z, c).value < StartOn(r, z, e).value)
    && (e > c - 7 && StartOn(r, z, c - 7).Some? ==> StartOn(r, z, c - 7).value < StartOn(r, z, e).value)
  }

  lemma OneDayOrder(r: Rule, z: Zone, t: Instant, c: Date, e: Date)
    requires OneDay(r, Weekday(c)) && z.Valid() && z.SteadyAround(t)
    requires z.LocalDate(t) + 2 <= c <= z.LocalDate(t) + 8
    requires Falls(r, e) && StartOn(r, z, e).Some?
    ensures InOrder(r, z, t, c, e)
  {
    SameWeekday(r, c, e);
    WeeksApart(c, e);
    assert r.Valid();
    hide *;
    DaysAwayFrom(r, z, e, t);
    if e > c && StartOn(r, z, c).Some? { StartsAscend(r, z, c, e); }
    if e > c - 7 && StartOn(r, z, c - 7).Some? { StartsAscend(r, z, c - 7, e); }
    InOrderIf(r, z, t, c, e);
  }

  lemma InOrderIf(r: Rule, z: Zone, t: Instant, c: Date, e: Date)
    requires StartOn(r, z, e).Some?
    requires e > c - 7 ==> e >= c && StartOn(r, z, e).value > t
    requires e < c - 7 ==> StartOn(r, z, e).value <= t
    requires e > c && StartOn(r, z, c).Some? ==> StartOn(r, z, c).value < StartOn(r, z, e).value
    requires e > c - 7 && StartOn(r, z, c - 7).Some? ==> StartOn(r, z, c - 7).value < StartOn(r, z, e).value
    ensures InOrder(r, z, t, c, e)
  {
  }

  /** Of such a schedule's dates the search looks at `c` and the one before, if that starts after `t`. */
  lemma OneDayDates(r: Rule, z: Zone, t: Instant, c: Date)
    requires OneDay(r, Weekday(c)) && z.Valid() && z.SteadyAround(t)
    requires z.LocalDate(t) + 2 <= c <= z.LocalDate(t) + 8
    ensures Falls(r, c) && Falls(r, c - 7) && c in Candidates(r, z.LocalDate(t), true)
    ensures StartOn(r, z, c - 7).Some? && StartOn(r, z, c - 7).value > t ==>
              c - 7 in Candidates(r, z.LocalDate(t), true)
    ensures forall e :: e in Candidates(r, z.LocalDate(t), true) ==> e == c || e == c - 7
  {
    hide *;
    var today := z.LocalDate(t);
    OneDayFalls(r, c);
    WeeklyCandidate(r, today, true, c);
    forall e | e in Candidates(r, today, true) ensures e == c || e == c - 7 {
      OneDayCandidate(r, today, e, c);
    }
    if StartOn(r, z, c - 7).Some? {
      DaysAwayFrom(r, z, c - 7, t);
      if c - 7 >= today - 1 { WeeklyCandidate(r, today, true, c - 7); }
    }
  }

  lemma OneDayFalls(r: Rule, c: Date)
    requires OneDay(r, Weekday(c))
    ensures r.Valid() && r.kind == Weekly && Falls(r, c) && Falls(r, c - 7)
  {
    assert Weekday(c - 7) == Weekday(c);
  }

  /** Clocks that go from 10 hours behind UTC to 14 ahead, skipping local date `d` whole. */
  function DatelineZone(d: Date): Zone {
    Zone(t => if t < d * DAY + 10 * HOUR then -10 * HOUR else 14 * HOUR,
         local => if local < d * DAY then Single(local + 10 * HOUR)
                  else if local < (d + 1) * DAY then NoTime
                  else Single(local - 14 * HOUR))
  }

  lemma DatelineStarts(r: Rule, d: Date, e: Date)
    requires r.Valid() && r.start == 600
    ensures StartOn(r, DatelineZone(d), e) ==
            if e < d then Some(Naive(r, e) + 10 * HOUR)
            else if e == d then None
            else Some(Naive(r, e) - 14 * HOUR)
  {
    if e == d { FirstMinuteIsFirst(DatelineZone(d), Naive(r, d), 1); }
  }

  lemma DatelineIsConsistent(d: Date)
    ensures DatelineZone(d).Consistent()
  {
  }

  /** Such a zone is consistent, but a weekly schedule's next start is missed: the
      date in the window has no start, and the week after's is outside it. */
  lemma SkippedDateLosesNext(d: Date, r: Rule) returns (t: Instant, s: Instant)
    requires r == Rule(Weekly, None, {Weekday(d)}, None, None, 600, None)
    ensures r.Valid() && DatelineZone(d).Consistent()
    ensures IsStart(r, DatelineZone(d), s) && s > t
    ensures NextAfter(r, DatelineZone(d), t) == None
  {
    var z := DatelineZone(d);
    DatelineIsConsistent(d);
    t := Naive(r, d - 7) + 10 * HOUR;
    s := Naive(r, d + 7) - 14 * HOUR;
    DatelineStarts(r, d, d + 7);
    assert Weekday(d + 7) == Weekday(d);
    assert Falls(r, d + 7);
    DatelineSeesNone(r, d, t);
  }

  lemma DatelineSeesNone(r: Rule, d: Date, t: Instant)
    requires r == Rule(Weekly, None, {Weekday(d)}, None, None, 600, None) && t == Naive(r, d - 7) + 10 * HOUR
    ensures NextAfter(r, DatelineZone(d), t) == None
  {
    var z := DatelineZone(d);
    assert z.LocalDate(t) == d - 7;
    forall c | c in Candidates(r, d - 7, true)
      ensures StartOn(r, z, c).Some? ==> StartOn(r, z, c).value <= t
    {
      DatelineCandidates(r, d, c);
      DatelineStarts(r, d, c);
    }
  }

  lemma DatelineCandidates(r: Rule, d: Date, c: Date)
    requires r.Valid() && r.kind == Weekly && r.weekdays == {Weekday(d)} && c in Candidates(r, d - 7, true)
    ensures c == d || c == d - 7
  {
    CandidatesFall(r, d - 7, true);
    assert d - 8 <= c <= d + 1 && Weekday(c) == Weekday(d);
  }
}
