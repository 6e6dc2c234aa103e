/** The benchmark's driver: it measures what the search asks for, as long as it
    fits in memory, whatever the measurements say. */
module Benchmark {
  import opened Wrappers
  import opened Search
  import opened Memory

  const QUICK_MAX_CPU_PCT: real := 85.0
  const QUICK_FAIL_FACTOR: real := 4.0
  const MEASURE_ATTEMPTS: nat := 2

  /** What one measured window showed. */
  datatype Window = Window(drop: real, cpu: real, passed: bool)

  /** What the machine does, by step (and window of it, the quick one first): what
      windows show, whether memory is short with so many feeds running, how a step
      is broken off, what memory is available after one, whether a disk is nearly full. */
  datatype Machine = Machine(window: (nat, nat) -> Window, short: (nat, nat) -> bool,
                             breaks: nat -> Option<Interrupt>, available: nat -> nat,
                             diskLow: nat -> bool, threshold: real)

  datatype Interrupt = ShortOfMemory | Stopped

  // ----- one step -----

  /** Full windows from attempt `k` on: whether one keeps up. */
  function Attempts(m: Machine, step: nat, k: nat): Option<bool>
    decreases MEASURE_ATTEMPTS + 1 - k
  {
    if k > MEASURE_ATTEMPTS then None
    else if m.window(step, k).passed then Some(true)
    else Attempts(m, step, k + 1)
  }

  /** The verdict of a step on its windows: `Some` if it passes, holding whether in full, and none
      if it fails. A full step asks for its full windows at once, a quick one only between the bounds. */
  function Verdict(m: Machine, step: nat, full: bool): (v: Option<bool>)
    ensures full && v.Some? ==> v.value
  {
    var quick := m.window(step, 0);
    if !full && quick.drop <= m.threshold / 2.0 && quick.cpu < QUICK_MAX_CPU_PCT then Some(false)
    else if !full && quick.drop > m.threshold * QUICK_FAIL_FACTOR then None
    else Attempts(m, step, 1)
  }

  /** A quick window well clear of the limit. */
  predicate Clear(m: Machine, step: nat) {
    m.window(step, 0).drop <= m.threshold / 2.0 && m.window(step, 0).cpu < QUICK_MAX_CPU_PCT
  }

  /** One far over it. */
  predicate FarOver(m: Machine, step: nat) { m.window(step, 0).drop > m.threshold * QUICK_FAIL_FACTOR }

  /** One of two full windows keeps up. */
  predicate KeepsUp(m: Machine, step: nat) { m.window(step, 1).passed || m.window(step, 2).passed }

  /** What a verdict is: a quick pass just where a quick check is clear of the limit; otherwise a
      full pass just where one of two windows keeps up, and a failure where neither does; but a
      quick check far over it fails whatever they'd show. */
  lemma VerdictMeans(m: Machine, step: nat, full: bool)
    ensures Verdict(m, step, full) == Some(false) <==> !full && Clear(m, step)
    ensures Verdict(m, step, full) == Some(true) <==>
            KeepsUp(m, step) && (full || (!Clear(m, step) && !FarOver(m, step)))
    ensures Verdict(m, step, full) == None <==>
            if full then !KeepsUp(m, step) else !Clear(m, step) && (FarOver(m, step) || !KeepsUp(m, step))
  {
    assert Attempts(m, step, 3) == None;
    assert Attempts(m, step, 2) == if m.window(step, 2).passed then Some(true) else None;
    assert Attempts(m, step, 1) == if m.window(step, 1).passed then Some(true) else Attempts(m, step, 2);
  }

  /** Whether memory runs short while feeds are started, from `running` up to `n`. */
  predicate ShortWhileStarting(m: Machine, step: nat, running: nat, n: nat)
    decreases n - running
  {
    running < n && (m.short(step, running) || ShortWhileStarting(m, step, running + 1, n))
  }

  // ----- the run -----

  /** A count measured (or tried), and how it went: none if it didn't keep up. */
  datatype Entry = Entry(feeds: nat, full: bool, kept: Option<bool>)

  datatype Progress = Progress(search: State, feeds: nat, budget: Budget, log: seq<Entry>)

  datatype Turn = Continue(p: Progress) | Finished(sustained: nat, last: Progress) | Broken

  /** Whether more feeds than ever passed are wanted, but wouldn't fit. */
  predicate Blocked(p: Progress)
    requires p.search.Valid()
  {
    p.search.Next().Measure? && p.search.Next().feeds > p.search.Best()
    && p.budget.Fits().Some? && p.search.Next().feeds > p.budget.Fits().value
  }

  function CapToFit(p: Progress): Progress
    requires p.search.Valid() && Blocked(p)
  {
    p.(search := p.search.Cap(Max(p.budget.Fits().value, p.search.Best())))
  }

  /** Measure what the search wants next. */
  function Measured(m: Machine, p: Progress): Turn
    requires p.search.Valid() && p.search.Next().Measure?
  {
    var Measure(n, full) := p.search.Next();
    var step := |p.log|;
    if ShortWhileStarting(m, step, p.feeds, n) || m.breaks(step) == Some(ShortOfMemory) then
      var best := p.search.Best();
      Continue(Progress(p.search.Failed(n), if best < n then best else Minus(n, 1), p.budget,
                        p.log + [Entry(n, full, None)]))
    else if m.breaks(step) == Some(Stopped) then Broken
    else
      var kept := Verdict(m, step, full);
      var search := if kept.None? then p.search.Failed(n) else p.search.Passed(n, kept.value);
      Continue(Progress(if kept.Some? && m.diskLow(step) then search.Cap(n) else search, n,
                        p.budget.Observe(m.available(step), n), p.log + [Entry(n, full, kept)]))
  }

  /** One pass of the driver's loop. */
  function Pass(m: Machine, p: Progress): Turn
    requires p.search.Valid()
  {
    if p.search.Next().Done? then Finished(p.search.Next().sustained, p)
    else if Blocked(p) then Continue(CapToFit(p))
    else Measured(m, p)
  }

  // ----- what a run keeps -----

  predicate Kept(log: seq<Entry>, n: nat, full: bool) {
    exists i :: 0 <= i < |log| && log[i].feeds == n && log[i].kept.Some? && (full ==> log[i].kept.value)
  }

  predicate Dropped(log: seq<Entry>, n: nat) {
    exists i :: 0 <= i < |log| && log[i].feeds == n && log[i].kept.None?
  }

  /** The search knows what was measured, and enough feeds run to go back to the best count. */
  ghost predicate Sound(p: Progress) {
    p.search.Valid() && p.search.Best() <= p.feeds && Logged(p.search, p.log)
  }

  lemma KeptGrows(log: seq<Entry>, e: Entry, n: nat, full: bool)
    ensures Kept(log, n, full) ==> Kept(log + [e], n, full)
    ensures Dropped(log, n) ==> Dropped(log + [e], n)
    ensures e.feeds == n && e.kept == Some(full) ==> Kept(log + [e], n, full)
    ensures e.feeds == n && e.kept.None? ==> Dropped(log + [e], n)
  {
    var longer := log + [e];
    if Kept(log, n, full) {
      var i :| 0 <= i < |log| && log[i].feeds == n && log[i].kept.Some? && (full ==> log[i].kept.value);
      assert longer[i] == log[i];
    }
    if Dropped(log, n) {
      var i :| 0 <= i < |log| && log[i].feeds == n && log[i].kept.None?;
      assert longer[i] == log[i];
    }
    assert longer[|log|] == e;
  }

  /** A measurement, short memory included, leaves the search sound and with less to find out. */
  lemma MeasuredIsSound(m: Machine, p: Progress)
    requires Sound(p) && p.search.Next().Measure? && Measured(m, p).Continue?
    ensures var q := Measured(m, p).p;
            && Sound(q) && Narrower(q.search, p.search) && q.search.limit <= p.search.limit
            && |q.log| == |p.log| + 1 && q.log[..|p.log|] == p.log
  {
    hide Verdict, ShortWhileStarting, Logged, p.budget.Observe;
    var q := Measured(m, p).p;
    var Measure(n, full) := p.search.Next();
    var e := q.log[|p.log|];
    NextIsUseful(p.search);
    MeasuringNarrows(p.search, e.kept);
    if e.kept.Some? {
      PassedIsValid(p.search, n, e.kept.value);
      CapIsValid(p.search.Passed(n, e.kept.value), n);
      PassedIsLogged(p, e);
      CapIsLogged(p.search.Passed(n, e.kept.value), q.log, n);
    } else {
      FailedIsValid(p.search, n);
      if p.search.Best() < n { FailedKeepsBest(p.search, n); }
      FailedIsLogged(p, e);
    }
  }

  /** The search's passes and failure are in the log, and nothing lower failed. */
  ghost predicate Logged(s: State, log: seq<Entry>) {
    && (forall n :: n in s.passes ==> Kept(log, n, s.passes[n]))
    && (s.fail.Some? ==> Dropped(log, s.fail.value))
    && (forall i :: 0 <= i < |log| && log[i].kept.None? ==> s.fail.Some? && s.fail.value <= log[i].feeds)
  }

  lemma CapIsLogged(s: State, log: seq<Entry>, n: nat)
    requires Logged(s, log)
    ensures Logged(s.Cap(n), log)
  {
  }

  lemma PassedIsLogged(p: Progress, e: Entry)
    requires Logged(p.search, p.log) && e.kept.Some?
    ensures Logged(p.search.Passed(e.feeds, e.kept.value), p.log + [e])
  {
    var s, log := p.search.Passed(e.feeds, e.kept.value), p.log + [e];
    forall k | k in s.passes ensures Kept(log, k, s.passes[k]) {
      KeptGrows(p.log, e, k, s.passes[k]);
    }
    if s.fail.Some? { KeptGrows(p.log, e, s.fail.value, false); }
  }

  lemma FailedIsLogged(p: Progress, e: Entry)
    requires Logged(p.search, p.log) && e.kept.None?
    ensures Logged(p.search.Failed(e.feeds), p.log + [e])
  {
    var s, log := p.search.Failed(e.feeds), p.log + [e];
    forall k | k in s.passes ensures Kept(log, k, s.passes[k]) {
      KeptGrows(p.log, e, k, s.passes[k]);
    }
    KeptGrows(p.log, e, s.fail.value, false);
  }

  /** One pass keeps all that, unless it's blocked after a failure: then nothing but the cap changes. */
  lemma PassIsSound(m: Machine, p: Progress)
    requires Sound(p) && Pass(m, p).Continue?
    ensures var q := Pass(m, p).p;
            && Sound(q) && q.search.limit <= p.search.limit && Ceiling(q.search) <= Ceiling(p.search)
            && (!Stalled(p) ==> Narrower(q.search, p.search))
            && (Stalled(p) ==> Stalled(q) && q.log == p.log)
  {
    if Blocked(p) {
      CapNarrowsUnlessFailed(p.search, Max(p.budget.Fits().value, p.search.Best()));
      CapIsValid(p.search, Max(p.budget.Fits().value, p.search.Best()));
    } else {
      MeasuredIsSound(m, p);
    }
  }

  /** Blocked by memory once a count has failed. */
  ghost predicate Stalled(p: Progress) {
    p.search.Valid() && p.search.fail.Some? && Blocked(p)
  }

  // ----- whole runs -----

  /** Sound, and looking no higher. */
  ghost predicate Below(q: Progress, p: Progress) {
    Sound(q) && q.search.limit <= p.search.limit && Ceiling(q.search) <= Ceiling(p.search)
  }

  /** The loop's `k` first passes. */
  ghost function Run(m: Machine, p: Progress, k: nat): Turn
    requires Sound(p)
    ensures Run(m, p, k).Continue? ==> Below(Run(m, p, k).p, p)
    ensures Run(m, p, k).Finished? ==>
              var last := Run(m, p, k).last;
              Below(last, p) && last.search.Next() == Done(Run(m, p, k).sustained)
  {
    if k == 0 then Continue(p)
    else
      match Run(m, p, k - 1)
      case Continue(q) =>
        if Pass(m, q).Continue? then PassIsSound(m, q); Pass(m, q) else Pass(m, q)
      case ended => ended
  }

  ghost predicate Ends(m: Machine, p: Progress)
    requires Sound(p)
  {
    exists k: nat :: !Run(m, p, k).Continue?
  }

  ghost predicate Stalls(m: Machine, p: Progress)
    requires Sound(p)
  {
    exists k: nat :: Run(m, p, k).Continue? && Stalled(Run(m, p, k).p)
  }

  lemma StalledStays(m: Machine, p: Progress)
    requires Sound(p) && Stalled(p)
    ensures Pass(m, p).Continue? && Stalled(Pass(m, p).p)
  {
    hide Sound;
    PassIsSound(m, p);
  }

  lemma {:induction false} StalledForGood(m: Machine, p: Progress, k: nat, j: nat)
    requires Sound(p) && Run(m, p, k).Continue? && Stalled(Run(m, p, k).p)
    ensures Run(m, p, k + j).Continue? && Stalled(Run(m, p, k + j).p)
  {
    hide Pass, Sound, Stalled;
    if j > 0 {
      StalledForGood(m, p, k, j - 1);
      StalledStays(m, Run(m, p, k + j - 1).p);
    }
  }

  lemma {:induction false} EndedForGood(m: Machine, p: Progress, k: nat, j: nat)
    requires Sound(p) && !Run(m, p, k).Continue?
    ensures Run(m, p, k + j) == Run(m, p, k)
  {
    hide Pass, Sound;
    if j > 0 { EndedForGood(m, p, k, j - 1); }
  }

  lemma {:induction false} EndsUnlessStalled(m: Machine, p: Progress, k: nat)
    requires Sound(p) && !Stalls(m, p) && Run(m, p, k).Continue?
    ensures Ends(m, p)
    decreases Ceiling(Run(m, p, k).p.search), Ceiling(Run(m, p, k).p.search) - Run(m, p, k).p.search.Best(),
              if Confirmed(Run(m, p, k).p.search) then 0 else 1
  {
    hide Pass, Stalled;
    var q := Run(m, p, k).p;
    assert !Stalled(q);
    if Run(m, p, k + 1).Continue? {
      assert Run(m, p, k + 1) == Pass(m, q);
      PassIsSound(m, q);
      EndsUnlessStalled(m, p, k + 1);
    }
  }

  /** Whatever is measured, the driver's loop ends exactly when it's never blocked
      by memory after a failure. */
  lemma EndsIffNeverStalled(m: Machine, p: Progress)
    requires Sound(p)
    ensures Ends(m, p) <==> !Stalls(m, p)
  {
    hide Pass, Sound, Stalled;
    if Stalls(m, p) && Ends(m, p) {
      var k: nat :| Run(m, p, k).Continue? && Stalled(Run(m, p, k).p);
      var j: nat :| !Run(m, p, j).Continue?;
      if k <= j { StalledForGood(m, p, k, j - k); } else { EndedForGood(m, p, j, k - j); }
    }
    if !Stalls(m, p) { EndsUnlessStalled(m, p, 0); }
  }

  /** However long the loop goes on, no more feeds fit than did. */
  lemma {:induction false} FitsNeverGrowsOverARun(m: Machine, p: Progress, k: nat)
    requires Sound(p) && p.budget.Fits().Some? && Run(m, p, k).Continue?
    ensures var fits := Run(m, p, k).p.budget.Fits(); fits.Some? && fits.value <= p.budget.Fits().value
  {
    hide Pass, Logged;
    if k > 0 {
      FitsNeverGrowsOverARun(m, p, k - 1);
      PassFitsNoMore(m, Run(m, p, k - 1).p);
    }
  }

  lemma PassFitsNoMore(m: Machine, q: Progress)
    requires Sound(q) && q.budget.Fits().Some? && Pass(m, q).Continue?
    ensures var fits := Pass(m, q).p.budget.Fits(); fits.Some? && fits.value <= q.budget.Fits().value
  {
    hide Logged, q.budget.Fits;
    if !Blocked(q) { FitsNeverGrowsIfAny(q.budget, m.available(|q.log|), q.search.Next().feeds); }
  }

  /** After every step that the run measures, feeds took at most `most` each on average. */
  ghost predicate TakesAtMost(m: Machine, p: Progress, most: nat) {
    Sound(p) && forall k: nat :: Run(m, p, k).Continue? ==> StepTakesAtMost(m, Run(m, p, k).p, most)
  }

  /** If more feeds are measured next they take at most `most` each on average. */
  ghost predicate StepTakesAtMost(m: Machine, q: Progress, most: nat)
    requires Sound(q)
  {
    q.search.Next().Measure? && !Blocked(q) ==>
      (NextIsUseful(q.search);
       Divide(Minus(q.budget.baseline, m.available(|q.log|)), q.search.Next().feeds) <= most)
  }

  lemma {:induction false} MemoryStaysKnown(m: Machine, p: Progress, k: nat, most: nat)
    requires Sound(p) && TakesAtMost(m, p, most) && p.budget.perFeed <= most
    requires Run(m, p, k).Continue?
    ensures var b := Run(m, p, k).p.budget;
            b.baseline == p.budget.baseline && b.floor == p.budget.floor && b.perFeed <= most
  {
    hide Pass, Logged, StepTakesAtMost;
    if k > 0 {
      MemoryStaysKnown(m, p, k - 1, most);
      PassObserves(m, Run(m, p, k - 1).p, most);
    }
  }

  lemma PassObserves(m: Machine, q: Progress, most: nat)
    requires Sound(q) && StepTakesAtMost(m, q, most) && q.budget.perFeed <= most && Pass(m, q).Continue?
    ensures var b := Pass(m, q).p.budget;
            b.baseline == q.budget.baseline && b.floor == q.budget.floor && b.perFeed <= most
  {
  }

  /** Where there's room for the limit's worth of the greediest feeds it measures, the loop ends. */
  lemma RoomyMachineEnds(m: Machine, limit: nat, budget: Budget, most: nat)
    requires TakesAtMost(m, Begin(limit, budget), most) && budget.perFeed <= most
    requires 5 * (most * Start(limit).limit) <= 4 * budget.Room() && Start(limit).limit <= U32_MAX
    ensures Sound(Begin(limit, budget)) && Ends(m, Begin(limit, budget))
  {
    var p := Begin(limit, budget);
    forall k: nat | Run(m, p, k).Continue?
      ensures !Stalled(Run(m, p, k).p)
    {
      MemoryStaysKnown(m, p, k, most);
      RoomyIsNotBlocked(Run(m, p, k).p, Start(limit).limit, most);
    }
    EndsIffNeverStalled(m, p);
  }

  lemma RoomyIsNotBlocked(q: Progress, limit: nat, most: nat)
    requires q.search.Valid() && Ceiling(q.search) <= limit + 1 && q.budget.perFeed <= most
    requires 5 * (most * limit) <= 4 * q.budget.Room() && limit <= U32_MAX
    ensures !Blocked(q)
  {
    if q.search.Next().Measure? && q.budget.Fits().Some? {
      NextIsUseful(q.search);
      RoomForAll(q.budget.Room(), q.budget.perFeed, most, limit);
    }
  }

  lemma RoomForAll(room: nat, each: nat, most: nat, limit: nat)
    requires 0 < each <= most && 5 * (most * limit) <= 4 * room
    ensures Divide(4 * room, 5 * each) >= limit
  {
    var d, fit := 5 * each, Divide(4 * room, 5 * each);
    Scale(limit, each, most);
    assert d * limit == 5 * (each * limit);
    if fit < limit { Scale(d, fit + 1, limit); }
  }

  /** A machine of little memory. With sixteen feeds frames drop; then, with twelve, feeds take
      twice as much as they did, and all that may be taken. */
  function GreedyMachine(): Machine {
    Machine((step, _) => if step == 4 then Window(100.0, 10.0, false) else Window(0.0, 10.0, true),
            (_, _) => false, _ => None, step => MIN_FREE_MEMORY + GreedyRoom(step), _ => false, 0.5)
  }

  function GreedyRoom(step: nat): nat {
    if step == 0 then 920 else if step == 1 then 880 else if step == 2 then 800 else if step == 3 then 640
    else if step == 4 then 320 else 0
  }

  function GreedyStart(total: nat): Progress { Begin(16, New(total, MIN_FREE_MEMORY + 960)) }

  /** So much memory that no more than the least is kept free. */
  const MOST_TOTAL: nat := MIN_FREE_MEMORY_SHARE * MIN_FREE_MEMORY

  /** Memory can block a run after its first failure, and then for good, though it never runs
      short: twelve feeds pass, but by what they took only nine fit; fourteen is asked for
      next, and asked for again whatever the cap. */
  lemma MemoryCanBlockForGood(total: nat)
    requires total <= MOST_TOTAL
    ensures Sound(GreedyStart(total))
    ensures forall step :: !GreedyStart(total).budget.Short(GreedyMachine().available(step))
    ensures Stalls(GreedyMachine(), GreedyStart(total)) && !Ends(GreedyMachine(), GreedyStart(total))
  {
    BeginIsSound(16, New(total, MIN_FREE_MEMORY + 960));
    var p := GreedyStalled(total);
    assert Stalled(p);
    EndsIffNeverStalled(GreedyMachine(), GreedyStart(total));
  }

  lemma GreedyStalled(total: nat) returns (p: Progress)
    requires total <= MOST_TOTAL
    ensures Sound(GreedyStart(total)) && Run(GreedyMachine(), GreedyStart(total), 6) == Continue(p) && Stalled(p)
  {
    var m, p0 := GreedyMachine(), GreedyStart(total);
    BeginIsSound(16, New(total, MIN_FREE_MEMORY + 960));
    var p1 := GreedyDoubles(p0, 1);
    var p2 := GreedyDoubles(p1, 2);
    var p3 := GreedyDoubles(p2, 4);
    var p4 := GreedyDoubles(p3, 8);
    var p5 := GreedyFails(p4);
    p := GreedyPasses(p5);
    GreedyIsBlocked(p);
    hide Pass, Sound, Stalled, GreedyStart, GreedyMachine;
    assert Run(m, p0, 1) == Continue(p1);
    assert Run(m, p0, 2) == Continue(p2);
    assert Run(m, p0, 3) == Continue(p3);
    assert Run(m, p0, 4) == Continue(p4);
    assert Run(m, p0, 5) == Continue(p5);
  }

  /** Where the greedy machine's run is with `n` feeds passed and no failure. */
  ghost predicate GreedyAt(p: Progress, n: nat) {
    && p.search.Valid() && p.search.limit == 16 && p.search.fail.None? && p.search.Best() == n && p.feeds == n
    && p.budget == Budget(MIN_FREE_MEMORY + 960, MIN_FREE_MEMORY, if n == 0 then 0 else 40)
    && |p.log| == (if n == 0 then 0 else if n == 1 then 1 else if n == 2 then 2 else if n == 4 then 3 else 4)
  }

  lemma GreedyDoubles(p: Progress, n: nat) returns (q: Progress)
    requires n in {1, 2, 4, 8} && GreedyAt(p, n / 2)
    ensures Pass(GreedyMachine(), p) == Continue(q) && GreedyAt(q, n)
  {
    assert p.search.Next() == Measure(n, false) && !Blocked(p);
    GreedyIsNotShort(|p.log|, p.feeds, n);
    PassedIsValid(p.search, n, false);
    q := Pass(GreedyMachine(), p).p;
  }

  lemma GreedyFails(p: Progress) returns (q: Progress)
    requires GreedyAt(p, 8)
    ensures Pass(GreedyMachine(), p) == Continue(q)
    ensures q.search.Valid() && q.search.fail == Some(16) && q.search.Best() == 8 && |q.log| == 5 && q.feeds == 16
    ensures q.budget == p.budget
  {
    assert p.search.Next() == Measure(16, false) && !Blocked(p);
    GreedyIsNotShort(|p.log|, p.feeds, 16);
    FailedIsValid(p.search, 16);
    FailedKeepsBest(p.search, 16);
    q := Pass(GreedyMachine(), p).p;
  }

  lemma GreedyPasses(p: Progress) returns (q: Progress)
    requires p.search.Valid() && p.search.fail == Some(16) && p.search.Best() == 8 && |p.log| == 5 && p.feeds == 16
    requires p.budget == Budget(MIN_FREE_MEMORY + 960, MIN_FREE_MEMORY, 40)
    ensures Pass(GreedyMachine(), p) == Continue(q)
    ensures q.search.Valid() && q.search.fail == Some(16) && q.search.Best() == 12
    ensures q.budget == Budget(MIN_FREE_MEMORY + 960, MIN_FREE_MEMORY, 80)
  {
    assert p.search.Next() == Measure(12, true) && !Blocked(p);
    GreedyIsNotShort(|p.log|, p.feeds, 12);
    PassedIsValid(p.search, 12, true);
    q := Pass(GreedyMachine(), p).p;
  }

  lemma {:induction false} GreedyIsNotShort(step: nat, running: nat, n: nat)
    ensures !ShortWhileStarting(GreedyMachine(), step, running, n)
    decreases n - running
  {
    if running < n { GreedyIsNotShort(step, running + 1, n); }
  }

  lemma GreedyIsBlocked(p: Progress)
    requires p.search.Valid() && p.search.fail == Some(16) && p.search.Best() == 12
    requires p.budget == Budget(MIN_FREE_MEMORY + 960, MIN_FREE_MEMORY, 80)
    ensures Stalled(p)
  {
    assert p.budget.Fits() == Some(9);
    assert p.search.Next() == Measure(14, true);
  }

  // ----- the answer -----

  /** A run of the benchmark, before any feed runs. */
  function Begin(limit: nat, budget: Budget): Progress { Progress(Start(limit), 0, budget, []) }

  lemma BeginIsSound(limit: nat, budget: Budget)
    ensures Sound(Begin(limit, budget))
  {
  }

  /** The answer kept up in a full step, or is none; one more was measured and
      didn't, or it's the limit (as capped); and nothing it didn't exceed failed. */
  lemma AnswerIsCertified(m: Machine, limit: nat, budget: Budget, k: nat)
    requires Run(m, Begin(limit, budget), k).Finished?
    ensures var Finished(r, last) := Run(m, Begin(limit, budget), k);
            && (r == 0 || Kept(last.log, r, true))
            && (Dropped(last.log, r + 1) || r == last.search.limit <= Start(limit).limit)
            && (forall i :: 0 <= i < |last.log| && last.log[i].kept.None? ==> last.log[i].feeds > r)
  {
    hide Pass;
    DoneIsSettled(Run(m, Begin(limit, budget), k).last.search);
  }

  /** Full steps keep up exactly to `c`, and nothing up to `c` fails. */
  ghost predicate Faithful(log: seq<Entry>, c: nat) {
    forall i :: 0 <= i < |log| ==>
      && (log[i].kept == Some(true) ==> log[i].feeds <= c)
      && (log[i].kept.None? ==> log[i].feeds > c)
  }

  /** On a node that sustains `c` feeds, a search that wasn't capped answers `c`, or
      its limit if that's less, whatever the quick checks let through. */
  lemma AnswerIsTheCapacity(m: Machine, limit: nat, budget: Budget, k: nat, c: nat)
    requires Run(m, Begin(limit, budget), k).Finished?
    requires Run(m, Begin(limit, budget), k).last.search.limit == Start(limit).limit
    requires Faithful(Run(m, Begin(limit, budget), k).last.log, c)
    ensures var limit := Start(limit).limit;
            Run(m, Begin(limit, budget), k).sustained == if c < limit then c else limit
  {
    hide Pass, Run;
    AnswerIsCertified(m, limit, budget, k);
    DoneIsSettled(Run(m, Begin(limit, budget), k).last.search);
  }

  /** Nothing but room in memory lowers the limit, and no further than to what fits. */
  lemma {:induction false} LimitStaysUp(m: Machine, limit: nat, budget: Budget, k: nat)
    requires Run(m, Begin(limit, budget), k).Continue? && forall step :: !m.diskLow(step)
    ensures IsUp(Run(m, Begin(limit, budget), k).p, Start(limit).limit)
  {
    hide Pass, Logged, IsUp;
    BeginIsSound(limit, budget);
    if k == 0 {
      StartIsUp(limit, budget);
    } else {
      var q := Run(m, Begin(limit, budget), k - 1).p;
      assert Run(m, Begin(limit, budget), k) == Pass(m, q);
      LimitStaysUp(m, limit, budget, k - 1);
      PassStaysUp(m, q, Start(limit).limit);
    }
  }

  ghost predicate IsUp(q: Progress, limit: nat) {
    q.search.limit >= limit || (q.budget.Fits().Some? && q.search.limit >= q.budget.Fits().value)
  }

  lemma StartIsUp(limit: nat, budget: Budget)
    ensures IsUp(Begin(limit, budget), Start(limit).limit)
  {
  }

  lemma PassStaysUp(m: Machine, q: Progress, limit: nat)
    requires Sound(q) && Pass(m, q).Continue? && IsUp(q, limit) && forall step :: !m.diskLow(step)
    ensures IsUp(Pass(m, q).p, limit)
  {
    hide Logged, q.budget.Fits;
    if q.budget.Fits().Some? { PassFitsNoMore(m, q); }
  }

  /** Where full steps keep up to `c` and nothing up to `c` fails, and no disk fills up, the answer
      is at least `c`, or the limit, or all that fits in memory by what feeds were seen to take. */
  lemma AnswerIsAtLeast(m: Machine, limit: nat, budget: Budget, k: nat, c: nat)
    requires Run(m, Begin(limit, budget), k).Finished? && forall step :: !m.diskLow(step)
    requires Faithful(Run(m, Begin(limit, budget), k).last.log, c)
    ensures var Finished(r, last) := Run(m, Begin(limit, budget), k);
            r >= c || r >= Start(limit).limit || (last.budget.Fits().Some? && r >= last.budget.Fits().value)
  {
    hide Pass;
    BeginIsSound(limit, budget);
    var Finished(r, last) := Run(m, Begin(limit, budget), k);
    AnswerIsCertified(m, limit, budget, k);
    var j := LastPass(m, Begin(limit, budget), k);
    LimitStaysUp(m, limit, budget, j);
    if Dropped(last.log, r + 1) {
      var i :| 0 <= i < |last.log| && last.log[i].feeds == r + 1 && last.log[i].kept.None?;
    }
  }

  /** A step that kept up on a nearly full disk caps the search at its count; one that didn't, or on
      another, leaves the limit alone. */
  lemma FullDiskCaps(m: Machine, p: Progress)
    requires Sound(p) && p.search.Next().Measure? && Measured(m, p).Continue?
    ensures var q, e := Measured(m, p).p, Measured(m, p).p.log[|p.log|];
            q.search.limit ==
            if e.kept.Some? && m.diskLow(|p.log|) then Min(e.feeds, p.search.limit) else p.search.limit
  {
  }

  function Min(a: nat, b: nat): nat { if a < b then a else b }

  /** A pass is broken off exactly if the operator stops it, with memory for its feeds to start. */
  lemma BrokenWhen(m: Machine, p: Progress)
    requires Sound(p)
    ensures Pass(m, p).Broken? <==>
            && p.search.Next().Measure? && !Blocked(p) && m.breaks(|p.log|) == Some(Stopped)
            && forall n :: p.feeds <= n < p.search.Next().feeds ==> !m.short(|p.log|, n)
  {
    if p.search.Next().Measure? { ShortWhen(m, |p.log|, p.feeds, p.search.Next().feeds); }
  }

  lemma {:induction false} ShortWhen(m: Machine, step: nat, running: nat, n: nat)
    ensures ShortWhileStarting(m, step, running, n) <==> exists k: nat :: running <= k < n && m.short(step, k)
    decreases n - running
  {
    if running < n { ShortWhen(m, step, running + 1, n); }
  }

  /** A count that memory ran short of is given up, and feeds go back to one below it or the best. */
  lemma ShortIsGivenUp(m: Machine, p: Progress)
    requires Sound(p) && p.search.Next().Measure? && !Blocked(p)
    requires m.breaks(|p.log|) == Some(ShortOfMemory) ||
             exists k: nat :: p.feeds <= k < p.search.Next().feeds && m.short(|p.log|, k)
    ensures Pass(m, p).Continue?
    ensures var q, n := Pass(m, p).p, p.search.Next().feeds;
            && q.search.fail.Some? && q.search.fail.value <= n && q.budget == p.budget
            && q.feeds == (if p.search.Best() < n then p.search.Best() else n - 1)
            && q.log == p.log + [Entry(n, p.search.Next().full, None)]
  {
    ShortWhen(m, |p.log|, p.feeds, p.search.Next().feeds);
    NextIsUseful(p.search);
  }

  /** A count that was measured whole is the feeds running, and what they took is noted. */
  lemma MeasuredIsNoted(m: Machine, p: Progress)
    requires Sound(p) && p.search.Next().Measure? && !Blocked(p) && m.breaks(|p.log|) == None
    requires forall k: nat :: p.feeds <= k < p.search.Next().feeds ==> !m.short(|p.log|, k)
    ensures Pass(m, p).Continue?
    ensures var q, n := Pass(m, p).p, p.search.Next().feeds;
            && q.feeds == n && q.budget == p.budget.Observe(m.available(|p.log|), n)
            && q.log == p.log + [Entry(n, p.search.Next().full, Verdict(m, |p.log|, p.search.Next().full))]
  {
    ShortWhen(m, |p.log|, p.feeds, p.search.Next().feeds);
  }

  // ----- how many counts it takes -----

  /** The logarithm to base 2, rounded up. */
  function Log2Up(n: nat): nat {
    if n <= 1 then 0 else 1 + Log2Up((n + 1) / 2)
  }

  function Pow2(e: nat): (p: nat)
    ensures p >= 1
  {
    if e == 0 then 1 else 2 * Pow2(e - 1)
  }

  lemma {:induction false} Log2UpAscends(a: nat, b: nat)
    requires a <= b
    ensures Log2Up(a) <= Log2Up(b)
  {
    if a > 1 { Log2UpAscends((a + 1) / 2, (b + 1) / 2); }
  }

  lemma {:induction false} Log2UpIsExponent(e: nat, n: nat)
    ensures n <= Pow2(e) ==> Log2Up(n) <= e
    ensures n > Pow2(e) ==> Log2Up(n) > e
    decreases e
  {
    if e > 0 && n > 1 { Log2UpIsExponent(e - 1, (n + 1) / 2); }
  }

  /** Quick checks too keep up only to `c`. */
  ghost predicate QuickFaithful(log: seq<Entry>, c: nat) {
    Faithful(log, c) && forall i :: 0 <= i < |log| && log[i].kept.Some? ==> log[i].feeds <= c
  }

  /** What a search of `limit` has still to spend of its counts, `taken` so far. */
  ghost predicate InBudget(s: State, taken: nat, limit: nat)
    requires s.Valid()
  {
    var bound := 2 * Log2Up(limit) + 2;
    && s.limit == limit
    && (s.fail.Some? ==>
          taken + Log2Up(s.fail.value - s.Best()) + (if Confirmed(s) || s.Best() == 0 then 0 else 1) <= bound)
    && (s.fail.None? && s.Best() < limit ==>
          if s.Best() == 0 then taken == 0 else taken > 0 && s.Best() == Pow2(taken - 1))
    && (s.fail.None? && s.Best() == limit ==> taken <= Log2Up(limit) + if Confirmed(s) then 2 else 1)
  }

  lemma DoublingInBudget(s: State, taken: nat, limit: nat, kept: Option<bool>)
    requires s.Valid() && s.fail.None? && 0 < limit && s.Best() < limit && InBudget(s, taken, limit)
    ensures var n := s.Next().feeds;
            var t := if kept.Some? then s.Passed(n, kept.value) else s.Failed(n);
            t.Valid() && InBudget(t, taken + 1, limit)
  {
    NextIsUseful(s);
    var n, lo := s.Next().feeds, s.Best();
    if lo > 0 { Log2UpIsExponent(taken - 1, limit); }
    if kept.Some? {
      PassedIsValid(s, n, kept.value);
    } else {
      FailedIsValid(s, n);
      FailedKeepsBest(s, n);
      if lo > 0 { Log2UpIsExponent(taken - 1, n - lo); }
    }
  }

  lemma BisectingInBudget(s: State, taken: nat, limit: nat, kept: Option<bool>)
    requires s.Valid() && s.fail.Some? && s.fail.value - s.Best() > 1 && InBudget(s, taken, limit)
    requires kept.Some? ==> kept.value
    ensures var n := s.Next().feeds;
            var t := if kept.Some? then s.Passed(n, kept.value) else s.Failed(n);
            t.Valid() && InBudget(t, taken + 1, limit)
  {
    NextIsUseful(s);
    var n, gap := s.Next().feeds, s.fail.value - s.Best();
    if kept.Some? {
      PassedIsValid(s, n, kept.value);
      assert s.fail.value - n == (gap + 1) / 2;
    } else {
      FailedIsValid(s, n);
      FailedKeepsBest(s, n);
      Log2UpAscends(gap / 2, (gap + 1) / 2);
    }
  }

  lemma ConfirmingInBudget(s: State, taken: nat, limit: nat)
    requires s.Valid() && s.Next().Measure? && s.Next().feeds == s.Best() && InBudget(s, taken, limit)
    ensures s.Passed(s.Best(), true).Valid() && InBudget(s.Passed(s.Best(), true), taken + 1, limit)
  {
    NextIsUseful(s);
    PassedIsValid(s, s.Best(), true);
  }

  lemma MeasuredInBudget(m: Machine, p: Progress, limit: nat, c: nat)
    requires Sound(p) && p.search.Next().Measure? && Measured(m, p).Continue? && 0 < limit
    requires InBudget(p.search, |p.log|, limit)
    requires Measured(m, p).p.search.limit == limit && QuickFaithful(Measured(m, p).p.log, c)
    ensures Measured(m, p).p.search.Valid() && InBudget(Measured(m, p).p.search, |p.log| + 1, limit)
  {
    var q := Measured(m, p).p;
    var e := q.log[|p.log|];
    MeasuredIsSound(m, p);
    MeasuresNext(m, p);
    CappedNowhere(m, p, limit);
    hide Measured, Sound, InBudget;
    NextIsUseful(p.search);
    if p.search.Next().feeds == p.search.Best() {
      KeptUpTo(q.log, p.log, e.feeds, c, p.search.passes[e.feeds]);
      assert q.log[|p.log|] == e;
    }
    hide QuickFaithful, Kept;
    StepInBudget(p.search, |p.log|, limit, e.kept);
  }

  lemma StepInBudget(s: State, taken: nat, limit: nat, kept: Option<bool>)
    requires s.Valid() && s.Next().Measure? && 0 < limit && InBudget(s, taken, limit)
    requires s.Next().feeds == s.Best() ==> kept.Some?
    requires s.Next().full && kept.Some? ==> kept.value
    ensures var n := s.Next().feeds;
            var t := if kept.Some? then s.Passed(n, kept.value) else s.Failed(n);
            t.Valid() && InBudget(t, taken + 1, limit)
  {
    hide Log2Up;
    if s.Next().feeds == s.Best() {
      NextIsUseful(s);
      ConfirmingInBudget(s, taken, limit);
    } else if s.fail.Some? {
      BisectingInBudget(s, taken, limit, kept);
    } else {
      DoublingInBudget(s, taken, limit, kept);
    }
  }

  lemma MeasuresNext(m: Machine, p: Progress)
    requires Sound(p) && p.search.Next().Measure? && Measured(m, p).Continue?
    ensures var e := Measured(m, p).p.log[|p.log|];
            && e.feeds == p.search.Next().feeds
            && (p.search.Next().full && e.kept.Some? ==> e.kept.value)
            && (p.search.Next().feeds in p.search.passes ==>
                  Kept(p.log, p.search.Next().feeds, p.search.passes[p.search.Next().feeds]))
  {
  }

  /** A cap that leaves the limit changed nothing. */
  lemma CappedNowhere(m: Machine, p: Progress, limit: nat)
    requires Sound(p) && p.search.Next().Measure? && Measured(m, p).Continue?
    requires p.search.limit == limit == Measured(m, p).p.search.limit
    ensures var e := Measured(m, p).p.log[|p.log|];
            Measured(m, p).p.search ==
            if e.kept.Some? then p.search.Passed(e.feeds, e.kept.value) else p.search.Failed(e.feeds)
  {
  }

  lemma KeptUpTo(log: seq<Entry>, before: seq<Entry>, n: nat, c: nat, full: bool)
    requires QuickFaithful(log, c) && before <= log && Kept(before, n, full)
    ensures n <= c
  {
    var i :| 0 <= i < |before| && before[i].feeds == n && before[i].kept.Some?;
    assert log[i] == before[i];
  }

  lemma StartsInBudget(limit: nat)
    ensures Start(limit).Valid() && InBudget(Start(limit), 0, Start(limit).limit)
  {
  }

  lemma BudgetIsABound(s: State, taken: nat, limit: nat)
    requires s.Valid() && InBudget(s, taken, limit) && 0 < limit
    ensures taken <= 2 * Log2Up(limit) + 2
  {
    if s.fail.None? && 0 < s.Best() < limit { Log2UpIsExponent(taken - 1, limit); }
  }

  lemma {:induction false} RunsInBudget(m: Machine, limit: nat, budget: Budget, k: nat, c: nat)
    requires Run(m, Begin(limit, budget), k).Continue?
    requires Run(m, Begin(limit, budget), k).p.search.limit == Start(limit).limit
    requires QuickFaithful(Run(m, Begin(limit, budget), k).p.log, c)
    ensures var q := Run(m, Begin(limit, budget), k).p;
            InBudget(q.search, |q.log|, Start(limit).limit)
  {
    hide Pass, InBudget, Logged;
    BeginIsSound(limit, budget);
    if k == 0 {
      StartsInBudget(limit);
    } else {
      var q := Run(m, Begin(limit, budget), k - 1).p;
      assert Run(m, Begin(limit, budget), k) == Pass(m, q);
      PassKeepsLog(m, q);
      RunsInBudget(m, limit, budget, k - 1, c);
      PassInBudget(m, q, Start(limit).limit, c);
    }
  }

  lemma {:induction false} LastPass(m: Machine, p: Progress, k: nat) returns (j: nat)
    requires Sound(p) && 0 < k && Run(m, p, k).Finished?
    ensures Run(m, p, j) == Continue(Run(m, p, k).last)
  {
    hide Pass, Logged;
    j := k - 1;
    if Run(m, p, k - 1).Continue? {
      PassEndsWhereItIs(m, Run(m, p, k - 1).p);
    } else {
      j := LastPass(m, p, k - 1);
    }
  }

  lemma PassEndsWhereItIs(m: Machine, q: Progress)
    requires Sound(q)
    ensures Pass(m, q).Finished? ==> Pass(m, q).last == q
  {
  }

  /** On a node where every check keeps up exactly to `c`, a search that wasn't
      capped measures at most 2⌈log2 limit⌉ + 2 counts. */
  lemma FewCountsAreMeasured(m: Machine, limit: nat, budget: Budget, k: nat, c: nat)
    requires Run(m, Begin(limit, budget), k).Finished?
    requires Run(m, Begin(limit, budget), k).last.search.limit == Start(limit).limit
    requires QuickFaithful(Run(m, Begin(limit, budget), k).last.log, c)
    ensures |Run(m, Begin(limit, budget), k).last.log| <= 2 * Log2Up(Start(limit).limit) + 2
  {
    hide Pass, InBudget;
    var j := LastPass(m, Begin(limit, budget), k);
    RunsInBudget(m, limit, budget, j, c);
    var q := Run(m, Begin(limit, budget), j).p;
    BudgetIsABound(q.search, |q.log|, Start(limit).limit);
  }

  lemma PassKeepsLog(m: Machine, q: Progress)
    requires Sound(q) && Pass(m, q).Continue?
    ensures q.log <= Pass(m, q).p.log && Pass(m, q).p.search.limit <= q.search.limit
  {
    PassIsSound(m, q);
    if !Blocked(q) { MeasuredIsSound(m, q); }
  }

  lemma PassInBudget(m: Machine, q: Progress, limit: nat, c: nat)
    requires Sound(q) && Pass(m, q).Continue? && InBudget(q.search, |q.log|, limit) && 0 < limit
    requires Pass(m, q).p.search.limit == limit && QuickFaithful(Pass(m, q).p.log, c)
    ensures Pass(m, q).p.search.Valid() && InBudget(Pass(m, q).p.search, |Pass(m, q).p.log|, limit)
  {
    assert q.search.limit == limit;
    hide InBudget, Logged, Measured;
    if Blocked(q) {
      assert CapToFit(q).search == q.search;
    } else {
      MeasuredIsSound(m, q);
      MeasuredInBudget(m, q, limit, c);
    }
  }

  // ----- the driver -----

  datatype End = Sustains(n: nat) | Gave

  class Driver {
    const machine: Machine
    const search: Search
    const memory: MemoryBudget
    /** The feeds running, by number. */
    var feeds: seq<nat>
    var log: seq<Entry>

    predicate Numbered()
      reads this
    {
      forall i :: 0 <= i < |feeds| ==> feeds[i] == i + 1
    }

    function View(): Progress
      reads this, search, memory
    {
      Progress(search.View(), |feeds|, memory.View(), log)
    }

    constructor (machine: Machine, limit: nat, total: nat, available: nat)
      ensures View() == Begin(limit, New(total, available)) && Numbered() && this.machine == machine
      ensures fresh(search) && fresh(memory)
    {
      this.machine := machine;
      search := new Search(limit);
      memory := new MemoryBudget(total, available);
      feeds, log := [], [];
    }

    /** Bring the number of running feeds to `target`, one by one upwards; not `ok` once memory is short. */
    method SetFeeds(step: nat, target: nat) returns (ok: bool)
      requires Numbered()
      modifies this`feeds
      ensures Numbered() && ok == !ShortWhileStarting(machine, step, |old(feeds)|, target)
      ensures ok ==> |feeds| == target
      ensures !ok ==> |old(feeds)| <= |feeds| < target
    {
      if |feeds| > target { feeds := feeds[..target]; }
      while |feeds| < target
        invariant Numbered() && |feeds| <= target && (|old(feeds)| <= target ==> |old(feeds)| <= |feeds|)
        invariant ShortWhileStarting(machine, step, |old(feeds)|, target)
                  == ShortWhileStarting(machine, step, |feeds|, target)
      {
        if machine.short(step, |feeds|) { return false; }
        feeds := feeds + [|feeds| + 1];
      }
      return true;
    }

    /** Look at the step's windows one after the other, no more of them than the verdict takes. */
    method Check(step: nat, full: bool) returns (kept: Option<bool>)
      ensures kept == Verdict(machine, step, full)
      ensures kept == Some(false) <==> !full && Clear(machine, step)
      ensures kept == Some(true) <==>
              KeepsUp(machine, step) && (full || (!Clear(machine, step) && !FarOver(machine, step)))
    {
      VerdictMeans(machine, step, full);
      if !full {
        var quick := machine.window(step, 0);
        if quick.drop <= machine.threshold / 2.0 && quick.cpu < QUICK_MAX_CPU_PCT { return Some(false); }
        if quick.drop > machine.threshold * QUICK_FAIL_FACTOR { return None; }
      }
      var attempt := 1;
      while attempt <= MEASURE_ATTEMPTS
        invariant 1 <= attempt <= MEASURE_ATTEMPTS + 1
        invariant Attempts(machine, step, 1) == Attempts(machine, step, attempt)
      {
        if machine.window(step, attempt).passed { return Some(true); }
        attempt := attempt + 1;
      }
      return None;
    }

    /** One pass of the loop: more feeds than ever passed are measured only if they'd fit. */
    method Turn() returns (end: Option<End>)
      requires Numbered() && Sound(View())
      modifies this, search, memory
      ensures Numbered()
      ensures match Pass(machine, old(View()))
              case Continue(p) => end == None && View() == p
              case Finished(n, last) => end == Some(Sustains(n)) && View() == last
              case Broken => end == Some(Gave)
      ensures end == None && |log| > |old(log)| ==>
                var n := log[|old(log)|].feeds;
                var fits := old(View()).budget.Fits();
                n <= old(View()).search.Best() || (fits.Some? ==> n <= fits.value)
    {
      var s := search.View();
      if s.Next().Done? { return Some(Sustains(s.Next().sustained)); }
      var Measure(n, full) := s.Next();
      var best := s.Best();
      var fit := memory.View().Fits();
      if n > best && fit.Some? && n > fit.value {
        search.Cap(Max(fit.value, best));
        return None;
      }
      end := MeasureNext(n, full);
    }

    /** Run and measure what the search wants next. Going back below a count that
        ran short of memory never asks for more feeds than run. */
    method MeasureNext(n: nat, full: bool) returns (end: Option<End>)
      requires Numbered() && Sound(View()) && View().search.Next() == Measure(n, full)
      modifies this, search, memory
      ensures Numbered()
      ensures match Measured(machine, old(View()))
              case Continue(p) => end == None && View() == p
              case Finished(_, _) => false
              case Broken => end == Some(Gave)
      ensures end == None ==> |log| == |old(log)| + 1 && log[|old(log)|].feeds == n
    {
      var step, best := |log|, search.View().Best();
      NextIsUseful(search.View());
      var ok := SetFeeds(step, n);
      if !ok || machine.breaks(step) == Some(ShortOfMemory) {
        feeds := feeds[..if best < n then best else n - 1];
        search.Failed(n);
        log := log + [Entry(n, full, None)];
        return None;
      }
      if machine.breaks(step) == Some(Stopped) { return Some(Gave); }
      var kept := Check(step, full);
      memory.Observe(machine.available(step), n);
      if kept.Some? {
        search.Passed(n, kept.value);
        if machine.diskLow(step) { search.Cap(n); }
      } else {
        search.Failed(n);
      }
      log := log + [Entry(n, full, kept)];
      return None;
    }

    /** The whole search, on a machine that never blocks it after a failure. */
    method FindLimit() returns (end: End)
      requires Numbered() && Sound(View()) && !Stalls(machine, View())
      modifies this, search, memory
      ensures exists k: nat ::
                match Run(machine, old(View()), k)
                case Continue(_) => false
                case Finished(n, last) => end == Sustains(n) && View() == last
                case Broken => end == Gave
    {
      ghost var k: nat := 0;
      ghost var start := View();
      while true
        invariant Numbered() && Sound(View()) && start == old(View())
        invariant Run(machine, start, k) == Continue(View())
        decreases Ceiling(View().search), Ceiling(View().search) - View().search.Best(),
                  if Confirmed(View().search) then 0 else 1
      {
        ghost var p := View();
        assert !Stalled(p);
        var r := Turn();
        k := k + 1;
        assert Run(machine, start, k) == Pass(machine, p);
        if r.Some? { return r.value; }
        PassIsSound(machine, p);
      }
    }
  }
}
