/** The scheduler: schedules' occurrences started, stopped and recorded in the
    run table, over ticks that may end anywhere with the process. */
module Scheduler {
  import opened Wrappers
  import opened Calendar
  import opened Recurrence
  import opened Starts
  import opened RunTable
  import opened Deeds

  const LEAD: int := 2 * SECOND
  const NO_END_GRACE: int := 2 * MINUTE
  const IDLE: int := 60 * SECOND

  // ----- the state -----

  ghost predicate TableValid(rows: Table, nextId: RunId) {
    && UniqueKeys(rows)
    && (forall id :: id in rows ==> id < nextId)
    && (forall id :: id in rows ==> forall t :: t in rows[id].targets ==> t.WellFormed())
  }

  /** No row is later than its schedule's latest occurrence due. */
  ghost predicate NoneAhead(rows: Table, due: string -> Option<Instant>) {
    forall id :: id in rows ==>
      due(rows[id].scheduleId).Some? && rows[id].plannedStart <= due(rows[id].scheduleId).value
  }

  /** Some row of the schedule is at least as new as `o`. */
  ghost predicate HasRowFrom(rows: Table, o: Occurrence) {
    exists id :: id in rows && rows[id].scheduleId == o.0 && rows[id].plannedStart >= o.1
  }

  /** Every occurrence started has a row from it on, unless its schedule was deleted. */
  ghost predicate BegunHaveRows(rows: Table, begun: seq<Occurrence>, deleted: set<string>) {
    forall i :: 0 <= i < |begun| && begun[i].0 !in deleted ==> HasRowFrom(rows, begun[i])
  }

  ghost predicate StateValid(rows: Table, nextId: RunId, begun: seq<Occurrence>, deleted: set<string>,
                             due: string -> Option<Instant>)
  {
    && TableValid(rows, nextId) && NoneAhead(rows, due) && BegunHaveRows(rows, begun, deleted) && NoRepeats(begun)
    && (forall id :: id in rows ==> rows[id].scheduleId !in deleted)
  }

  /** The latest occurrence, if it has no row, is later than all its schedule's
      rows, pruned or not, and so than all it started. */
  lemma WithoutRowIsNew(rows: Table, nextId: RunId, begun: seq<Occurrence>, deleted: set<string>,
                        due: string -> Option<Instant>, run: Run)
    requires StateValid(rows, nextId, begun, deleted, due) && run.scheduleId !in deleted
    requires due(run.scheduleId) == Some(run.plannedStart)
    requires !Exists(rows, run.scheduleId, run.plannedStart)
    ensures forall o :: o in rows && rows[o].scheduleId == run.scheduleId ==> rows[o].plannedStart < run.plannedStart
    ensures (run.scheduleId, run.plannedStart) !in begun
  {
  }

  /** Inserting it, and dropping old rows, keeps the state valid. */
  lemma InsertIsValid(rows: Table, nextId: RunId, begun: seq<Occurrence>, deleted: set<string>,
                      due: string -> Option<Instant>, run: Run, all: Table, kept: Table)
    requires StateValid(rows, nextId, begun, deleted, due) && run.scheduleId !in deleted && run.targets == []
    requires due(run.scheduleId) == Some(run.plannedStart)
    requires !Exists(rows, run.scheduleId, run.plannedStart)
    requires all == rows[nextId := run] && kept == Prune(all, run.scheduleId)
    ensures StateValid(all, nextId + 1, begun, deleted, due)
    ensures StateValid(kept, nextId + 1, begun, deleted, due)
    ensures nextId in kept && kept[nextId] == run
  {
    WithoutRowIsNew(rows, nextId, begun, deleted, due, run);
    NewestIsKept(all, run.scheduleId, nextId);
    hide HasRowFrom, Prune;
    forall i | 0 <= i < |begun| && begun[i].0 !in deleted
      ensures HasRowFrom(all, begun[i]) && HasRowFrom(kept, begun[i])
    {
      StillHasRowFrom(rows, all, kept, nextId, run, begun[i]);
    }
    MoreRowsAreValid(rows, nextId, begun, deleted, due, run);
    FewerRowsAreValid(all, nextId + 1, begun, deleted, due, kept);
  }

  lemma MoreRowsAreValid(rows: Table, nextId: RunId, begun: seq<Occurrence>, deleted: set<string>,
                         due: string -> Option<Instant>, run: Run)
    requires StateValid(rows, nextId, begun, deleted, due) && run.scheduleId !in deleted && run.targets == []
    requires due(run.scheduleId) == Some(run.plannedStart)
    requires !Exists(rows, run.scheduleId, run.plannedStart)
    requires BegunHaveRows(rows[nextId := run], begun, deleted)
    ensures StateValid(rows[nextId := run], nextId + 1, begun, deleted, due)
  {
    hide BegunHaveRows;
  }

  lemma FewerRowsAreValid(rows: Table, nextId: RunId, begun: seq<Occurrence>, deleted: set<string>,
                          due: string -> Option<Instant>, kept: Table)
    requires StateValid(rows, nextId, begun, deleted, due) && BegunHaveRows(kept, begun, deleted) && UniqueKeys(kept)
    requires forall id :: id in kept ==> id in rows && kept[id] == rows[id]
    ensures StateValid(kept, nextId, begun, deleted, due)
  {
    hide BegunHaveRows, UniqueKeys;
  }

  lemma StillHasRowFrom(rows: Table, all: Table, kept: Table, nextId: RunId, run: Run, o: Occurrence)
    requires HasRowFrom(rows, o) && nextId !in rows && all == rows[nextId := run] && kept == Prune(all, run.scheduleId)
    requires nextId in kept && (o.0 == run.scheduleId ==> o.1 <= run.plannedStart)
    ensures HasRowFrom(all, o) && HasRowFrom(kept, o)
  {
    var id :| id in rows && rows[id].scheduleId == o.0 && rows[id].plannedStart >= o.1;
    assert id in all && all[id] == rows[id];
    if o.0 == run.scheduleId { assert kept[nextId] == run; } else { assert id in kept; }
  }

  lemma IdsAreOld(rows: Table, nextId: RunId, begun: seq<Occurrence>, deleted: set<string>,
                  due: string -> Option<Instant>)
    requires StateValid(rows, nextId, begun, deleted, due)
    ensures UniqueKeys(rows) && forall id :: id in rows ==> id < nextId
  {
  }

  lemma InsertIsAllowed(rows: Table, nextId: RunId, begun: seq<Occurrence>, deleted: set<string>,
                        due: string -> Option<Instant>, run: Run, deeds: seq<Deed>, calls: seq<Call>)
    requires StateValid(rows, nextId, begun, deleted, due) && run.scheduleId !in deleted && run.targets == []
    requires due(run.scheduleId) == Some(run.plannedStart) && Accounts(deeds, calls, begun, rows)
    requires !Exists(rows, run.scheduleId, run.plannedStart)
    ensures var all, kept := rows[nextId := run], Prune(rows[nextId := run], run.scheduleId);
            && StateValid(all, nextId + 1, begun, deleted, due) && Accounts(deeds, calls, begun, all)
            && StateValid(kept, nextId + 1, begun, deleted, due) && Accounts(deeds, calls, begun, kept)
            && nextId in kept && kept[nextId] == run && nextId !in rows
            && OthersKept(rows, kept, run.scheduleId) && OlderKept(rows, kept, nextId)
    ensures (run.scheduleId, run.plannedStart) !in begun
  {
    var all, kept := rows[nextId := run], Prune(rows[nextId := run], run.scheduleId);
    IdsAreOld(rows, nextId, begun, deleted, due);
    hide *;
    InsertKeepsOthers(rows, nextId, run);
    WithoutRowIsNew(rows, nextId, begun, deleted, due, run);
    InsertIsValid(rows, nextId, begun, deleted, due, run, all, kept);
    InsertAccounts(deeds, calls, begun, rows, nextId, run);
  }

  lemma StopUpdateAccounts(deeds: seq<Deed>, calls: seq<Call>, begun: seq<Occurrence>, rows: Table, id: RunId,
                           at: Instant)
    requires Accounts(deeds, calls, begun, rows) && UniqueKeys(rows) && id in rows
    ensures Accounts(deeds, calls, begun, Updated(rows, id, StoppedRun(rows[id], at)))
  {
    SameTargetsAccount(deeds, calls, begun, rows, Updated(rows, id, StoppedRun(rows[id], at)));
  }

  lemma SameRowsAccount(deeds: seq<Deed>, calls: seq<Call>, begun: seq<Occurrence>, rows: Table, id: RunId,
                        sent: seq<Call>)
    requires Accounts(deeds, calls, begun, rows) && UniqueKeys(rows) && id in rows
    requires sent <= Stops(rows[id].targets)
    ensures Accounts(deeds + [ToStop(Of(rows[id]), rows[id].targets, sent)], calls + sent, begun, rows)
  {
    StopAccounts(deeds, calls, begun, rows, id, sent, rows);
  }

  lemma UpdateKeepsOthers(rows: Table, pruned: Table, id: RunId, after: Table, schedule: string)
    requires OthersKept(rows, pruned, schedule) && OlderKept(rows, pruned, id) && id !in rows
    requires id in pruned && pruned[id].scheduleId == schedule && id in after && after[id].scheduleId == schedule
    requires after.Keys == pruned.Keys && forall o :: o in pruned && o != id ==> after[o] == pruned[o]
    ensures OthersKept(rows, after, schedule) && OlderKept(rows, after, id)
  {
  }

  lemma SameRowsKept(rows: Table, schedule: string, id: RunId)
    ensures OthersKept(rows, rows, schedule) && OlderKept(rows, rows, id)
  {
  }

  lemma InsertAccounts(deeds: seq<Deed>, calls: seq<Call>, begun: seq<Occurrence>, rows: Table, id: RunId, run: Run)
    requires Accounts(deeds, calls, begun, rows) && run.targets == []
    ensures Accounts(deeds, calls, begun, rows[id := run])
    ensures Accounts(deeds, calls, begun, Prune(rows[id := run], run.scheduleId))
  {
    FewerRowsAccount(deeds, calls, begun, rows, rows[id := run]);
    FewerRowsAccount(deeds, calls, begun, rows, Prune(rows[id := run], run.scheduleId));
  }

  lemma TargetsAreWellFormed(rows: Table, nextId: RunId, begun: seq<Occurrence>, deleted: set<string>,
                             due: string -> Option<Instant>, id: RunId, at: Instant)
    requires StateValid(rows, nextId, begun, deleted, due) && id in rows
    ensures forall t :: t in StoppedRun(rows[id], at).targets ==> t.WellFormed()
  {
  }

  lemma InsertKeepsOthers(rows: Table, id: RunId, run: Run)
    requires id !in rows
    ensures OthersKept(rows, Prune(rows[id := run], run.scheduleId), run.scheduleId)
    ensures OlderKept(rows, Prune(rows[id := run], run.scheduleId), id)
  {
  }

  /** Starting what was just inserted repeats nothing. */
  lemma BeginIsValid(rows: Table, nextId: RunId, begun: seq<Occurrence>, deleted: set<string>,
                     due: string -> Option<Instant>, id: RunId)
    requires StateValid(rows, nextId, begun, deleted, due) && id in rows
    requires (rows[id].scheduleId, rows[id].plannedStart) !in begun
    ensures StateValid(rows, nextId, begun + [(rows[id].scheduleId, rows[id].plannedStart)], deleted, due)
  {
    assert HasRowFrom(rows, (rows[id].scheduleId, rows[id].plannedStart));
  }

  lemma UpdateIsValid(rows: Table, nextId: RunId, begun: seq<Occurrence>, deleted: set<string>,
                      due: string -> Option<Instant>, id: RunId, run: Run)
    requires StateValid(rows, nextId, begun, deleted, due)
    requires forall t :: t in run.targets ==> t.WellFormed()
    ensures StateValid(Updated(rows, id, run), nextId, begun, deleted, due)
  {
    var rows' := Updated(rows, id, run);
    forall i | 0 <= i < |begun| && begun[i].0 !in deleted
      ensures HasRowFrom(rows', begun[i])
    {
      var o :| o in rows && rows[o].scheduleId == begun[i].0 && rows[o].plannedStart >= begun[i].1;
      assert o in rows';
    }
  }

  lemma LaterIsValid(rows: Table, nextId: RunId, begun: seq<Occurrence>, deleted: set<string>,
                     due: string -> Option<Instant>, later: string -> Option<Instant>)
    requires StateValid(rows, nextId, begun, deleted, due)
    requires forall s :: due(s).Some? ==> later(s).Some? && due(s).value <= later(s).value
    ensures StateValid(rows, nextId, begun, deleted, later)
  {
  }

  /** The rows of other schedules. */
  function Without(rows: Table, schedule: string): Table {
    map id | id in rows && rows[id].scheduleId != schedule :: rows[id]
  }

  /** A schedule's runs that are on. */
  function RunningOf(rows: Table, schedule: string): set<RunId> {
    set id | id in rows && rows[id].scheduleId == schedule && rows[id].status == Running
  }

  /** Stopping a schedule's running occurrence stops one. Deleted then, it leaves no run that
      wasn't asked to stop, exactly if that was the only one. */
  lemma DeletingStopsAllWhen(rows: Table, id: RunId, schedule: string, at: Instant)
    requires UniqueKeys(rows) && id in RunningOf(rows, schedule)
    ensures var after := Updated(rows, id, StoppedRun(rows[id], at));
            && RunningOf(after, schedule) == RunningOf(rows, schedule) - {id}
            && (forall o :: o in RunningOf(after, schedule) ==>
                  after[o] == rows[o] && o !in Without(after, schedule))
            && (RunningOf(after, schedule) == {} <==> forall o :: o in RunningOf(rows, schedule) ==> o == id)
  {
    var after := Updated(rows, id, StoppedRun(rows[id], at));
    assert RunningOf(after, schedule) == RunningOf(rows, schedule) - {id};
    if RunningOf(after, schedule) == {} {
      forall o | o in RunningOf(rows, schedule) ensures o == id {
        assert o != id ==> o in RunningOf(after, schedule);
      }
    }
  }

  /** A later occurrence of a schedule comes due while one still runs, exactly if the window
      isn't over when the next is due. */
  lemma RunsOverlapWhen(r: Rule, z: Zone, a: Instant, b: Instant)
    requires IsNext(r, z, a, Some(b))
    ensures (exists t, c :: c > a && IsLatest(r, z, t, Some(c)) && t - LEAD < WindowEnd(r, a)) <==>
            b - LEAD < WindowEnd(r, a)
  {
    hide IsStart, WindowEnd;
    if b - LEAD < WindowEnd(r, a) { assert IsLatest(r, z, b, Some(b)); }
  }

  /** A schedule of every day, whose window is thirty hours, and clocks that are never set. */
  function DailyRule(): Rule { Rule(Weekly, None, {0, 1, 2, 3, 4, 5, 6}, None, None, 600, Some(108_000)) }

  function Unset(): Zone { Zone(_ => 0, local => Single(local)) }

  /** Its window isn't over when the next day's occurrence is due. */
  lemma DailyRunsCanOverlap(d: Date)
    ensures var r, z := DailyRule(), Unset();
            var a, b := Naive(r, d), Naive(r, d + 1);
            r.Valid() && z.Valid() && IsStart(r, z, a) && IsNext(r, z, a, Some(b)) && b - LEAD < WindowEnd(r, a)
  {
    var r, z := DailyRule(), Unset();
    UnsetIsSteady(r);
    DailyFalls(r);
    assert Naive(r, d + 1) - LEAD < WindowEnd(r, Naive(r, d));
    hide *;
    NextDayIsNext(r, z, d);
  }

  ghost predicate StartsDaily(r: Rule, z: Zone) {
    forall e: Date :: Falls(r, e) && StartOn(r, z, e) == Some(Naive(r, e))
  }

  lemma NextDayIsNext(r: Rule, z: Zone, d: Date)
    requires StartsDaily(r, z)
    ensures IsStart(r, z, Naive(r, d)) && IsNext(r, z, Naive(r, d), Some(Naive(r, d + 1)))
  {
    hide Falls, StartOn;
    assert Falls(r, d) && Falls(r, d + 1);
    forall u | IsStart(r, z, u) && u > Naive(r, d) ensures Naive(r, d + 1) <= u {
      var e :| Falls(r, e) && StartOn(r, z, e) == Some(u);
    }
  }

  lemma UnsetIsSteady(r: Rule)
    requires r == DailyRule()
    ensures r.Valid() && Unset().Valid() && forall t :: Unset().Steady(t) && Unset().SteadyAround(t)
  {
  }

  lemma DailyFalls(r: Rule)
    requires r == DailyRule()
    ensures StartsDaily(r, Unset())
  {
  }

  lemma DailyIsFound(d: Date)
    ensures LatestAtOrBefore(DailyRule(), Unset(), Naive(DailyRule(), d)) == Some(Naive(DailyRule(), d))
  {
    var r, z := DailyRule(), Unset();
    var t := Naive(r, d);
    UnsetIsSteady(r);
    DailyFalls(r);
    hide StartOn, Candidates, Falls, DailyRule, Unset, Naive, z.Valid, z.SteadyAround, r.Valid, LatestAtOrBefore;
    assert IsStart(r, z, t) by { assert Falls(r, d); }
    LatestAtOrBeforeIsLatest(r, z, t);
  }

  lemma DeleteIsValid(rows: Table, nextId: RunId, begun: seq<Occurrence>, deleted: set<string>,
                      due: string -> Option<Instant>, schedule: string, left: Table)
    requires StateValid(rows, nextId, begun, deleted, due)
    requires left == Without(rows, schedule)
    ensures StateValid(left, nextId, begun, deleted + {schedule}, due)
  {
    forall i | 0 <= i < |begun| && begun[i].0 !in deleted + {schedule}
      ensures HasRowFrom(left, begun[i])
    {
      var o :| o in rows && rows[o].scheduleId == begun[i].0 && rows[o].plannedStart >= begun[i].1;
      assert o in left;
    }
  }

  // ----- the scheduler -----

  /** What a tick finds to be each schedule's latest occurrence, looking the lead ahead. */
  ghost function DueAt(rules: string -> Rule, zone: Zone, now: Instant): string -> Option<Instant> {
    s => LatestAtOrBefore(rules(s), zone, now + LEAD)
  }

  /** What it finds is the latest of all the schedule's starts up to two seconds from now. */
  lemma DueIsLatest(rules: string -> Rule, zone: Zone, now: Instant, s: string)
    requires SteadyAll(rules, zone, now) && DueAt(rules, zone, now)(s).Some?
    ensures IsLatest(rules(s), zone, now + 2_000_000_000, DueAt(rules, zone, now)(s))
  {
    FoundIsLatest(rules(s), zone, now + LEAD);
  }

  /** An occurrence is due exactly if its window, of the rule's length or two minutes, ends after the
      schedule was saved, or after now if that's not known. */
  lemma IsDueWhen(s: Schedule, rule: Rule, start: Instant, now: Instant)
    requires s.rule == Some(rule)
    ensures WindowEnd(rule, start) == start + 1_000_000_000 * if rule.duration.Some? then rule.duration.value else 120
    ensures IsDue(s, Some(start), now) <==>
            (match s.saved case Some(at) => at case None => now) < WindowEnd(rule, start)
  {
  }

  /** Whatever the schedule, rules are valid and the clocks steady around a tick at `now`. */
  ghost predicate SteadyAll(rules: string -> Rule, zone: Zone, now: Instant) {
    forall s :: rules(s).Valid() && zone.Valid() && zone.Steady(now + LEAD)
  }

  /** The latest found so far: a tick that misses one, its date being skipped, changes nothing. */
  ghost function FoundBy(found: string -> Option<Instant>, due: string -> Option<Instant>): string -> Option<Instant> {
    s => if found(s).Some? then found(s) else due(s)
  }

  /** The occurrences found are starts of their schedules by `now`, but for the lead. */
  ghost predicate AreStarts(due: string -> Option<Instant>, rules: string -> Rule, zone: Zone, now: Instant) {
    forall s :: due(s).Some? ==> IsStart(rules(s), zone, due(s).value) && due(s).value <= now + LEAD
  }

  lemma DueAreStarts(due: string -> Option<Instant>, rules: string -> Rule, zone: Zone, clock: Instant, now: Instant)
    requires AreStarts(due, rules, zone, clock) && clock <= now && SteadyAll(rules, zone, now)
    ensures AreStarts(FoundBy(DueAt(rules, zone, now), due), rules, zone, now)
  {
    hide LatestAtOrBefore, IsStart;
    forall s | DueAt(rules, zone, now)(s).Some?
      ensures var start := DueAt(rules, zone, now)(s).value; IsStart(rules(s), zone, start) && start <= now + LEAD
    {
      FoundIsAStart(rules(s), zone, now + LEAD);
    }
  }

  lemma DueIsMonotone(due: string -> Option<Instant>, rules: string -> Rule, zone: Zone, clock: Instant, now: Instant,
                      s: string)
    requires AreStarts(due, rules, zone, clock) && clock <= now && SteadyAll(rules, zone, now) && due(s).Some?
    ensures var later := FoundBy(DueAt(rules, zone, now), due)(s); later.Some? && due(s).value <= later.value
  {
    hide LatestAtOrBefore, IsStart;
    if DueAt(rules, zone, now)(s).Some? { FoundIsLatest(rules(s), zone, now + LEAD); }
  }

  // ----- starting -----

  function Starting(s: Schedule, start: Instant, presets: set<string>, calls: seq<Call>, world: World)
    : (seq<Target>, seq<Call>)
  {
    StartAll(Wants(s, presets), calls, LeadUs(start - world.clock(|calls|)), world)
  }

  function NewRun(s: Schedule, rule: Rule, start: Instant, status: Status): Run {
    Run(s.id, start, if rule.duration.Some? then Some(start + rule.duration.value * SECOND) else None,
        None, None, status, [])
  }

  /** A run once everything it wants was asked for. */
  function Begun(run: Run, s: Schedule, start: Instant, presets: set<string>, calls: seq<Call>, world: World): Run {
    var (targets, sent) := Starting(s, start, presets, calls, world);
    run.(startedAt := Some(world.clock(|sent|)), status := StartedStatus(targets, run.plannedEnd.Some?),
         targets := targets)
  }

  function StartedTable(rows: Table, id: RunId, s: Schedule, rule: Rule, start: Instant, presets: set<string>,
                        calls: seq<Call>, world: World): Table
    requires UniqueKeys(Prune(rows[id := NewRun(s, rule, start, Running)], s.id))
  {
    var run := NewRun(s, rule, start, Running);
    Updated(Prune(rows[id := run], s.id), id, Begun(run, s, start, presets, calls, world))
  }

  function StoppedRun(run: Run, at: Instant): (stopped: Run)
    ensures stopped.status != Running && stopped.targets == run.targets
  {
    run.(stoppedAt := Some(at), status := if AnyFailed(run.targets) then Partial else Done)
  }

  /** A run that was stopped is partial if anything of it failed to start, and else done. */
  lemma StoppedMeans(run: Run, at: Instant)
    ensures var stopped := StoppedRun(run, at);
            && stopped.stoppedAt == Some(at) && stopped.startedAt == run.startedAt
            && Of(stopped) == Of(run) && stopped.plannedEnd == run.plannedEnd
            && (stopped.status == Partial <==> exists t :: t in run.targets && t.error.Some?)
            && (stopped.status == Done <==> forall t :: t in run.targets ==> t.error.None?)
  {
    FailedMeans(run.targets);
  }

  class Scheduler {
    /** The run table, and the next row's key (never used before). */
    var rows: Table
    var nextId: RunId
    /** Requests sent to nodes so far. */
    var calls: seq<Call>
    /** Table operations and requests left before the process dies or the database fails. */
    var lives: nat
    /** The occurrences started, in order. */
    ghost var begun: seq<Occurrence>
    /** All that nodes were asked for. */
    ghost var deeds: seq<Deed>
    /** The last tick's time, and each schedule's latest occurrence found so far. */
    ghost var clock: Instant
    ghost var due: string -> Option<Instant>
    /** Deleted schedules: their ids are never used again. */
    ghost var deleted: set<string>
    /** The controller's time zone, and each schedule's rule: fixed. */
    const zone: Zone
    ghost const rules: string -> Rule

    ghost predicate Valid()
      reads this
    {
      StateValid(rows, nextId, begun, deleted, due)
    }

    /** The record is of all that was asked, and agrees with the rows. */
    ghost predicate Accounted()
      reads this
    {
      Accounts(deeds, calls, begun, rows)
    }

    /** `due` is what was found, at the last tick if anything was. */
    ghost predicate Current()
      reads this
    {
      && AreStarts(due, rules, zone, clock)
      && forall s :: DueAt(rules, zone, clock)(s).Some? ==> due(s) == DueAt(rules, zone, clock)(s)
    }

    constructor (zone: Zone, ghost rules: string -> Rule, ghost clock: Instant)
      requires SteadyAll(rules, zone, clock)
      ensures Valid() && Accounted() && Current() && deeds == [] && rows == map[]
      ensures this.zone == zone && this.rules == rules && this.clock == clock && deleted == {}
    {
      this.zone, this.rules, this.clock := zone, rules, clock;
      due := FoundBy(DueAt(rules, zone, clock), _ => None);
      rows, nextId, calls, lives, begun, deeds, deleted := map[], 0, [], 0, [], [], {};
      new;
      DueAreStarts(_ => None, rules, zone, clock, clock);
    }

    /** One more operation, unless the process is gone. */
    method Spend() returns (alive: bool)
      modifies this`lives
      ensures alive <==> old(lives) > 0
      ensures old(lives) == lives + (if alive then 1 else 0) && Enough(old(lives), lives, 1, alive)
    {
      alive := lives > 0;
      if alive { lives := lives - 1; }
    }

    /** INSERT OR IGNORE, then prune: `inserted` tells whether the occurrence had
        no row. It may fail before either. */
    method Insert(run: Run) returns (ok: bool, inserted: bool, id: RunId)
      requires Valid() && Accounted() && run.targets == [] && run.scheduleId !in deleted
      requires due(run.scheduleId) == Some(run.plannedStart)
      modifies this`rows, this`nextId, this`lives
      ensures Valid() && Accounted() && id == old(nextId) <= nextId
      ensures ok ==> inserted == !Exists(old(rows), run.scheduleId, run.plannedStart)
      ensures ok ==> rows == if inserted then Prune(old(rows)[id := run], run.scheduleId) else old(rows)
      ensures !ok ==> rows == old(rows) || rows == old(rows)[id := run]
      ensures ok && inserted ==> id in rows && rows[id] == run && id !in old(rows)
      ensures ok && inserted ==> (run.scheduleId, run.plannedStart) !in begun
      ensures ok ==> OthersKept(old(rows), rows, run.scheduleId) && OlderKept(old(rows), rows, id)
      ensures forall o :: o in old(rows) ==> o < id
      ensures Enough(old(lives), lives, 2, ok)
    {
      id := nextId;
      IdsAreOld(rows, nextId, begun, deleted, due);
      SameRowsKept(rows, run.scheduleId, id);
      hide StateValid, Accounts, OthersKept, OlderKept, Exists, Prune, UniqueKeys, Enough;
      ok := Spend();
      EnoughFor(old(lives), lives, 1, 2, ok);
      ghost var lives1 := lives;
      inserted := !Exists(rows, run.scheduleId, run.plannedStart);
      if !ok || !inserted { return; }
      InsertIsAllowed(rows, nextId, begun, deleted, due, run, deeds, calls);
      rows, nextId := rows[id := run], nextId + 1;
      ok := Spend();
      EnoughThen(old(lives), lives1, lives, 1, 1, ok);
      if ok { rows := Prune(rows, run.scheduleId); }
    }

    method Update(id: RunId, run: Run) returns (ok: bool)
      requires Valid() && forall t :: t in run.targets ==> t.WellFormed()
      modifies this`rows, this`lives
      ensures Valid()
      ensures rows == if ok then Updated(old(rows), id, run) else old(rows)
      ensures Enough(old(lives), lives, 1, ok)
    {
      ok := Spend();
      if ok {
        UpdateIsValid(rows, nextId, begun, deleted, due, id, run);
        rows := Updated(rows, id, run);
      }
    }

    /** Start an occurrence, once: nothing if it has a row already. What was started is stopped
        when the run ends exactly if the row came to note it, or nothing was. */
    method StartRun(s: Schedule, rule: Rule, start: Instant, presets: set<string>, world: World) returns (ok: bool)
      requires Valid() && Accounted() && s.id !in deleted && due(s.id) == Some(start) && s.rule == Some(rule)
      modifies this`rows, this`nextId, this`lives, this`calls, this`begun, this`deeds
      ensures Valid() && Accounted() && old(nextId) <= nextId && old(deeds) <= deeds
      ensures |deeds| <= |old(deeds)| + 1
      ensures deeds != old(deeds) ==>
                && IsStartOf(deeds[|old(deeds)|], s, start, presets) && !Exists(old(rows), s.id, start)
                && old(nextId) in rows
                && (Stops(rows[old(nextId)].targets) == Stops(deeds[|old(deeds)|].targets) <==>
                    ok || Stops(deeds[|old(deeds)|].targets) == [])
      ensures begun == old(begun) || (begun == old(begun) + [(s.id, start)] && !Exists(old(rows), s.id, start))
      ensures calls != old(calls) ==> begun == old(begun) + [(s.id, start)]
      ensures ok && Exists(old(rows), s.id, start) ==> rows == old(rows) && deeds == old(deeds)
      ensures ok && !Exists(old(rows), s.id, start) ==>
                && begun == old(begun) + [(s.id, start)]
                && calls == Starting(s, start, presets, old(calls), world).1
                && UniqueKeys(Prune(old(rows)[old(nextId) := NewRun(s, rule, start, Running)], s.id))
                && rows == StartedTable(old(rows), old(nextId), s, rule, start, presets, old(calls), world)
                && old(nextId) in rows
                && IsStarted(s, start, deeds[|old(deeds)|..], rows, presets, world)
      ensures ok ==> OthersKept(old(rows), rows, s.id) && OlderKept(old(rows), rows, old(nextId))
      ensures ok ==> Exists(rows, s.id, start) && NewIs(rows, old(nextId), (s.id, start), WindowEnd(rule, start))
      ensures Enough(old(lives), lives, |Wants(s, presets)| + 3, ok)
    {
      hide StateValid, Starting, Accounts, Stops, IsStarted, IsStartOf, OthersKept, OlderKept, Enough, Wants;
      ghost var n := |Wants(s, presets)|;
      var run := NewRun(s, rule, start, Running);
      var alive, inserted, id := Insert(run);
      ok := alive;
      EnoughFor(old(lives), lives, 2, n + 3, ok);
      if !ok || !inserted { return; }
      ghost var lives1 := lives;
      IdsAreOld(rows, nextId, begun, deleted, due);
      ghost var pruned := rows;
      ok := StartInserted(id, s, rule, start, presets, world);
      EnoughThen(old(lives), lives1, lives, 2, n + 1, ok);
      if ok { UpdateKeepsOthers(old(rows), pruned, id, rows, s.id); }
    }

    /** Start what was inserted just now, and put it into the record. */
    method StartInserted(id: RunId, s: Schedule, rule: Rule, start: Instant, presets: set<string>, world: World)
      returns (ok: bool)
      requires Valid() && Accounted() && s.rule == Some(rule) && (s.id, start) !in begun
      requires id in rows && rows[id] == NewRun(s, rule, start, Running)
      modifies this`rows, this`lives, this`calls, this`begun, this`deeds
      ensures Valid() && Accounted() && begun == old(begun) + [(s.id, start)]
      ensures |deeds| == |old(deeds)| + 1 && old(deeds) <= deeds && IsStartOf(deeds[|old(deeds)|], s, start, presets)
      ensures id in rows
      ensures Stops(rows[id].targets) == Stops(deeds[|old(deeds)|].targets) <==>
              ok || Stops(deeds[|old(deeds)|].targets) == []
      ensures rows == if ok then Updated(old(rows), id, Begun(old(rows)[id], s, start, presets, old(calls), world))
                      else old(rows)
      ensures ok ==> calls == Starting(s, start, presets, old(calls), world).1
      ensures ok ==> IsStarted(s, start, deeds[|old(deeds)|..], rows, presets, world)
      ensures Enough(old(lives), lives, |Wants(s, presets)| + 1, ok)
    {
      hide StateValid, Accounts, Honest, Stops, InFull, StartedStatus, Starting, Wants;
      ghost var d;
      ghost var before, calls0, begun0, deeds0 := rows, calls, begun, deeds;
      IdsAreOld(rows, nextId, begun, deleted, due);
      ok, d := Begin(id, s, start, presets, world);
      BeginIsValid(rows, nextId, begun, deleted, due, id);
      StartAccounts(deeds, calls0, begun, before, d, id, rows);
      begun, deeds := begun + [(s.id, start)], deeds + [d];
      assert deeds[|deeds0|..] == [d];
      NothingToStop();
      if ok { IsStartedNow(s, start, d, rows, id, presets, world); }
    }

    /** Ask for all a run is to start, then note what became of it. */
    method Begin(id: RunId, s: Schedule, start: Instant, presets: set<string>, world: World)
      returns (ok: bool, ghost d: Deed)
      requires Valid() && id in rows
      modifies this`rows, this`lives, this`calls
      ensures Valid()
      ensures rows == if ok then Updated(old(rows), id, Begun(old(rows)[id], s, start, presets, old(calls), world))
                      else old(rows)
      ensures d.ToStart? && d.o == (s.id, start) && d.wanted == Wants(s, presets) && Honest(d)
      ensures calls == old(calls) + d.sent
      ensures ok ==> (d.targets, calls) == Starting(s, start, presets, old(calls), world) && InFull(d, world)
      ensures Enough(old(lives), lives, |Wants(s, presets)| + 1, ok)
    {
      hide StateValid, StartedStatus, Updated, StartAll, Wants, LeadUs, Requests;
      var targets: seq<Target>;
      ghost var k: nat;
      var leadUs := LeadUs(start - world.clock(|calls|));
      ok, targets, k := AskAll(Wants(s, presets), leadUs, world);
      StartAllAsksForEach(Wants(s, presets)[..k], old(calls), leadUs, world);
      RequestsOfFirst(Wants(s, presets), k, leadUs);
      d := ToStart((s.id, start), Wants(s, presets), leadUs, targets, Requests(Wants(s, presets)[..k], leadUs));
      if !ok { return; }
      assert Wants(s, presets)[..k] == Wants(s, presets);
      assert Answered(d, old(calls), world);
      var run := rows[id];
      ok := Update(id, run.(startedAt := Some(world.clock(|calls|)),
                            status := StartedStatus(targets, run.plannedEnd.Some?), targets := targets));
    }

    /** Ask for each thing, or the first `k` if cut short. */
    method AskAll(wanted: seq<Wanted>, leadUs: int, world: World)
      returns (ok: bool, targets: seq<Target>, ghost k: nat)
      modifies this`lives, this`calls
      ensures k <= |wanted| && (targets, calls) == StartAll(wanted[..k], old(calls), leadUs, world)
      ensures ok ==> k == |wanted| && forall t :: t in targets ==> t.WellFormed()
      ensures Enough(old(lives), lives, |wanted|, ok)
    {
      targets := [];
      var i := 0;
      k := 0;
      while i < |wanted|
        invariant k == i <= |wanted| && old(lives) == lives + i
        invariant (targets, calls) == StartAll(wanted[..i], old(calls), leadUs, world)
      {
        ok := Spend();
        if !ok { return; }
        assert wanted[..i + 1][..i] == wanted[..i];
        var request := RequestFor(wanted[i], leadUs);
        targets := targets + [TargetFor(wanted[i], world.reply(|calls|))];
        if request.Some? { calls := calls + [request.value]; }
        i, k := i + 1, k + 1;
      }
      ok := true;
      assert wanted[..i] == wanted;
      StartAllIsWellFormed(wanted, old(calls), leadUs, world);
    }

    method SkipRun(s: Schedule, rule: Rule, start: Instant) returns (ok: bool)
      requires Valid() && Accounted() && s.id !in deleted && due(s.id) == Some(start)
      modifies this`rows, this`nextId, this`lives
      ensures Valid() && Accounted() && old(nextId) <= nextId
      ensures ok ==> rows == if Exists(old(rows), s.id, start) then old(rows)
                             else Prune(old(rows)[old(nextId) := NewRun(s, rule, start, Skipped)], s.id)
      ensures ok && !Exists(old(rows), s.id, start) ==> old(nextId) in rows && old(nextId) !in old(rows)
      ensures ok ==> OthersKept(old(rows), rows, s.id) && OlderKept(old(rows), rows, old(nextId))
      ensures ok ==> forall id :: id in rows && id >= old(nextId) ==> rows[id].status != Running
      ensures ok ==> Exists(rows, s.id, start)
      ensures Enough(old(lives), lives, 2, ok)
    {
      var alive, inserted, _ := Insert(NewRun(s, rule, start, Skipped));
      ok := alive;
    }

    /** Ask for the stops that a run's row calls for, then mark the row; cut short, the row stays as it was. */
    method StopRun(id: RunId, world: World) returns (ok: bool)
      requires Valid() && Accounted() && id in rows
      modifies this`rows, this`lives, this`calls, this`deeds
      ensures Valid() && Accounted()
      ensures old(calls) <= calls && calls <= old(calls) + Stops(old(rows)[id].targets)
      ensures deeds == old(deeds) + [ToStop(Of(old(rows)[id]), old(rows)[id].targets, calls[|old(calls)|..])]
      ensures rows == old(rows) || rows == Updated(old(rows), id, StoppedRun(old(rows)[id], world.clock(|calls|)))
      ensures ok ==> calls == old(calls) + Stops(old(rows)[id].targets)
      ensures ok ==> rows == Updated(old(rows), id, StoppedRun(old(rows)[id], world.clock(|calls|)))
      ensures Enough(old(lives), lives, |old(rows)[id].targets| + 2, ok)
    {
      StopsAreFew(rows[id].targets);
      hide StateValid, Accounts, Stops, StoppedRun, Enough, Updated, Of;
      ghost var n, sent := |rows[id].targets|, [];
      IdsAreOld(rows, nextId, begun, deleted, due);
      ok, sent := SendAll(Stops(rows[id].targets));
      SameRowsAccount(deeds, old(calls), begun, rows, id, sent);
      deeds := deeds + [ToStop(Of(rows[id]), rows[id].targets, sent)];
      EnoughFor(old(lives), lives, |Stops(rows[id].targets)|, n, ok);
      EnoughFor(old(lives), lives, n, n + 2, ok);
      if !ok { return; }
      ghost var lives1 := lives;
      ok := FinishRun(id, world.clock(|calls|));
      EnoughThen(old(lives), lives1, lives, n, 2, ok);
    }

    /** Mark the row; the schedule is read again, to tell of it. */
    method FinishRun(id: RunId, at: Instant) returns (ok: bool)
      requires Valid() && Accounted() && id in rows
      modifies this`rows, this`lives
      ensures Valid() && Accounted()
      ensures rows == old(rows) || rows == Updated(old(rows), id, StoppedRun(old(rows)[id], at))
      ensures ok ==> rows == Updated(old(rows), id, StoppedRun(old(rows)[id], at))
      ensures Enough(old(lives), lives, 2, ok)
    {
      hide StateValid, Accounts, StoppedRun, Updated;
      IdsAreOld(rows, nextId, begun, deleted, due);
      TargetsAreWellFormed(rows, nextId, begun, deleted, due, id, at);
      StopUpdateAccounts(deeds, calls, begun, rows, id, at);
      ok := Update(id, StoppedRun(rows[id], at));
      if ok { ok := Spend(); }
    }

    method SendAll(requests: seq<Call>) returns (ok: bool, ghost sent: seq<Call>)
      modifies this`lives, this`calls
      ensures calls == old(calls) + sent && sent <= requests && calls[|old(calls)|..] == sent
      ensures ok ==> sent == requests
      ensures Enough(old(lives), lives, |requests|, ok)
    {
      var i := 0;
      sent := [];
      while i < |requests|
        invariant 0 <= i <= |requests| && sent == requests[..i] && calls == old(calls) + sent && old(lives) == lives + i
      {
        ok := Spend();
        if !ok { return; }
        calls, sent := calls + [requests[i]], sent + [requests[i]];
        i := i + 1;
      }
      ok := true;
    }

    // ----- a tick -----

    /** Stop what's over at `now`, and nothing else; `next` is no later than the end of what's left. */
    method StopDue(now: Instant, world: World, ghost most: nat) returns (ok: bool, next: Instant)
      requires Valid() && Accounted() && AtMost(rows, most)
      modifies this`rows, this`lives, this`calls, this`deeds
      ensures Valid() && Accounted() && old(deeds) <= deeds
      ensures OnlyStopped(old(rows), rows, deeds[|old(deeds)|..], now)
      ensures next <= now + IDLE && (ok ==> Handled(rows, {}, now, next) && SomeEnd(rows, {}, now, next))
      ensures ok ==> AreStopped(deeds[|old(deeds)|..], old(rows), {}, now)
      ensures Enough(old(lives), lives, StopsCost(|RunningIds(old(rows))|, most + 2), ok)
    {
      hide StateValid, Accounts, Handled, SomeEnd, OnlyStopped, AreStopped, ToLookAt, AtMost, RunningIds, Enough, Spent,
           StopsCost;
      next := now + IDLE;
      assert deeds[|deeds|..] == [];
      var todo := RunningIds(rows);
      SameToBegin(rows, todo, now);
      ghost var all: nat, done: nat := |todo|, 0;
      ok := Spend();
      FirstSpent(old(lives), lives, all, most + 2, ok);
      if !ok { return; }
      while todo != {}
        invariant Valid() && Accounted() && old(deeds) <= deeds
        invariant ToLookAt(old(rows), rows, todo) && OnlyStopped(old(rows), rows, deeds[|old(deeds)|..], now)
        invariant AreStopped(deeds[|old(deeds)|..], old(rows), todo, now)
        invariant AtMost(rows, most) && done + |todo| == all && Spent(old(lives), lives, done, most + 2)
        invariant next <= now + IDLE && Handled(rows, todo, now, next) && SomeEnd(rows, todo, now, next)
        decreases todo
      {
        var id :| id in todo;
        ghost var lives0 := lives;
        ok, next := StopNext(old(rows), |old(deeds)|, id, now, next, todo, world, most);
        MoreSpent(old(lives), lives0, lives, done, all, most + 2, ok);
        if !ok { return; }
        todo, done := todo - {id}, done + 1;
      }
      ok := true;
      AllSpent(old(lives), lives, all, most + 2);
    }

    /** One more of the runs left to look at. */
    method StopNext(ghost rows0: Table, ghost n: nat, id: RunId, now: Instant, before: Instant,
                    ghost todo: set<RunId>, world: World, ghost most: nat)
      returns (ok: bool, next: Instant)
      requires Valid() && Accounted() && id in todo && AtMost(rows, most)
      requires n <= |deeds| && ToLookAt(rows0, rows, todo) && OnlyStopped(rows0, rows, deeds[n..], now)
      requires AreStopped(deeds[n..], rows0, todo, now)
      requires Handled(rows, todo, now, before) && SomeEnd(rows, todo, now, before)
      modifies this`rows, this`lives, this`calls, this`deeds
      ensures Valid() && Accounted() && old(deeds) <= deeds && next <= before
      ensures OnlyStopped(rows0, rows, deeds[n..], now) && (ok ==> AreStopped(deeds[n..], rows0, todo - {id}, now))
      ensures ok ==> ToLookAt(rows0, rows, todo - {id})
      ensures AtMost(rows, most) && Enough(old(lives), lives, most + 2, ok)
      ensures ok ==> Handled(rows, todo - {id}, now, next) && SomeEnd(rows, todo - {id}, now, next)
    {
      hide StateValid, Accounts, Handled, SomeEnd, OnlyStopped, AreStopped, ToLookAt, SameOccurrences, StopsIfOver,
           Overdue, AtMost;
      ghost var rows1, deeds1 := rows, deeds;
      IsToLookAt(rows0, rows, todo, id);
      ok, next := StopIfDue(id, now, before, todo, world, most);
      ghost var more := deeds[|deeds1|..];
      OneStopped(rows0, rows1, rows, deeds1[n..], more, todo, id, now, ok);
      assert deeds[n..] == deeds1[n..] + more;
    }

    method StopIfDue(id: RunId, now: Instant, before: Instant, ghost todo: set<RunId>, world: World, ghost most: nat)
      returns (ok: bool, next: Instant)
      requires Valid() && Accounted() && AtMost(rows, most) && id in rows && id in todo && rows[id].status == Running
      requires Handled(rows, todo, now, before) && SomeEnd(rows, todo, now, before)
      modifies this`rows, this`lives, this`calls, this`deeds
      ensures Valid() && Accounted() && SameOccurrences(old(rows), rows)
      ensures next <= before && forall o :: o in old(rows) && o != id ==> rows[o] == old(rows)[o]
      ensures !Overdue(old(rows)[id], now) ==> rows == old(rows) && deeds == old(deeds)
      ensures old(deeds) <= deeds && StopsIfOver(deeds[|old(deeds)|..], old(rows)[id], now, ok)
      ensures ok ==> Handled(rows, todo - {id}, now, next) && SomeEnd(rows, todo - {id}, now, next)
      ensures AtMost(rows, most) && Enough(old(lives), lives, most + 2, ok)
    {
      hide StateValid, Accounts, Stops;
      IdsAreOld(rows, nextId, begun, deleted, due);
      ok, next := true, before;
      var end := rows[id].plannedEnd;
      if end.Some? && end.value > now {
        next := if end.value < next then end.value else next;
        assert deeds[|deeds|..] == [];
      } else {
        ghost var deeds0, calls0 := deeds, calls;
        ok := StopRun(id, world);
        assert deeds[|deeds0|..] == [ToStop(Of(old(rows)[id]), old(rows)[id].targets, calls[|calls0|..])];
      }
    }

    /** Start or skip a schedule's latest occurrence, if it's due and has no row. */
    method StartIfDue(s: Schedule, now: Instant, presets: set<string>, world: World) returns (ok: bool)
      requires Valid() && Accounted() && Current() && clock == now && s.id !in deleted
      requires s.rule.Some? ==> s.rule.value == rules(s.id)
      modifies this`rows, this`nextId, this`lives, this`calls, this`begun, this`deeds
      ensures Valid() && Accounted() && old(begun) <= begun
      ensures old(deeds) <= deeds && StartsOnly(deeds[|old(deeds)|..], s, DueAt(rules, zone, now), presets)
      ensures ok ==> StartsIfWanted(s, DueAt(rules, zone, now), now, old(rows), rows, deeds[|old(deeds)|..], presets,
                                    world)
      ensures ok ==> NewAreBegun(rows, old(nextId), begun[|old(begun)|..], rules)
      ensures ok && OnTime(old(rows), now) ==> OnTime(rows, now)
      ensures ok ==> DueIsRecorded(rows, s, DueAt(rules, zone, now), now)
      ensures ok ==> OthersKept(old(rows), rows, s.id) && OlderKept(old(rows), rows, old(nextId))
      ensures old(nextId) <= nextId && deleted == old(deleted)
      ensures Enough(old(lives), lives, |Wants(s, presets)| + 4, ok)
    {
      hide StateValid, Accounts, OnTime, AreStarts, IsStarted;
      NoneIsNew(rows, nextId, begun, deleted, due, rules);
      assert begun[|begun|..] == [] && deeds[|deeds|..] == [];
      ok := true;
      if s.enabled && s.rule.Some? {
        var start := LatestAtOrBefore(s.rule.value, zone, now + LEAD);
        assert start == DueAt(rules, zone, now)(s.id);
        hide DueAt;
        if IsDue(s, start, now) {
          ok := Spend();
          if ok && !Exists(rows, s.id, start.value) {
            ok := StartOrSkip(s, s.rule.value, start.value, now, presets, world);
          }
        }
      }
    }

    method StartOrSkip(s: Schedule, rule: Rule, start: Instant, now: Instant, presets: set<string>, world: World)
      returns (ok: bool)
      requires Valid() && Accounted() && s.id !in deleted && due(s.id) == Some(start) && !Exists(rows, s.id, start)
      requires s.rule == Some(rule) && rule == rules(s.id)
      modifies this`rows, this`nextId, this`lives, this`calls, this`begun, this`deeds
      ensures Valid() && Accounted() && old(begun) <= begun && old(deeds) <= deeds
      ensures forall i :: |old(deeds)| <= i < |deeds| ==> IsStartOf(deeds[i], s, start, presets)
      ensures ok && now < WindowEnd(rule, start) ==>
                IsStarted(s, start, deeds[|old(deeds)|..], rows, presets, world)
      ensures ok && now >= WindowEnd(rule, start) ==> IsSkipped((s.id, start), rows)
      ensures ok ==> NewAreBegun(rows, old(nextId), begun[|old(begun)|..], rules)
      ensures ok && OnTime(old(rows), now) ==> OnTime(rows, now)
      ensures ok ==> Exists(rows, s.id, start)
      ensures ok ==> OthersKept(old(rows), rows, s.id) && OlderKept(old(rows), rows, old(nextId))
      ensures old(nextId) <= nextId && deleted == old(deleted)
      ensures Enough(old(lives), lives, |Wants(s, presets)| + 3, ok)
    {
      hide StateValid, StartedTable, Accounts, IsStarted, Stops, IsStartOf;
      ghost var n := nextId;
      if now < WindowEnd(rule, start) {
        ok := StartRun(s, rule, start, presets, world);
      } else {
        ok := SkipRun(s, rule, start);
      }
    }

    /** One schedule's part of a tick; `next` is `before`, or in time for its next start. */
    method TickSchedule(s: Schedule, now: Instant, before: Instant, presets: set<string>, world: World)
      returns (ok: bool, next: Instant)
      requires Valid() && Accounted() && Current() && clock == now && s.id !in deleted
      requires s.rule.Some? ==> s.rule.value == rules(s.id)
      modifies this`rows, this`nextId, this`lives, this`calls, this`begun, this`deeds
      ensures Valid() && Accounted() && old(begun) <= begun && old(nextId) <= nextId
      ensures old(deeds) <= deeds && StartsOnly(deeds[|old(deeds)|..], s, DueAt(rules, zone, now), presets)
      ensures ok ==> StartsIfWanted(s, DueAt(rules, zone, now), now, old(rows), rows, deeds[|old(deeds)|..], presets,
                                    world)
      ensures ok ==> NewAreBegun(rows, old(nextId), begun[|old(begun)|..], rules)
      ensures ok ==> next == Wake(s, zone, now, before)
      ensures ok && OnTime(old(rows), now) ==> OnTime(rows, now)
      ensures ok ==> DueIsRecorded(rows, s, DueAt(rules, zone, now), now)
      ensures ok ==> OthersKept(old(rows), rows, s.id) && OlderKept(old(rows), rows, old(nextId))
      ensures Enough(old(lives), lives, |Wants(s, presets)| + 4, ok)
    {
      hide NextAfter, LatestAtOrBefore, DueAt, StateValid, Accounts, AreStarts, StartsOnly, StartsIfWanted;
      next := before;
      ok := StartIfDue(s, now, presets, world);
      if ok && s.enabled && s.rule.Some? {
        var upcoming := NextAfter(s.rule.value, zone, now + LEAD);
        if upcoming.Some? && upcoming.value - LEAD < next { next := upcoming.value - LEAD; }
      }
    }

    /** One tick. `r` is the wake time, none if the tick was cut short; which it isn't if it gets as
        many table operations and requests as it may need, with no more than `most` targets of a run
        and things wanted by a schedule. */
    method Tick(now: Instant, schedules: seq<Schedule>, presets: set<string>, world: World, ghost most: nat)
      returns (r: Option<Instant>)
      requires Valid() && Accounted() && Current() && clock <= now && Stored(schedules, rules, deleted)
      requires SteadyAll(rules, zone, now)
      modifies this
      ensures (&& AtMost(old(rows), most) && WantAtMost(schedules, presets, most)
               && old(lives) >= TickNeeds(|RunningIds(old(rows))|, |schedules|, most)) ==> r.Some?
      ensures Valid() && Accounted() && Current() && clock == now
      ensures old(begun) <= begun && deleted == old(deleted)
      ensures old(deeds) <= deeds
      ensures AsksOnly(deeds[|old(deeds)|..], old(rows), schedules, DueAt(rules, zone, now), presets, now)
      ensures r.Some? ==> AreStopped(deeds[|old(deeds)|..], old(rows), {}, now) && OngoingKept(old(rows), rows, now)
      ensures r.Some? ==> AreStarted(schedules, DueAt(rules, zone, now), now, old(rows), rows, deeds[|old(deeds)|..],
                                     presets, world)
      ensures r.Some? ==> OnTime(rows, now) && r.value <= now + IDLE
      ensures r.Some? ==> AllRecorded(rows, schedules, DueAt(rules, zone, now), now)
      ensures r.Some? ==> exists before ::
                IsLeastEnd(rows, old(nextId), now, before) && r.value == WakeTime(schedules, zone, now, before)
      ensures r.Some? ==> NewAreBegun(rows, old(nextId), begun[|old(begun)|..], rules)
      ensures r.Some? ==>
                (NoneEndsBefore(rows, r.value) <==> NoWindowEndsBefore(rows, old(nextId), rules, r.value))
    {
      hide StateValid, DueAt, AllRecorded, WakeTime, SteadyAll, Stored, NewAreBegun, IsLeastEnd, OlderKept, Accounts,
           AreStarts, OnlyStopped, AreStopped, AreStarted, OnlyStarts, AsksOnly, OngoingKept, AtMost, WantAtMost;
      Advance(now);
      ghost var big := TheMost(rows, schedules, presets, most);
      var ok, next := StopDue(now, world, big);
      ghost var stops := deeds[|old(deeds)|..];
      NoStarts(stops, old(rows), schedules, DueAt(rules, zone, now), presets, now);
      if !ok { return None; }
      ok := Spend();
      if !ok { return None; }
      ghost var before, rows0, deeds0 := next, rows, deeds;
      IdsAreOld(rows, nextId, begun, deleted, due);
      WakeTimeIsEarlier(schedules, zone, now, before);
      ok, next := TickSchedules(schedules, now, next, presets, world, big);
      ghost var starts := deeds[|deeds0|..];
      assert deeds[|old(deeds)|..] == stops + starts;
      StopsThenStarts(stops, starts, old(rows), schedules, DueAt(rules, zone, now), presets, now);
      if !ok { return None; }
      StillStopped(stops, starts, old(rows), now);
      StartedAfterStops(schedules, DueAt(rules, zone, now), now, old(rows), rows0, rows, stops, starts, presets, world);
      OngoingStays(old(rows), rows0, rows, stops, old(nextId), now);
      LeastEndStays(rows0, rows, old(nextId), now, before);
      OnlyNewEndSooner(rows, old(nextId), now, before, next, begun[|old(begun)|..], rules);
      return Some(next);
    }

    method TickSchedules(schedules: seq<Schedule>, now: Instant, before: Instant, presets: set<string>, world: World,
                         ghost most: nat)
      returns (ok: bool, next: Instant)
      requires Valid() && Accounted() && Current() && clock == now && Stored(schedules, rules, deleted)
      requires OnTime(rows, now) && WantAtMost(schedules, presets, most)
      modifies this`rows, this`nextId, this`lives, this`calls, this`begun, this`deeds
      ensures Valid() && Accounted() && old(begun) <= begun
      ensures old(deeds) <= deeds && OnlyStarts(deeds[|old(deeds)|..], schedules, DueAt(rules, zone, now), presets)
      ensures ok ==> AreStarted(schedules, DueAt(rules, zone, now), now, old(rows), rows, deeds[|old(deeds)|..],
                                presets, world)
      ensures ok ==> OnTime(rows, now) && OlderKept(old(rows), rows, old(nextId))
      ensures ok ==> NewAreBegun(rows, old(nextId), begun[|old(begun)|..], rules)
      ensures ok ==> AllRecorded(rows, schedules, DueAt(rules, zone, now), now)
      ensures ok ==> next == WakeTime(schedules, zone, now, before)
      ensures Enough(old(lives), lives, Cost(|schedules|, most + 4), ok)
    {
      hide LatestAtOrBefore, NextAfter, StateValid, Accounts, AreStarts, NewAreBegun, OlderKept, DueAt, StartsOnly,
           StartsIfWanted, OnlyStarts, AreStarted, AllRecorded, YetToTick, DueIsRecorded, OthersKept, OnTime, Cost,
           Wants;
      NoneIsNew(rows, nextId, begun, deleted, due, rules);
      assert begun[|begun|..] == [] && deeds[|deeds|..] == [];
      ghost var found := DueAt(rules, zone, now);
      NoneTicked(schedules, found, now, rows, presets, world);
      NothingCosts(most + 4);
      ok, next := true, before;
      var i := 0;
      while i < |schedules|
        invariant 0 <= i <= |schedules| && Valid() && Accounted()
        invariant old(begun) <= begun && old(nextId) <= nextId && old(deeds) <= deeds
        invariant OnTime(rows, now) && OlderKept(old(rows), rows, old(nextId))
        invariant NewAreBegun(rows, old(nextId), begun[|old(begun)|..], rules)
        invariant OnlyStarts(deeds[|old(deeds)|..], schedules, found, presets)
        invariant AreStarted(schedules[..i], found, now, old(rows), rows, deeds[|old(deeds)|..], presets, world)
        invariant YetToTick(schedules, i, old(rows), rows)
        invariant ok && AllRecorded(rows, schedules[..i], found, now)
        invariant next == WakeTime(schedules[..i], zone, now, before)
        invariant lives <= old(lives) <= lives + Cost(i, most + 4)
      {
        CostsMore(i, |schedules|, most + 4);
        ghost var rows0, nextId0, begun0, deeds0 := rows, nextId, begun, deeds;
        ok, next := TickSchedule(schedules[i], now, next, presets, world);
        ghost var new0, more := deeds0[|old(deeds)|..], deeds[|deeds0|..];
        assert deeds[|old(deeds)|..] == new0 + more;
        MoreStarts(new0, more, schedules, i, found, presets);
        if !ok { return; }
        assert schedules[..i + 1] == schedules[..i] + [schedules[i]];
        NewStillBegun(rows0, rows, old(nextId), nextId0, begun0, begun, |old(begun)|, rules);
        OlderStaysKept(old(rows), rows0, rows, old(nextId), nextId0);
        OthersStayRecorded(rows0, rows, schedules[..i], schedules[i], found, now);
        OneMoreTicked(schedules, i, found, now, old(rows), rows0, rows, new0, more, presets, world);
        i := i + 1;
      }
      assert schedules[..i] == schedules;
    }

    /** The clock never goes back, so neither do the occurrences found. */
    ghost method Advance(now: Instant)
      requires Valid() && Current() && clock <= now && SteadyAll(rules, zone, now)
      modifies this`clock, this`due
      ensures Valid() && Current() && clock == now
    {
      hide StateValid, SteadyAll, DueAt, AreStarts;
      ghost var later := FoundBy(DueAt(rules, zone, now), due);
      forall s | due(s).Some?
        ensures later(s).Some? && due(s).value <= later(s).value
      {
        DueIsMonotone(due, rules, zone, clock, now, s);
      }
      LaterIsValid(rows, nextId, begun, deleted, due, later);
      DueAreStarts(due, rules, zone, clock, now);
      clock, due := now, later;
    }

    // ----- the other operations -----

    /** Stop one running row of the schedule; `stopped` tells whether it has any. */
    method StopNow(schedule: string, world: World) returns (ok: bool, stopped: bool)
      requires Valid() && Accounted()
      modifies this`rows, this`lives, this`calls, this`deeds
      ensures Valid() && Accounted() && old(deeds) <= deeds
      ensures ok ==> (stopped <==> RunningOf(old(rows), schedule) != {})
      ensures ok && stopped ==> exists id ::
                && id in RunningOf(old(rows), schedule)
                && rows == Updated(old(rows), id, StoppedRun(old(rows)[id], world.clock(|calls|)))
                && calls == old(calls) + Stops(old(rows)[id].targets)
      ensures ok && !stopped ==> rows == old(rows) && calls == old(calls)
      ensures (&& old(lives) > 0
               && forall id :: id in RunningOf(old(rows), schedule) ==>
                    old(lives) >= |old(rows)[id].targets| + 3) ==> ok
    {
      hide StateValid, Accounts, Stops;
      stopped := false;
      ok := Spend();
      if !ok { return; }
      if RunningOf(rows, schedule) != {} {
        var id :| id in RunningOf(rows, schedule);
        ok := StopRun(id, world);
        stopped := true;
      }
    }

    /** Delete a schedule and its runs, running or not; nothing is asked to stop. */
    method Drop(schedule: string) returns (ok: bool)
      requires Valid() && Accounted()
      modifies this`rows, this`lives, this`deleted
      ensures Valid() && Accounted()
      ensures deleted == if ok then old(deleted) + {schedule} else old(deleted)
      ensures rows == if ok then Without(old(rows), schedule) else old(rows)
      ensures ok ==> OthersKept(old(rows), rows, schedule)
      ensures ok ==> forall id :: id in rows ==> rows[id].scheduleId != schedule
      ensures ok <==> old(lives) > 0
    {
      hide StateValid, Accounts;
      ok := Spend();
      if !ok { return; }
      FewerRowsAccount(deeds, calls, begun, rows, Without(rows, schedule));
      DeleteIsValid(rows, nextId, begun, deleted, due, schedule, Without(rows, schedule));
      rows := Without(rows, schedule);
      deleted := deleted + {schedule};
    }

    /** The API's deletion, if nothing comes between: the running occurrence stopped first. */
    method Delete(schedule: string, world: World) returns (ok: bool)
      requires Valid() && Accounted()
      modifies this`rows, this`lives, this`calls, this`deleted, this`deeds
      ensures Valid() && Accounted() && old(deeds) <= deeds
      ensures deleted == if ok then old(deleted) + {schedule} else old(deleted)
      ensures ok ==> forall id :: id in rows ==> rows[id].scheduleId != schedule
      ensures ok ==> if RunningOf(old(rows), schedule) == {} then calls == old(calls)
                     else exists id :: id in RunningOf(old(rows), schedule)
                                       && calls == old(calls) + Stops(old(rows)[id].targets)
    {
      hide StateValid, Accounts, Stops, RunningOf;
      var stopped: bool;
      ok, stopped := StopNow(schedule, world);
      if ok { ok := Drop(schedule); }
    }

    /** Any run of ticks, stops and deletions, each cut short anywhere and the
        scheduler started again, starts no occurrence twice; and all that nodes are asked
        is to start those, each with what it wants, or to stop what came of it. */
    method RunAll(ops: seq<Op>, world: World)
      requires Valid() && Accounted() && Current() && Feasible(ops, rules, zone, clock, deleted)
      modifies this
      ensures Valid() && old(begun) <= begun && NoRepeats(begun)
      ensures old(deeds) <= deeds && calls == Told(deeds) && begun == BegunIn(deeds) && RecordValid(deeds)
      ensures clock == ClockAfter(ops, old(clock))
    {
      hide DueAt, Accounts, AreStarts, StateValid, SteadyAll, Stored, AsksOnly, AreStopped, AreStarted, OngoingKept,
           OnTime, AllRecorded, IsLeastEnd, WakeTime, NewAreBegun, NoneEndsBefore, NoWindowEndsBefore, AtMost,
           WantAtMost, TickNeeds, RunningOf, OthersKept, Stops;
      var i := 0;
      while i < |ops|
        invariant 0 <= i <= |ops| && Valid() && Accounted() && Current() && old(begun) <= begun && old(deeds) <= deeds
        invariant Feasible(ops[i..], rules, zone, clock, deleted)
        invariant ClockAfter(ops[i..], clock) == ClockAfter(ops, old(clock))
      {
        match ops[i] {
          case TickOp(now, schedules, presets, n) =>
            lives := n;
            var _ := Tick(now, schedules, presets, world, 0);
          case StopOp(schedule, n) =>
            lives := n;
            var _, _ := StopNow(schedule, world);
          case DropOp(schedule, n) =>
            lives := n;
            var _ := Drop(schedule);
        }
        i := i + 1;
      }
      AccountsAre(deeds, calls, begun, rows);
      NoneIsRepeated(rows, nextId, begun, deleted, due);
    }
  }

  function Daily(d: Date): Schedule {
    Schedule("daily", true, Some(DailyRule()), Some(Naive(DailyRule(), d)), [Playout("node", "channel", None, true)])
  }

  ghost predicate RunsFrom(rows: Table, id: RunId, start: Instant) {
    id in RunningOf(rows, "daily") && rows[id].plannedStart == start
    && rows[id].plannedEnd == Some(WindowEnd(DailyRule(), start))
  }

  /** A tick that's not cut short, the lead before it's due, starts an occurrence without a row. */
  lemma DailyIsStarted(d: Date, e: Date, found: string -> Option<Instant>, before: Table, rows: Table, asked: seq<Deed>,
                       world: World)
    requires d <= e && found("daily") == Some(Naive(DailyRule(), e)) && !Exists(before, "daily", Naive(DailyRule(), e))
    requires AreStarted([Daily(d)], found, Naive(DailyRule(), e) - LEAD, before, rows, asked, {}, world)
    requires forall i :: world.reply(i).Success?
    ensures exists id :: RunsFrom(rows, id, Naive(DailyRule(), e))
  {
    var s, start := Daily(d), Naive(DailyRule(), e);
    assert [s][0] == s;
    assert IsStarted(s, start, asked, rows, {}, world);
    var i, id :| 0 <= i < |asked| && IsFullStart(asked[i], s, start, {}, world)
                 && id in rows && IsRowOf(rows[id], (s.id, start), DailyRule(), asked[i].targets);
    var calls :| Answered(asked[i], calls, world);
    OnePlayoutStarts(d, calls, asked[i].leadUs, world);
    assert RunsFrom(rows, id, start);
  }

  lemma OnePlayoutStarts(d: Date, calls: seq<Call>, leadUs: int, world: World)
    requires forall i :: world.reply(i).Success?
    ensures Wants(Daily(d), {}) == [Played("node", "channel", None, true)]
    ensures var targets := StartAll([Played("node", "channel", None, true)], calls, leadUs, world).0;
            !AllFailed(targets)
  {
    var w := [Played("node", "channel", None, true)];
    assert w[..0] == [];
    assert StartAll(w, calls, leadUs, world).0 == [TargetFor(w[0], world.reply(|calls|))];
    assert StartAll(w, calls, leadUs, world).0[0].error.None?;
    assert Daily(d).actions[1..] == [];
    assert RecordingsOf(Daily(d).actions, {}) == [] && PlayoutsOf(Daily(d).actions) == w;
  }

  lemma NotYetThere(rows: Table, nextId: RunId, begun: seq<Occurrence>, deleted: set<string>,
                    due: string -> Option<Instant>, schedule: string, start: Instant)
    requires StateValid(rows, nextId, begun, deleted, due) && due(schedule).Some? && due(schedule).value < start
    ensures !Exists(rows, schedule, start)
  {
  }

  lemma StillOn(a: Table, b: Table, now: Instant, id: RunId, start: Instant)
    requires RunsFrom(a, id, start) && OngoingKept(a, b, now) && now < WindowEnd(DailyRule(), start)
    ensures RunsFrom(b, id, start)
  {
  }

  lemma DailyIsFoundAt(rules: string -> Rule, e: Date)
    requires forall s :: rules(s) == DailyRule()
    ensures DueAt(rules, Unset(), Naive(DailyRule(), e) - LEAD)("daily") == Some(Naive(DailyRule(), e))
    ensures SteadyAll(rules, Unset(), Naive(DailyRule(), e) - LEAD)
  {
    hide LatestAtOrBefore, Unset, DailyRule, Naive;
    DailyIsFound(e);
    var r, z, now := DailyRule(), Unset(), Naive(DailyRule(), e) - LEAD;
    UnsetIsSteady(r);
    hide r.Valid, z.Valid, z.Steady;
    forall s ensures rules(s).Valid() && z.Valid() && z.Steady(now + LEAD) { }
  }

  lemma NextDayIsLater(d: Date)
    ensures Naive(DailyRule(), d) < Naive(DailyRule(), d + 1)
  {
  }

  lemma DailyIsStored(d: Date, rules: string -> Rule, deleted: set<string>)
    requires "daily" !in deleted && forall k :: rules(k) == DailyRule()
    ensures Stored([Daily(d)], rules, deleted)
  {
  }

  lemma DailyWantsOne(d: Date)
    ensures WantAtMost([Daily(d)], {}, 1)
  {
    WantsAreTheActions(Daily(d), {});
  }

  ghost predicate AllDaily(s: Scheduler)
    reads s
  {
    && s.Valid() && s.Accounted() && s.Current() && s.zone == Unset() && "daily" !in s.deleted
    && forall k :: s.rules(k) == DailyRule()
  }

  method TickDaily(s: Scheduler, d: Date, e: Date, lives: nat, world: World) returns (done: bool)
    requires AllDaily(s) && d <= e && s.clock <= Naive(DailyRule(), e) - LEAD
    requires !Exists(s.rows, "daily", Naive(DailyRule(), e)) && forall i :: world.reply(i).Success?
    modifies s
    ensures AllDaily(s) && s.clock == Naive(DailyRule(), e) - LEAD
    ensures AtMost(old(s.rows), 1) && lives >= TickNeeds(|RunningIds(old(s.rows))|, 1, 1) ==> done
    ensures done ==>
              && (exists id :: RunsFrom(s.rows, id, Naive(DailyRule(), e)))
              && OngoingKept(old(s.rows), s.rows, s.clock) && s.due("daily") == Some(Naive(DailyRule(), e))
  {
    var now := Naive(DailyRule(), e) - LEAD;
    DailyIsFoundAt(s.rules, e);
    DailyIsStored(d, s.rules, s.deleted);
    DailyWantsOne(d);
    hide LatestAtOrBefore, DueAt, SteadyAll, StateValid, Accounts, AreStarts, WakeTime, AsksOnly, AreStopped,
         AreStarted, OngoingKept, NoneEndsBefore, NoWindowEndsBefore, AllRecorded, OnTime, NewAreBegun, IsLeastEnd,
         RunsFrom, Naive, Stored, Daily, DailyRule, Unset, Exists, AtMost, WantAtMost,
         TickNeeds;
    s.lives := lives;
    ghost var rows0, deeds0 := s.rows, s.deeds;
    var r := s.Tick(now, [Daily(d)], {}, world, 1);
    done := r.Some?;
    if done { DailyIsStarted(d, e, DueAt(s.rules, s.zone, now), rows0, s.rows, s.deeds[|deeds0|..], world); }
  }

  lemma FirstNeeds()
    ensures AtMost(map[], 1) && TickNeeds(|RunningIds(map[])|, 1, 1) == 7
  {
    assert RunningIds(map[]) == {};
  }

  /** A scheduler of that schedule, before its occurrence of day `d`. */
  method NewDaily(d: Date) returns (s: Scheduler)
    ensures AllDaily(s) && fresh(s) && s.clock == Naive(DailyRule(), d) - LEAD && s.rows == map[]
    ensures !Exists(s.rows, "daily", Naive(DailyRule(), d))
  {
    ghost var rules := (_: string) => DailyRule();
    DailyIsFoundAt(rules, d);
    hide SteadyAll, StateValid, Accounts, AreStarts, DueAt, Unset, DailyRule, Naive;
    s := new Scheduler(Unset(), rules, Naive(DailyRule(), d) - LEAD);
  }

  lemma NextIsNotThere(s: Scheduler, d: Date)
    requires AllDaily(s) && s.due("daily") == Some(Naive(DailyRule(), d))
    ensures !Exists(s.rows, "daily", Naive(DailyRule(), d + 1))
    ensures Naive(DailyRule(), d) < Naive(DailyRule(), d + 1)
  {
    NextDayIsLater(d);
    NotYetThere(s.rows, s.nextId, s.begun, s.deleted, s.due, "daily", Naive(DailyRule(), d + 1));
  }

  /** So two of its runs can go on at once: if two ticks, when they're due, aren't cut short and
      the node does as it's asked, both runs' rows are running. */
  method DailyRunsOverlap(d: Date, lives: nat, world: World) returns (s: Scheduler, first: bool, second: bool)
    requires forall i :: world.reply(i).Success?
    ensures first && second ==>
              exists a, b :: a in RunningOf(s.rows, "daily") && b in RunningOf(s.rows, "daily") && a != b
    ensures lives >= 7 ==> first
  {
    ghost var a, b := Naive(DailyRule(), d), Naive(DailyRule(), d + 1);
    DailyRunsCanOverlap(d);
    FirstNeeds();
    hide *;
    second := false;
    s := NewDaily(d);
    first := TickDaily(s, d, d, lives, world);
    if first {
      ghost var x :| RunsFrom(s.rows, x, a);
      ghost var rows1 := s.rows;
      NextIsNotThere(s, d);
      second := TickDaily(s, d, d + 1, lives, world);
      if second {
        ghost var y :| RunsFrom(s.rows, y, b);
        StillOn(rows1, s.rows, b - LEAD, x, a);
        Apart(s.rows, x, a, y, b);
      }
    }
  }

  lemma Apart(rows: Table, x: RunId, a: Instant, y: RunId, b: Instant)
    requires RunsFrom(rows, x, a) && RunsFrom(rows, y, b) && a != b
    ensures x in RunningOf(rows, "daily") && y in RunningOf(rows, "daily") && x != y
  {
  }

  lemma NoneIsRepeated(rows: Table, nextId: RunId, begun: seq<Occurrence>, deleted: set<string>,
                       due: string -> Option<Instant>)
    requires StateValid(rows, nextId, begun, deleted, due)
    ensures NoRepeats(begun)
  {
  }

  lemma AccountsAre(deeds: seq<Deed>, calls: seq<Call>, begun: seq<Occurrence>, rows: Table)
    requires Accounts(deeds, calls, begun, rows)
    ensures calls == Told(deeds) && begun == BegunIn(deeds) && RecordValid(deeds)
  {
  }

  /** What happens to the scheduler, and how much of it before it's cut short. Deleting a
      schedule is a stop and then a drop, with anything in between. */
  datatype Op =
    | TickOp(now: Instant, schedules: seq<Schedule>, presets: set<string>, lives: nat)
    | StopOp(schedule: string, lives: nat)
    | DropOp(schedule: string, lives: nat)

  /** The last tick's time. */
  function ClockAfter(ops: seq<Op>, clock: Instant): Instant {
    if ops == [] then clock else ClockAfter(ops[1..], if ops[0].TickOp? then ops[0].now else clock)
  }

  /** The clock never goes back nor is near where it's set back by a day, and the schedules
      listed are those stored. */
  ghost predicate Feasible(ops: seq<Op>, rules: string -> Rule, zone: Zone, clock: Instant, deleted: set<string>) {
    ops == [] ||
    match ops[0]
    case TickOp(now, schedules, _, _) =>
      && clock <= now && SteadyAll(rules, zone, now) && Stored(schedules, rules, deleted)
      && Feasible(ops[1..], rules, zone, now, deleted)
    case StopOp(_, _) => Feasible(ops[1..], rules, zone, clock, deleted)
    case DropOp(s, _) =>
      Feasible(ops[1..], rules, zone, clock, deleted) && Feasible(ops[1..], rules, zone, clock, deleted + {s})
  }

  /** The schedules the database lists: keys differ, none was deleted, and none's rule changed. */
  ghost predicate Stored(schedules: seq<Schedule>, rules: string -> Rule, deleted: set<string>) {
    && (forall i, j :: 0 <= i < j < |schedules| ==> schedules[i].id != schedules[j].id)
    && (forall i :: 0 <= i < |schedules| ==>
          && schedules[i].id !in deleted
          && (schedules[i].rule.Some? ==> schedules[i].rule.value == rules(schedules[i].id)))
  }

  // ----- what it takes -----

  /** Something that takes at most `needs` operations took no more, and wasn't cut short with that many left. */
  predicate Enough(before: nat, after: nat, needs: nat, ok: bool) {
    after <= before <= after + needs && (before >= needs ==> ok)
  }

  lemma EnoughFor(a: nat, b: nat, n: nat, m: nat, ok: bool)
    requires Enough(a, b, n, ok) && n <= m
    ensures Enough(a, b, m, ok)
  {
  }

  lemma EnoughThen(a: nat, b: nat, c: nat, n: nat, m: nat, ok: bool)
    requires Enough(a, b, n, true) && Enough(b, c, m, ok)
    ensures Enough(a, c, n + m, ok)
  {
  }

  /** No run has noted more targets. */
  ghost predicate AtMost(rows: Table, most: nat) { forall id :: id in rows ==> |rows[id].targets| <= most }

  ghost predicate WantAtMost(schedules: seq<Schedule>, presets: set<string>, most: nat) {
    forall i :: 0 <= i < |schedules| ==> |Wants(schedules[i], presets)| <= most
  }

  /** Two lists, each running row stopped and marked, and each schedule's occurrence looked up, inserted,
      asked for and noted. */
  function TickNeeds(running: nat, schedules: nat, most: nat): nat {
    StopsCost(running, most + 2) + 1 + Cost(schedules, most + 4)
  }

  lemma StopsAreFew(targets: seq<Target>)
    ensures |Stops(targets)| <= |targets|
  {
    FewerMapped(StopFor, targets);
  }

  lemma {:induction false} FewerMapped(f: Target -> Option<Call>, xs: seq<Target>)
    ensures |FilterMap(f, xs)| <= |xs|
  {
    if xs != [] { FewerMapped(f, xs[1..]); }
  }

  function Cost(n: nat, each: nat): nat { n * each }

  /** One list, and so much for each run. */
  function StopsCost(n: nat, each: nat): nat { 1 + Cost(n, each) }

  predicate Spent(before: nat, after: nat, n: nat, each: nat) { after <= before <= after + StopsCost(n, each) }

  lemma FirstSpent(before: nat, after: nat, all: nat, each: nat, ok: bool)
    requires (ok <==> before > 0) && before == after + if ok then 1 else 0
    ensures if ok then Spent(before, after, 0, each) else Enough(before, after, StopsCost(all, each), ok)
  {
  }

  lemma MoreSpent(before: nat, mid: nat, after: nat, n: nat, all: nat, each: nat, ok: bool)
    requires Spent(before, mid, n, each) && Enough(mid, after, each, ok) && n < all
    ensures Spent(before, after, n + 1, each) && (!ok ==> Enough(before, after, StopsCost(all, each), ok))
  {
    hide Cost;
    CostsMore(n, all, each);
  }

  lemma AllSpent(before: nat, after: nat, all: nat, each: nat)
    requires Spent(before, after, all, each)
    ensures Enough(before, after, StopsCost(all, each), true)
  {
  }

  lemma NothingCosts(each: nat)
    ensures Cost(0, each) == 0
  {
  }

  lemma CostsMore(n: nat, all: nat, each: nat)
    requires n < all
    ensures Cost(n, each) + each == Cost(n + 1, each) <= Cost(all, each)
    decreases all
  {
    Distribute(n, 1, each);
    Distribute(n + 1, all - (n + 1), each);
  }

  lemma Distribute(n: nat, m: nat, each: nat)
    ensures (n + m) * each == n * each + m * each && m * each >= 0
  {
  }

  /** `most` if it bounds them all, or else something that does. */
  lemma TheMost(rows: Table, schedules: seq<Schedule>, presets: set<string>, most: nat) returns (big: nat)
    ensures AtMost(rows, big) && WantAtMost(schedules, presets, big)
    ensures AtMost(rows, most) && WantAtMost(schedules, presets, most) ==> big == most
  {
    if AtMost(rows, most) && WantAtMost(schedules, presets, most) { return most; }
    var a := MostTargets(rows, rows.Keys);
    var b := MostWanted(schedules, presets);
    big := a + b;
  }

  lemma {:induction false} MostTargets(rows: Table, ids: set<RunId>) returns (most: nat)
    requires ids <= rows.Keys
    ensures forall id :: id in ids ==> |rows[id].targets| <= most
  {
    most := 0;
    if ids != {} {
      var id :| id in ids;
      var rest := MostTargets(rows, ids - {id});
      most := rest + |rows[id].targets|;
    }
  }

  lemma {:induction false} MostWanted(schedules: seq<Schedule>, presets: set<string>) returns (most: nat)
    ensures WantAtMost(schedules, presets, most)
  {
    most := 0;
    if schedules != [] {
      var rest := MostWanted(schedules[1..], presets);
      most := rest + |Wants(schedules[0], presets)|;
      forall i | 0 <= i < |schedules| ensures |Wants(schedules[i], presets)| <= most {
        if i > 0 { assert schedules[1..][i - 1] == schedules[i]; }
      }
    }
  }

  // ----- what a tick asks for -----

  /** A run is over, or was never to end. */
  predicate Overdue(run: Run, now: Instant) {
    run.status == Running && (run.plannedEnd.None? || run.plannedEnd.value <= now)
  }

  ghost predicate IsStopOf(d: Deed, rows: Table, now: Instant) {
    d.ToStop? && exists id ::
      id in rows && Overdue(rows[id], now) && d.o == Of(rows[id]) && d.targets == rows[id].targets
  }

  /** All that's asked is to stop runs that are over. */
  ghost predicate OnlyStops(asked: seq<Deed>, rows: Table, now: Instant) {
    forall i :: 0 <= i < |asked| ==> IsStopOf(asked[i], rows, now)
  }

  /** Every run that's over, but for `todo`, was asked to stop, all that it noted. */
  ghost predicate AreStopped(asked: seq<Deed>, rows: Table, todo: set<RunId>, now: Instant) {
    forall id :: id in rows && id !in todo && Overdue(rows[id], now) ==>
      ToStop(Of(rows[id]), rows[id].targets, Stops(rows[id].targets)) in asked
  }

  /** What's asked for one run: nothing unless it's over, and then to stop what it noted. */
  ghost predicate StopsIfOver(asked: seq<Deed>, run: Run, now: Instant, done: bool) {
    if !Overdue(run, now) then asked == []
    else |asked| == 1 && asked[0].ToStop? && asked[0].o == Of(run) && asked[0].targets == run.targets
         && (done ==> asked[0].sent == Stops(run.targets))
  }

  /** Rows yet to be looked at are as they were. */
  ghost predicate ToLookAt(a: Table, b: Table, todo: set<RunId>) {
    forall id :: id in todo ==> id in a && a[id].status == Running && id in b && b[id] == a[id]
  }

  /** The same rows, but that runs that are over may have been asked to stop. */
  ghost predicate OnlyStopped(a: Table, b: Table, asked: seq<Deed>, now: Instant) {
    && SameOccurrences(a, b) && OnlyStops(asked, a, now)
    && forall id :: id in a && !Overdue(a[id], now) ==> b[id] == a[id]
  }

  lemma IsToLookAt(a: Table, b: Table, todo: set<RunId>, id: RunId)
    requires ToLookAt(a, b, todo) && id in todo
    ensures id in a && id in b && b[id] == a[id] && b[id].status == Running
  {
  }

  lemma SameToBegin(rows: Table, todo: set<RunId>, now: Instant)
    requires todo == RunningIds(rows)
    ensures ToLookAt(rows, rows, todo) && OnlyStopped(rows, rows, [], now) && AreStopped([], rows, todo, now)
    ensures Handled(rows, todo, now, now + IDLE) && SomeEnd(rows, todo, now, now + IDLE)
  {
  }

  lemma OneStopped(a: Table, b: Table, c: Table, asked: seq<Deed>, more: seq<Deed>, todo: set<RunId>, id: RunId,
                   now: Instant, done: bool)
    requires ToLookAt(a, b, todo) && OnlyStopped(a, b, asked, now) && AreStopped(asked, a, todo, now) && id in todo
    requires SameOccurrences(b, c) && forall o :: o in b && o != id ==> c[o] == b[o]
    requires !Overdue(b[id], now) ==> b == c
    requires StopsIfOver(more, b[id], now, done)
    ensures OnlyStopped(a, c, asked + more, now)
    ensures done ==> ToLookAt(a, c, todo - {id}) && AreStopped(asked + more, a, todo - {id}, now)
  {
    hide Stops, Overdue;
    SameOccurrencesStill(a, b, c);
    if done { MoreAreStopped(asked, more, a, todo, id, now); }
  }

  lemma MoreAreStopped(asked: seq<Deed>, more: seq<Deed>, rows: Table, todo: set<RunId>, id: RunId, now: Instant)
    requires AreStopped(asked, rows, todo, now) && id in rows && StopsIfOver(more, rows[id], now, true)
    ensures AreStopped(asked + more, rows, todo - {id}, now)
  {
    hide Stops, Overdue;
    forall o | o in rows && o !in todo - {id} && Overdue(rows[o], now)
      ensures ToStop(Of(rows[o]), rows[o].targets, Stops(rows[o].targets)) in asked + more
    {
      if o == id { assert more[0] in asked + more; }
    }
  }

  /** Nodes are asked to start an occurrence of a schedule, with what it wants. */
  ghost predicate IsStartOf(d: Deed, s: Schedule, start: Instant, presets: set<string>) {
    d.ToStart? && d.o == (s.id, start) && d.wanted == Wants(s, presets)
  }

  /** All that's asked is to start a schedule's latest occurrence. */
  ghost predicate StartsOnly(asked: seq<Deed>, s: Schedule, found: string -> Option<Instant>, presets: set<string>) {
    forall i :: 0 <= i < |asked| ==> IsStartIn(asked[i], s, found, presets)
  }

  ghost predicate IsStartIn(d: Deed, s: Schedule, found: string -> Option<Instant>, presets: set<string>) {
    s.enabled && s.rule.Some? && found(s.id).Some? && IsStartOf(d, s, found(s.id).value, presets)
  }

  ghost predicate OnlyStarts(asked: seq<Deed>, schedules: seq<Schedule>, found: string -> Option<Instant>,
                             presets: set<string>)
  {
    forall i :: 0 <= i < |asked| ==>
      exists k :: 0 <= k < |schedules| && IsStartIn(asked[i], schedules[k], found, presets)
  }

  /** Everything wanted was asked for, and answered. */
  ghost predicate InFull(d: Deed, world: World) {
    d.ToStart? && d.sent == Requests(d.wanted, d.leadUs)
    && exists before :: Answered(d, before, world)
  }

  /** The answers to a start's requests, sent after those before. */
  ghost predicate Answered(d: Deed, before: seq<Call>, world: World)
    requires d.ToStart?
  {
    (d.targets, before + d.sent) == StartAll(d.wanted, before, d.leadUs, world)
    && d.leadUs == LeadUs(d.o.1 - world.clock(|before|))
  }

  /** A started run's row: when it ends, what came of starting it, and how it is. */
  ghost predicate IsRowOf(run: Run, o: Occurrence, rule: Rule, targets: seq<Target>) {
    && Of(run) == o && run.targets == targets
    && run.plannedEnd == (if rule.duration.Some? then Some(WindowEnd(rule, o.1)) else None)
    && run.status == StartedStatus(targets, run.plannedEnd.Some?)
  }

  /** Nodes were asked for all that a schedule's actions say, and answered. */
  ghost predicate IsFullStart(d: Deed, s: Schedule, start: Instant, presets: set<string>, world: World) {
    && IsStartOf(d, s, start, presets) && InFull(d, world)
    && AsksForTheActions(d.sent, s.actions, presets, d.leadUs)
  }

  /** The occurrence was started in full, and its row says so. */
  ghost predicate IsStarted(s: Schedule, start: Instant, asked: seq<Deed>, rows: Table, presets: set<string>,
                            world: World)
  {
    exists i, id ::
      && 0 <= i < |asked| && IsFullStart(asked[i], s, start, presets, world)
      && id in rows && s.rule.Some? && IsRowOf(rows[id], (s.id, start), s.rule.value, asked[i].targets)
  }

  lemma IsStartedNow(s: Schedule, start: Instant, d: Deed, rows: Table, id: RunId, presets: set<string>, world: World)
    requires IsStartOf(d, s, start, presets) && InFull(d, world)
    requires id in rows && s.rule.Some? && IsRowOf(rows[id], (s.id, start), s.rule.value, d.targets)
    ensures IsStarted(s, start, [d], rows, presets, world)
  {
    assert [d][0] == d;
    RequestsAreTheActions(s, presets, d.leadUs);
  }

  lemma NothingToStop()
    ensures Stops([]) == []
  {
  }

  /** The occurrence's row says it was missed, and nothing was started. */
  ghost predicate IsSkipped(o: Occurrence, rows: Table) {
    exists id :: id in rows && Of(rows[id]) == o && rows[id].status == Skipped && rows[id].targets == []
  }

  /** A schedule's latest occurrence, if it's due and has no row, is started, or noted as missed if
      its window is over. */
  ghost predicate StartsIfWanted(s: Schedule, found: string -> Option<Instant>, now: Instant, before: Table,
                                 rows: Table, asked: seq<Deed>, presets: set<string>, world: World)
  {
    s.enabled && s.rule.Some? && IsDue(s, found(s.id), now) && !Exists(before, s.id, found(s.id).value) ==>
      if now < WindowEnd(s.rule.value, found(s.id).value)
      then IsStarted(s, found(s.id).value, asked, rows, presets, world)
      else IsSkipped((s.id, found(s.id).value), rows)
  }

  ghost predicate AreStarted(schedules: seq<Schedule>, found: string -> Option<Instant>, now: Instant, before: Table,
                             rows: Table, asked: seq<Deed>, presets: set<string>, world: World)
  {
    forall i :: 0 <= i < |schedules| ==> StartsIfWanted(schedules[i], found, now, before, rows, asked, presets, world)
  }

  /** First runs that are over are stopped, then schedules' latest occurrences started, and no more. */
  ghost predicate AsksOnly(asked: seq<Deed>, rows: Table, schedules: seq<Schedule>, found: string -> Option<Instant>,
                           presets: set<string>, now: Instant)
  {
    exists stops, starts ::
      asked == stops + starts && OnlyStops(stops, rows, now) && OnlyStarts(starts, schedules, found, presets)
  }

  lemma NoStarts(stops: seq<Deed>, rows: Table, schedules: seq<Schedule>, found: string -> Option<Instant>,
                 presets: set<string>, now: Instant)
    requires exists after :: OnlyStopped(rows, after, stops, now)
    ensures OnlyStops(stops, rows, now) && AsksOnly(stops, rows, schedules, found, presets, now)
  {
    assert stops == stops + [];
    assert OnlyStarts([], schedules, found, presets);
  }

  lemma StopsThenStarts(stops: seq<Deed>, starts: seq<Deed>, rows: Table, schedules: seq<Schedule>,
                        found: string -> Option<Instant>, presets: set<string>, now: Instant)
    requires OnlyStops(stops, rows, now) && OnlyStarts(starts, schedules, found, presets)
    ensures AsksOnly(stops + starts, rows, schedules, found, presets, now)
  {
  }

  lemma StillStopped(stops: seq<Deed>, starts: seq<Deed>, rows: Table, now: Instant)
    requires AreStopped(stops, rows, {}, now)
    ensures AreStopped(stops + starts, rows, {}, now)
  {
  }

  /** Runs going on stay as they are. */
  ghost predicate OngoingKept(a: Table, b: Table, now: Instant) {
    forall id :: id in a && a[id].status == Running && !Overdue(a[id], now) ==> id in b && b[id] == a[id]
  }

  lemma OngoingStays(a: Table, b: Table, c: Table, asked: seq<Deed>, n: RunId, now: Instant)
    requires OnlyStopped(a, b, asked, now) && OlderKept(b, c, n)
    ensures OngoingKept(a, c, now)
  {
  }

  // ----- schedule by schedule -----

  /** The same rows of one schedule. */
  ghost predicate SameRowsOf(a: Table, b: Table, schedule: string) {
    && (forall id :: id in a && a[id].scheduleId == schedule ==> id in b && b[id] == a[id])
    && (forall id :: id in b && b[id].scheduleId == schedule ==> id in a && a[id] == b[id])
  }

  /** The rows of the schedules from the `i`-th on are as they were. */
  ghost predicate YetToTick(schedules: seq<Schedule>, i: nat, a: Table, b: Table) {
    forall j :: i <= j < |schedules| ==> SameRowsOf(a, b, schedules[j].id)
  }

  lemma NoneTicked(schedules: seq<Schedule>, found: string -> Option<Instant>, now: Instant, rows: Table,
                   presets: set<string>, world: World)
    ensures OnlyStarts([], schedules, found, presets) && YetToTick(schedules, 0, rows, rows)
    ensures AreStarted(schedules[..0], found, now, rows, rows, [], presets, world)
    ensures AllRecorded(rows, schedules[..0], found, now)
  {
  }

  lemma MoreStarts(asked: seq<Deed>, more: seq<Deed>, schedules: seq<Schedule>, i: nat,
                   found: string -> Option<Instant>, presets: set<string>)
    requires OnlyStarts(asked, schedules, found, presets) && i < |schedules|
    requires StartsOnly(more, schedules[i], found, presets)
    ensures OnlyStarts(asked + more, schedules, found, presets)
  {
    hide IsStartIn;
  }

  lemma OneMoreTicked(schedules: seq<Schedule>, i: nat, found: string -> Option<Instant>, now: Instant, before: Table,
                      a: Table, b: Table, asked: seq<Deed>, more: seq<Deed>, presets: set<string>, world: World)
    requires i < |schedules| && forall j, k :: 0 <= j < k < |schedules| ==> schedules[j].id != schedules[k].id
    requires AreStarted(schedules[..i], found, now, before, a, asked, presets, world)
    requires YetToTick(schedules, i, before, a)
    requires StartsIfWanted(schedules[i], found, now, a, b, more, presets, world) && OthersKept(a, b, schedules[i].id)
    ensures AreStarted(schedules[..i + 1], found, now, before, b, asked + more, presets, world)
    ensures YetToTick(schedules, i + 1, before, b)
  {
    hide StartsIfWanted;
    forall j | 0 <= j < i + 1
      ensures StartsIfWanted(schedules[j], found, now, before, b, asked + more, presets, world)
    {
      if j < i {
        assert schedules[..i][j] == schedules[j];
        StillStarted(schedules[j], found, now, before, a, b, asked, more, schedules[i].id, presets, world);
      } else {
        StartedFromSame(schedules[i], found, now, before, a, b, asked, more, presets, world);
      }
    }
    forall j | i + 1 <= j < |schedules| ensures SameRowsOf(before, b, schedules[j].id) {
      assert schedules[j].id != schedules[i].id && SameRowsOf(before, a, schedules[j].id);
    }
  }

  lemma StillStarted(s: Schedule, found: string -> Option<Instant>, now: Instant, before: Table, a: Table, b: Table,
                     asked: seq<Deed>, more: seq<Deed>, other: string, presets: set<string>, world: World)
    requires StartsIfWanted(s, found, now, before, a, asked, presets, world) && OthersKept(a, b, other) && s.id != other
    ensures StartsIfWanted(s, found, now, before, b, asked + more, presets, world)
  {
    hide IsFullStart, StartedStatus;
    if s.enabled && s.rule.Some? && IsDue(s, found(s.id), now) && !Exists(before, s.id, found(s.id).value)
       && now < WindowEnd(s.rule.value, found(s.id).value) {
      var start := found(s.id).value;
      var i, id :| 0 <= i < |asked| && IsFullStart(asked[i], s, start, presets, world)
                   && id in a && IsRowOf(a[id], (s.id, start), s.rule.value, asked[i].targets);
      assert (asked + more)[i] == asked[i] && id in b && b[id] == a[id];
    }
  }

  lemma StartedFromSame(s: Schedule, found: string -> Option<Instant>, now: Instant, before: Table, a: Table, b: Table,
                        asked: seq<Deed>, more: seq<Deed>, presets: set<string>, world: World)
    requires StartsIfWanted(s, found, now, a, b, more, presets, world) && SameRowsOf(before, a, s.id)
    ensures StartsIfWanted(s, found, now, before, b, asked + more, presets, world)
  {
    hide IsFullStart, IsRowOf;
    if s.enabled && s.rule.Some? && IsDue(s, found(s.id), now) && !Exists(before, s.id, found(s.id).value) {
      assert !Exists(a, s.id, found(s.id).value);
    }
    if s.enabled && s.rule.Some? && IsDue(s, found(s.id), now) && !Exists(before, s.id, found(s.id).value)
       && now < WindowEnd(s.rule.value, found(s.id).value) {
      var start := found(s.id).value;
      var i, id :| 0 <= i < |more| && IsFullStart(more[i], s, start, presets, world)
                   && id in b && IsRowOf(b[id], (s.id, start), s.rule.value, more[i].targets);
      assert (asked + more)[|asked| + i] == more[i];
    }
  }

  lemma StartedAfterStops(schedules: seq<Schedule>, found: string -> Option<Instant>, now: Instant, before: Table,
                          a: Table, b: Table, stops: seq<Deed>, starts: seq<Deed>, presets: set<string>, world: World)
    requires AreStarted(schedules, found, now, a, b, starts, presets, world) && OnlyStopped(before, a, stops, now)
    ensures AreStarted(schedules, found, now, before, b, stops + starts, presets, world)
  {
    hide StartsIfWanted;
    forall i | 0 <= i < |schedules|
      ensures StartsIfWanted(schedules[i], found, now, before, b, stops + starts, presets, world)
    {
      SameOccurrencesExist(schedules[i], found, now, before, a, b, stops, starts, presets, world);
    }
  }

  lemma SameOccurrencesExist(s: Schedule, found: string -> Option<Instant>, now: Instant, before: Table, a: Table,
                             b: Table, stops: seq<Deed>, starts: seq<Deed>, presets: set<string>, world: World)
    requires StartsIfWanted(s, found, now, a, b, starts, presets, world) && SameOccurrences(before, a)
    ensures StartsIfWanted(s, found, now, before, b, stops + starts, presets, world)
  {
    hide IsFullStart, IsRowOf;
    if s.enabled && s.rule.Some? && IsDue(s, found(s.id), now) && !Exists(before, s.id, found(s.id).value) {
      assert !Exists(a, s.id, found(s.id).value);
    }
    if s.enabled && s.rule.Some? && IsDue(s, found(s.id), now) && !Exists(before, s.id, found(s.id).value)
       && now < WindowEnd(s.rule.value, found(s.id).value) {
      var start := found(s.id).value;
      var i, id :| 0 <= i < |starts| && IsFullStart(starts[i], s, start, presets, world)
                   && id in b && IsRowOf(b[id], (s.id, start), s.rule.value, starts[i].targets);
      assert (stops + starts)[|stops| + i] == starts[i];
    }
  }

  /** A schedule's due occurrence has its row. */
  ghost predicate DueIsRecorded(rows: Table, s: Schedule, due: string -> Option<Instant>, now: Instant) {
    s.enabled && s.rule.Some? && IsDue(s, due(s.id), now) ==> Exists(rows, s.id, due(s.id).value)
  }

  // ----- when to look again -----

  /** `before`, or the lead before a schedule's next start if that's sooner. */
  function Wake(s: Schedule, zone: Zone, now: Instant, before: Instant): Instant {
    if !s.enabled || s.rule.None? then before
    else
      var upcoming := NextAfter(s.rule.value, zone, now + LEAD);
      if upcoming.Some? && upcoming.value - LEAD < before then upcoming.value - LEAD else before
  }

  function WakeTime(schedules: seq<Schedule>, zone: Zone, now: Instant, before: Instant): Instant {
    if schedules == [] then before
    else Wake(schedules[|schedules| - 1], zone, now, WakeTime(schedules[..|schedules| - 1], zone, now, before))
  }

  lemma {:induction false} WakeTimeIsEarlier(schedules: seq<Schedule>, zone: Zone, now: Instant, before: Instant)
    ensures WakeTime(schedules, zone, now, before) <= before
  {
    hide NextAfter;
    if schedules != [] { WakeTimeIsEarlier(schedules[..|schedules| - 1], zone, now, before); }
  }

  /** At a tick at `now` the search for a schedule's next start is exact. */
  ghost predicate SeesNext(s: Schedule, zone: Zone, now: Instant) {
    s.rule.Some? ==> s.rule.value.Valid() && Sees(s.rule.value, zone, now + LEAD, true)
  }

  /** A schedule asks the scheduler to look again for this start. */
  ghost predicate IsUpcoming(s: Schedule, zone: Zone, now: Instant, start: Instant) {
    s.enabled && s.rule.Some? && IsStart(s.rule.value, zone, start) && start > now + LEAD
  }

  /** Looking again then is in time, by the lead, for every start of every schedule still to come. */
  lemma WakesForEveryStart(schedules: seq<Schedule>, zone: Zone, now: Instant, before: Instant, i: nat, start: Instant)
    requires (forall s :: s in schedules ==> SeesNext(s, zone, now)) && i < |schedules|
    requires IsUpcoming(schedules[i], zone, now, start)
    ensures WakeTime(schedules, zone, now, before) <= start - LEAD
  {
    hide NextAfter, IsUpcoming, SeesNext;
    var end := WakeTime(schedules, zone, now, before) - 1;
    WakesLaterWhen(schedules, zone, now, before, end);
    assert schedules[i] in schedules;
  }

  /** The scheduler looks again after `end` exactly if nothing known when it looked for what's
      over ends by then, and no schedule has a start coming up by the lead after. */
  lemma {:induction false} WakesLaterWhen(schedules: seq<Schedule>, zone: Zone, now: Instant, before: Instant,
                                          end: Instant)
    requires forall s :: s in schedules ==> SeesNext(s, zone, now)
    ensures WakeTime(schedules, zone, now, before) > end <==>
            before > end && forall s, start :: s in schedules && IsUpcoming(s, zone, now, start) ==> start - LEAD > end
  {
    hide NextAfter, IsUpcoming, SeesNext;
    if schedules != [] {
      var n := |schedules| - 1;
      WakesLaterWhen(schedules[..n], zone, now, before, end);
      assert schedules == schedules[..n] + [schedules[n]];
      WakeIsLaterWhen(schedules[n], zone, now, WakeTime(schedules[..n], zone, now, before), end);
    }
  }

  lemma WakeIsLaterWhen(s: Schedule, zone: Zone, now: Instant, before: Instant, end: Instant)
    requires SeesNext(s, zone, now)
    ensures Wake(s, zone, now, before) > end <==>
            (before > end && forall start :: IsUpcoming(s, zone, now, start) ==> start - LEAD > end)
  {
    hide NextAfter, Sees;
    if s.enabled && s.rule.Some? {
      NextAfterIsNext(s.rule.value, zone, now + LEAD);
      var next := NextAfter(s.rule.value, zone, now + LEAD);
      assert next.Some? ==> IsUpcoming(s, zone, now, next.value);
    }
  }

  /** A run that starts in a tick isn't in its wake time. With one schedule, a one-off that's
      due, its end goes by before the scheduler looks again exactly if it's within a minute:
      however long its window was, if it's noticed late. */
  lemma ShortRunEndsBeforeWake(s: Schedule, zone: Zone, rule: Rule, start: Instant, now: Instant)
    requires s.rule == Some(rule) && rule.kind == Once && SeesNext(s, zone, now)
    requires StartOn(rule, zone, rule.date.value) == Some(start) && start <= now + LEAD
    ensures WakeTime([s], zone, now, now + IDLE) > WindowEnd(rule, start) <==> WindowEnd(rule, start) < now + IDLE
  {
    WakesLaterWhen([s], zone, now, now + IDLE, WindowEnd(rule, start));
    forall at ensures !IsUpcoming(s, zone, now, at) { }
  }

  function WindowEnd(rule: Rule, start: Instant): Instant {
    start + if rule.duration.Some? then rule.duration.value * SECOND else NO_END_GRACE
  }

  /** An occurrence came due whose window wasn't over when the schedule was saved. */
  predicate IsDue(s: Schedule, start: Option<Instant>, now: Instant)
    requires s.rule.Some?
  {
    start.Some? && WindowEnd(s.rule.value, start.value) > if s.saved.Some? then s.saved.value else now
  }

  /** The same rows, of the same occurrences. */
  ghost predicate SameOccurrences(a: Table, b: Table) {
    a.Keys == b.Keys
    && forall id :: id in a ==>
      && a[id].scheduleId == b[id].scheduleId
      && a[id].plannedStart == b[id].plannedStart
      && a[id].plannedEnd == b[id].plannedEnd
      && (b[id].status == Running ==> a[id].status == Running)
  }

  lemma SameOccurrencesStill(a: Table, b: Table, c: Table)
    requires SameOccurrences(a, b) && SameOccurrences(b, c)
    ensures SameOccurrences(a, c)
  {
  }

  /** Whatever runs, but for `todo`, ends after `now` and not before `next`. */
  ghost predicate Handled(rows: Table, todo: set<RunId>, now: Instant, next: Instant) {
    forall id :: id in rows && rows[id].status == Running && id !in todo ==>
      rows[id].plannedEnd.Some? && now < rows[id].plannedEnd.value && next <= rows[id].plannedEnd.value
  }

  ghost predicate AllRecorded(rows: Table, schedules: seq<Schedule>, due: string -> Option<Instant>, now: Instant) {
    forall i :: 0 <= i < |schedules| ==> DueIsRecorded(rows, schedules[i], due, now)
  }

  ghost predicate OthersKept(a: Table, b: Table, schedule: string) {
    && (forall id :: id in a && a[id].scheduleId != schedule ==> id in b && b[id] == a[id])
    && (forall id :: id in b && b[id].scheduleId != schedule ==> id in a && a[id] == b[id])
  }

  /** Of the rows from key `n` on, one that runs is of occurrence `o`, and ends at `end`. */
  ghost predicate NewIs(rows: Table, n: RunId, o: Occurrence, end: Instant) {
    forall id :: id in rows && id >= n && rows[id].status == Running ==>
      (rows[id].scheduleId, rows[id].plannedStart) == o && rows[id].plannedEnd == Some(end)
  }

  /** Of the rows from key `n` on, one that runs is of an occurrence begun, and ends with its window. */
  ghost predicate NewAreBegun(rows: Table, n: RunId, begun: seq<Occurrence>, rules: string -> Rule) {
    forall id :: id in rows && id >= n && rows[id].status == Running ==>
      && (rows[id].scheduleId, rows[id].plannedStart) in begun
      && rows[id].plannedEnd == Some(WindowEnd(rules(rows[id].scheduleId), rows[id].plannedStart))
  }

  lemma NoneIsNew(rows: Table, nextId: RunId, begun: seq<Occurrence>, deleted: set<string>,
                  due: string -> Option<Instant>, rules: string -> Rule)
    requires StateValid(rows, nextId, begun, deleted, due)
    ensures NewAreBegun(rows, nextId, [], rules) && OlderKept(rows, rows, nextId)
  {
  }

  lemma OlderStaysKept(a: Table, b: Table, c: Table, n: RunId, m: RunId)
    requires OlderKept(a, b, n) && OlderKept(b, c, m) && n <= m
    ensures OlderKept(a, c, n)
  {
  }

  lemma NewStillBegun(a: Table, b: Table, n: RunId, m: RunId, before: seq<Occurrence>, after: seq<Occurrence>, k: nat,
                      rules: string -> Rule)
    requires k <= |before| && before <= after && n <= m && OlderKept(a, b, m)
    requires NewAreBegun(a, n, before[k..], rules) && NewAreBegun(b, m, after[|before|..], rules)
    ensures NewAreBegun(b, n, after[k..], rules)
  {
    assert after[k..] == before[k..] + after[|before|..];
  }

  /** Older rows aren't changed, and none that runs is dropped. */
  ghost predicate OlderKept(a: Table, b: Table, n: RunId) {
    && (forall id :: id in b && id < n ==> id in a && b[id] == a[id])
    && (forall id :: id in a && a[id].status == Running ==> id in b && b[id] == a[id])
  }

  lemma OthersStayRecorded(a: Table, b: Table, schedules: seq<Schedule>, s: Schedule, due: string -> Option<Instant>,
                           now: Instant)
    requires AllRecorded(a, schedules, due, now) && DueIsRecorded(b, s, due, now)
    requires forall i :: 0 <= i < |schedules| ==> schedules[i].id != s.id
    requires OthersKept(a, b, s.id)
    ensures AllRecorded(b, schedules + [s], due, now)
  {
  }

  /** Whatever runs ends after `now`. */
  ghost predicate OnTime(rows: Table, now: Instant) {
    forall id :: id in rows && rows[id].status == Running ==>
      rows[id].plannedEnd.Some? && rows[id].plannedEnd.value > now
  }

  /** `next` is a minute from `now`, or some run's end if that's sooner. */
  ghost predicate SomeEnd(rows: Table, todo: set<RunId>, now: Instant, next: Instant) {
    next == now + IDLE ||
    exists id :: id in rows && id !in todo && rows[id].status == Running && rows[id].plannedEnd == Some(next)
  }

  /** The soonest that a run with a key before `n` ends, or a minute from `now` if that's sooner. */
  ghost predicate IsLeastEnd(rows: Table, n: RunId, now: Instant, next: Instant) {
    && next <= now + IDLE
    && (forall id :: id in rows && id < n && rows[id].status == Running ==>
          rows[id].plannedEnd.Some? && next <= rows[id].plannedEnd.value)
    && (next == now + IDLE ||
        exists id :: id in rows && id < n && rows[id].status == Running && rows[id].plannedEnd == Some(next))
  }

  lemma LeastEndStays(a: Table, b: Table, n: RunId, now: Instant, next: Instant)
    requires Handled(a, {}, now, next) && SomeEnd(a, {}, now, next) && next <= now + IDLE && OlderKept(a, b, n)
    requires forall id :: id in a ==> id < n
    ensures IsLeastEnd(b, n, now, next)
  {
  }

  /** No run ends before `next`. */
  ghost predicate NoneEndsBefore(rows: Table, next: Instant) {
    forall id :: id in rows && rows[id].status == Running ==>
      rows[id].plannedEnd.Some? && next <= rows[id].plannedEnd.value
  }

  /** None of the runs begun since key `n` ends before `next`: their windows don't. */
  ghost predicate NoWindowEndsBefore(rows: Table, n: RunId, rules: string -> Rule, next: Instant) {
    forall id :: id in rows && id >= n && rows[id].status == Running ==>
      next <= WindowEnd(rules(rows[id].scheduleId), rows[id].plannedStart)
  }

  lemma OnlyNewEndSooner(rows: Table, n: RunId, now: Instant, before: Instant, next: Instant, begun: seq<Occurrence>,
                         rules: string -> Rule)
    requires IsLeastEnd(rows, n, now, before) && next <= before && NewAreBegun(rows, n, begun, rules)
    ensures NoneEndsBefore(rows, next) <==> NoWindowEndsBefore(rows, n, rules, next)
  {
  }
}
