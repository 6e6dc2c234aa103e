/** Rows of runs by key, and what the three statements that change them do. */
module RunTable {
  import opened Wrappers
  import opened Recurrence

  datatype Status = Running | Done | Partial | Failed | Skipped

  datatype TargetKind = Recording | Channel

  /** One source or channel of a run: which, how starting it went, and whether the end stops it. */
  datatype Target = Target(kind: TargetKind, nodeId: string, id: string, session: Option<string>,
                           error: Option<string>, stopAtEnd: bool)
  {
    /** A recording has a session unless it didn't start, and is always stopped. */
    predicate WellFormed() {
      kind == Recording ==> stopAtEnd && (session.Some? <==> error.None?)
    }
  }

  type RunId = nat

  datatype Run = Run(scheduleId: string, plannedStart: Instant, plannedEnd: Option<Instant>,
                     startedAt: Option<Instant>, stoppedAt: Option<Instant>, status: Status,
                     targets: seq<Target>)

  /** Rows by their primary key. */
  type Table = map<RunId, Run>

  /** How many of a schedule's rows the pruning keeps. */
  const KEPT: nat := 200

  /** The UNIQUE key: one row per schedule and planned start. */
  predicate UniqueKeys(t: Table) {
    forall a, b ::
      (a in t && b in t && t[a].scheduleId == t[b].scheduleId && t[a].plannedStart == t[b].plannedStart)
      ==> a == b
  }

  function Newer(t: Table, schedule: string, start: Instant): set<RunId> {
    set id | id in t && t[id].scheduleId == schedule && t[id].plannedStart > start
  }

  predicate Exists(t: Table, schedule: string, start: Instant) {
    exists id :: id in t && t[id].scheduleId == schedule && t[id].plannedStart == start
  }

  function RunningIds(t: Table): set<RunId> { set id | id in t && t[id].status == Running }

  /** The rows left of this schedule are those running and those with fewer than `KEPT` newer ones. */
  function Prune(t: Table, schedule: string): (u: Table)
    ensures UniqueKeys(t) ==> UniqueKeys(u)
    ensures forall id :: id in u ==> id in t && u[id] == t[id]
    ensures forall id :: id in t && t[id].scheduleId != schedule ==> id in u
    ensures forall id :: id in t && t[id].status == Running ==> id in u
  {
    map id | id in t && (t[id].scheduleId != schedule || t[id].status == Running
                         || |Newer(t, schedule, t[id].plannedStart)| < KEPT) :: t[id]
  }

  /** A schedule's newest run is never dropped. */
  lemma NewestIsKept(t: Table, schedule: string, id: RunId)
    requires id in t && forall o :: o in t && t[o].scheduleId == schedule ==> t[o].plannedStart <= t[id].plannedStart
    ensures id in Prune(t, schedule)
  {
    assert Newer(t, schedule, t[id].plannedStart) == {};
  }

  /** A schedule's rows. */
  function RowsOf(t: Table, schedule: string): set<RunId> { set id | id in t && t[id].scheduleId == schedule }

  /** The newest `n` of some rows, or all if there are fewer. */
  ghost predicate AreNewest(t: Table, ids: set<RunId>, newest: set<RunId>, n: nat)
    requires ids <= t.Keys
  {
    && newest <= ids && |newest| == (if |ids| < n then |ids| else n)
    && forall a, b :: a in newest && b in ids && b !in newest ==> t[a].plannedStart > t[b].plannedStart
  }

  /** Of a schedule's rows the newest are left, as many as are kept, and those running; other
      schedules' rows all are. */
  lemma PruneKeepsTheNewest(t: Table, schedule: string)
    requires UniqueKeys(t)
    ensures exists newest :: AreNewest(t, RowsOf(t, schedule), newest, KEPT)
                             && forall id :: id in Prune(t, schedule) <==>
                                  id in t && (t[id].scheduleId != schedule || t[id].status == Running || id in newest)
  {
    var ids := RowsOf(t, schedule);
    NewestAreNewest(t, ids, KEPT);
    forall id | id in ids ensures NewerOf(t, ids, t[id].plannedStart) == Newer(t, schedule, t[id].plannedStart) { }
  }

  function NewerOf(t: Table, ids: set<RunId>, start: Instant): set<RunId>
    requires ids <= t.Keys
  {
    set o | o in ids && t[o].plannedStart > start
  }

  function Newest(t: Table, ids: set<RunId>, n: nat): set<RunId>
    requires ids <= t.Keys
  {
    set id | id in ids && |NewerOf(t, ids, t[id].plannedStart)| < n
  }

  ghost predicate StartsDiffer(t: Table, ids: set<RunId>)
    requires ids <= t.Keys
  {
    forall a, b :: a in ids && b in ids && t[a].plannedStart == t[b].plannedStart ==> a == b
  }

  ghost predicate IsOldest(t: Table, rest: set<RunId>, oldest: RunId)
    requires rest <= t.Keys && oldest in t
  {
    forall o :: o in rest ==> t[oldest].plannedStart < t[o].plannedStart
  }

  /** Rows with fewer than `n` newer ones are the newest `n`. */
  lemma {:induction false} NewestAreNewest(t: Table, ids: set<RunId>, n: nat)
    requires ids <= t.Keys && StartsDiffer(t, ids)
    ensures AreNewest(t, ids, Newest(t, ids, n), n)
    decreases |ids|
  {
    if ids == {} {
      assert Newest(t, ids, n) == {};
    } else {
      hide *;
      var oldest, rest := TheOldest(t, ids);
      NewestAreNewest(t, rest, n);
      WithOldest(t, rest, oldest, n);
      OneMoreIsNewest(t, rest, oldest, Newest(t, rest, n), n);
    }
  }

  lemma TheOldest(t: Table, ids: set<RunId>) returns (oldest: RunId, rest: set<RunId>)
    requires ids <= t.Keys && StartsDiffer(t, ids) && ids != {}
    ensures oldest in t && oldest !in rest && ids == rest + {oldest} && rest <= t.Keys && |rest| < |ids|
    ensures StartsDiffer(t, rest) && IsOldest(t, rest, oldest)
  {
    oldest := Oldest(t, ids);
    rest := ids - {oldest};
  }

  lemma WithOldest(t: Table, rest: set<RunId>, oldest: RunId, n: nat)
    requires rest <= t.Keys && oldest in t && oldest !in rest && IsOldest(t, rest, oldest)
    ensures Newest(t, rest + {oldest}, n) == Newest(t, rest, n) + if |rest| < n then {oldest} else {}
  {
    var ids := rest + {oldest};
    forall id | id in rest ensures NewerOf(t, rest, t[id].plannedStart) == NewerOf(t, ids, t[id].plannedStart) { }
    assert NewerOf(t, ids, t[oldest].plannedStart) == rest;
  }

  lemma OneMoreIsNewest(t: Table, rest: set<RunId>, oldest: RunId, newest: set<RunId>, n: nat)
    requires rest <= t.Keys && oldest in t && oldest !in rest && AreNewest(t, rest, newest, n)
    requires IsOldest(t, rest, oldest)
    ensures AreNewest(t, rest + {oldest}, newest + (if |rest| < n then {oldest} else {}), n)
  {
    assert |rest + {oldest}| == |rest| + 1;
    if |rest| < n {
      assert |newest + {oldest}| == |newest| + 1;
      AllAreNewest(rest, newest);
    } else {
      assert newest + {} == newest;
    }
  }

  lemma AllAreNewest(rest: set<RunId>, newest: set<RunId>)
    requires newest <= rest && |newest| == |rest|
    ensures newest == rest
  {
    if x :| x in rest && x !in newest {
      assert newest <= rest - {x};
      SubsetSize(newest, rest - {x});
    }
  }

  function Finished(t: Table, schedule: string): set<RunId> {
    set id | id in t && t[id].scheduleId == schedule && t[id].status != Running
  }

  /** At most `KEPT` of a schedule's runs that aren't running are left. */
  lemma PruneKeepsFew(t: Table, schedule: string)
    requires UniqueKeys(t)
    ensures |Finished(Prune(t, schedule), schedule)| <= KEPT
  {
    var kept := Finished(Prune(t, schedule), schedule);
    if kept != {} {
      var oldest := Oldest(t, kept);
      assert kept - {oldest} <= Newer(t, schedule, t[oldest].plannedStart);
      SubsetSize(kept - {oldest}, Newer(t, schedule, t[oldest].plannedStart));
    }
  }

  lemma {:induction false} Oldest(t: Table, ids: set<RunId>) returns (oldest: RunId)
    requires ids != {} && ids <= t.Keys
    ensures oldest in ids && forall o :: o in ids ==> t[oldest].plannedStart <= t[o].plannedStart
  {
    oldest :| oldest in ids;
    var rest := ids - {oldest};
    if rest != {} {
      var r := Oldest(t, rest);
      assert ids == rest + {oldest};
      if t[r].plannedStart < t[oldest].plannedStart { oldest := r; }
    } else {
      assert ids == {oldest};
    }
  }

  lemma {:induction false} SubsetSize(a: set<RunId>, b: set<RunId>)
    requires a <= b
    ensures |a| <= |b|
  {
    var c := b - a;
    assert a !! c && b == a + c;
    assert |a + c| == |a| + |c|;
  }

  /** An UPDATE writes only what changes as a run goes on. */
  function Updated(t: Table, id: RunId, run: Run): (u: Table)
    requires UniqueKeys(t)
    ensures u.Keys == t.Keys && UniqueKeys(u)
    ensures forall o :: o in t ==> u[o].scheduleId == t[o].scheduleId && u[o].plannedStart == t[o].plannedStart
                                   && u[o].plannedEnd == t[o].plannedEnd
    ensures forall o :: o in t && o != id ==> u[o] == t[o]
    ensures id in t ==>
              && u[id].startedAt == run.startedAt && u[id].stoppedAt == run.stoppedAt
              && u[id].status == run.status && u[id].targets == run.targets
  {
    if id !in t then t
    else t[id := t[id].(startedAt := run.startedAt, stoppedAt := run.stoppedAt, status := run.status,
                        targets := run.targets)]
  }
}
