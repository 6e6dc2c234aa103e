/** Which count to measure next, given which passed and the least that failed: twice the best
    while none failed, then halfway, and last the best itself if it only passed quickly. */
module Search {
  import opened Wrappers

  datatype Next =
    | Measure(feeds: nat, full: bool)
    | Done(sustained: nat)

  /** A search as a value: what the methods of `Search` below change. */
  datatype State = State(limit: nat, passes: map<nat, bool>, fail: Option<nat>) {

    /** The most feeds that passed, none if none did. */
    function Best(): (b: nat)
      ensures forall n :: n in passes ==> n <= b
      ensures b in passes || (b == 0 && passes == map[])
    {
      if passes == map[] then 0 else Greatest(passes.Keys)
    }

    function Next(): Next
      requires fail.Some? ==> Best() < fail.value
    {
      var lo := Best();
      if fail.Some? && fail.value - lo > 1 then Measure(lo + (fail.value - lo) / 2, true)
      else if fail.None? && lo < limit then
        Measure(if lo == 0 then 1 else if lo * 2 < limit then lo * 2 else limit, false)
      else if lo == 0 || (lo in passes && passes[lo]) then Done(lo)
      else Measure(lo, true)
    }

    function Passed(feeds: nat, full: bool): State {
      this.(passes := passes[feeds := full || (feeds in passes && passes[feeds])])
    }

    function Failed(feeds: nat): State {
      this.(fail := Some(if fail.Some? && fail.value < feeds then fail.value else feeds),
            passes := map n | n in passes && n < feeds :: passes[n])
    }

    function Cap(feeds: nat): State {
      this.(limit := if feeds < limit then feeds else limit)
    }

    /** What every measurement keeps. */
    predicate Valid() {
      && 0 !in passes
      && (fail.Some? ==> Best() < fail.value)
      && (fail.None? ==> Best() <= limit)
    }
  }

  lemma HasGreatest(s: set<nat>)
    requires s != {}
    ensures exists g :: g in s && forall n :: n in s ==> n <= g
  {
    var x :| x in s;
    var rest := s - {x};
    if rest == {} {
      assert s == {x};
    } else {
      HasGreatest(rest);
      var g :| g in rest && forall n :: n in rest ==> n <= g;
      assert s == rest + {x};
      var m := if g < x then x else g;
      assert m in s && forall n :: n in s ==> n <= m;
    }
  }

  function Greatest(s: set<nat>): (g: nat)
    requires s != {}
    ensures g in s && forall n :: n in s ==> n <= g
  {
    HasGreatest(s);
    var g :| g in s && forall n :: n in s ==> n <= g;
    g
  }

  /** A search looks at one feed at least. */
  function Start(limit: nat): (s: State)
    ensures s.limit >= 1 && (limit >= 1 ==> s.limit == limit) && (limit == 0 ==> s.limit == 1)
  {
    State(if limit < 1 then 1 else limit, map[], None)
  }

  lemma BestIs(s: State, b: nat)
    requires b in s.passes && forall n :: n in s.passes ==> n <= b
    ensures s.Best() == b
  {
  }

  /** A count to measure is a new one, below any failure and within the limit, or
      it's the best one, not yet confirmed in full. */
  lemma NextIsUseful(s: State)
    requires s.Valid() && s.Next().Measure?
    ensures var Measure(n, full) := s.Next();
            && 0 < n && s.Best() <= n
            && (s.fail.Some? ==> n < s.fail.value)
            && (s.fail.None? ==> n <= s.limit)
            && (n == s.Best() ==> full && n in s.passes && !s.passes[n])
  {
  }

  lemma PassedIsValid(s: State, n: nat, full: bool)
    requires s.Valid() && 0 < n && s.Best() <= n
    requires if s.fail.Some? then n < s.fail.value else n <= s.limit
    ensures s.Passed(n, full).Valid() && s.Passed(n, full).Best() == n
  {
    BestIs(s.Passed(n, full), n);
  }

  lemma FailedIsValid(s: State, n: nat)
    requires s.Valid() && 0 < n
    ensures s.Failed(n).Valid() && s.Failed(n).Best() <= s.Best() && s.Failed(n).Best() < n
  {
    var t := s.Failed(n);
    if t.passes != map[] {
      assert t.Best() in t.passes && t.Best() in s.passes;
    }
  }

  lemma FailedKeepsBest(s: State, n: nat)
    requires s.Valid() && s.Best() < n
    ensures s.Failed(n).Best() == s.Best()
  {
    var t := s.Failed(n);
    if s.passes != map[] {
      assert s.Best() in t.passes;
    } else {
      assert t.passes == map[];
    }
  }

  lemma CapIsValid(s: State, n: nat)
    requires s.Valid() && s.Best() <= n
    ensures s.Cap(n).Valid() && s.Cap(n).Best() == s.Best()
  {
  }

  /** One more than the answer can be. */
  function Ceiling(s: State): nat {
    if s.fail.Some? then s.fail.value else s.limit + 1
  }

  predicate Confirmed(s: State) { s.Best() in s.passes && s.passes[s.Best()] }

  /** What's left to find out: the ceiling falls, or the gap below it narrows, or the best is confirmed. */
  predicate Narrower(t: State, s: State)
    requires s.Valid() && t.Valid()
  {
    || Ceiling(t) < Ceiling(s)
    || (Ceiling(t) == Ceiling(s) && t.Best() > s.Best())
    || (Ceiling(t) == Ceiling(s) && t.Best() == s.Best() && Confirmed(t) && !Confirmed(s))
  }

  /** Whatever a measurement says, there's less left to find out. */
  lemma MeasuringNarrows(s: State, kept: Option<bool>)
    requires s.Valid() && s.Next().Measure? && (s.Next().full && kept.Some? ==> kept.value)
    ensures var t := if kept.Some? then s.Passed(s.Next().feeds, kept.value) else s.Failed(s.Next().feeds);
            t.Valid() && Narrower(t, s)
  {
    NextIsUseful(s);
    var n := s.Next().feeds;
    if kept.Some? { PassedIsValid(s, n, kept.value); } else { FailedIsValid(s, n); }
  }

  /** Before the first failure, a cap the next count is above lowers the ceiling;
      after it, a cap changes nothing the search looks at. */
  lemma CapNarrowsUnlessFailed(s: State, n: nat)
    requires s.Valid() && s.Next().Measure? && s.Best() <= n < s.Next().feeds
    ensures s.Cap(n).Valid()
    ensures s.fail.None? ==> Narrower(s.Cap(n), s)
    ensures s.fail.Some? ==> s.Cap(n).Next() == s.Next()
  {
    NextIsUseful(s);
    CapIsValid(s, n);
  }

  /** When the search is over its answer is nothing or passed a full step, and one
      more failed or is past the limit. */
  lemma DoneIsSettled(s: State)
    requires s.Valid() && s.Next().Done?
    ensures var r := s.Next().sustained;
            && r == s.Best()
            && (r == 0 || (r in s.passes && s.passes[r]))
            && (s.fail == Some(r + 1) || (s.fail.None? && r == s.limit))
  {
  }

  class Search {
    var limit: nat
    var passes: map<nat, bool>
    var fail: Option<nat>

    function View(): State
      reads this
    {
      State(limit, passes, fail)
    }

    constructor (limit: nat)
      ensures View() == Start(limit)
    {
      this.limit := if limit < 1 then 1 else limit;
      passes, fail := map[], None;
    }

    /** The feeds that passed; `entry |= full`. */
    method Passed(feeds: nat, full: bool)
      modifies this`passes
      ensures View() == old(View()).Passed(feeds, full)
    {
      var before := feeds in passes && passes[feeds];
      passes := passes[feeds := before || full];
    }

    method Failed(feeds: nat)
      modifies this`passes, this`fail
      ensures View() == old(View()).Failed(feeds)
    {
      fail := Some(if fail.Some? && fail.value < feeds then fail.value else feeds);
      passes := map n | n in passes && n < feeds :: passes[n];
    }

    /** From now on the limit is at most `feeds`. */
    method Cap(feeds: nat)
      modifies this`limit
      ensures View() == old(View()).Cap(feeds)
    {
      if feeds < limit { limit := feeds; }
    }
  }
}
