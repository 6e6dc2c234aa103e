/** How many feeds of a benchmark the memory left is taken to hold, and how far that can be trusted. */
module Memory {
  import opened Wrappers

  const MIN_FREE_MEMORY: nat := 0x6000_0000
  const MIN_FREE_MEMORY_SHARE: nat := 8
  const U32_MAX: nat := 0xFFFF_FFFF

  function Max(a: nat, b: nat): nat { if a < b then b else a }

  function Minus(a: nat, b: nat): nat { if a < b then 0 else a - b }

  function Divide(a: nat, d: nat): (q: nat)
    requires 0 < d
    ensures d * q <= a < d * q + d
  {
    a / d
  }

  /** How much memory feeds take: `perFeed` is the most any one has, on average of a step. */
  datatype Budget = Budget(baseline: nat, floor: nat, perFeed: nat) {

    predicate Short(available: nat) { available < floor }

    function Room(): nat { Minus(baseline, floor) }

    function Observe(available: nat, feeds: nat): Budget {
      if feeds == 0 then this else this.(perFeed := Max(perFeed, Divide(Minus(baseline, available), feeds)))
    }

    /** How many feeds fit, each taking a quarter more than the most one has; none until any ran. */
    function Fits(): Option<nat> {
      if perFeed == 0 then None
      else
        var fit := Divide(4 * Room(), 5 * perFeed);
        Some(if fit > U32_MAX then U32_MAX else fit)
    }
  }

  function New(total: nat, available: nat): Budget {
    Budget(available, Max(MIN_FREE_MEMORY, total / MIN_FREE_MEMORY_SHARE), 0)
  }

  /** What's kept free is an eighth of the memory there is, and no less than the least; at first
      nothing is known of feeds, then the most that any step took of each, on average. */
  lemma BudgetMeans(total: nat, available: nat, b: Budget, left: nat, feeds: nat)
    requires feeds > 0
    ensures New(total, available).Fits() == None && New(total, available).baseline == available
    ensures var floor := New(total, available).floor;
            && 8 * floor + 7 >= total && floor >= MIN_FREE_MEMORY
            && (8 * floor <= total || floor == MIN_FREE_MEMORY)
    ensures var c, used := b.Observe(left, feeds), if b.baseline < left then 0 else b.baseline - left;
            && c.baseline == b.baseline && c.floor == b.floor && c.perFeed >= b.perFeed
            && feeds * c.perFeed + feeds > used
            && (c.perFeed == b.perFeed || feeds * c.perFeed <= used)
  {
    var used := if b.baseline < left then 0 else b.baseline - left;
    var q := Divide(used, feeds);
    Scale(feeds, q, b.Observe(left, feeds).perFeed);
  }

  /** So many feeds fit: four fifths of the room's worth of the greediest seen, or all that are counted. */
  lemma FitsExactly(b: Budget, n: nat)
    requires b.perFeed > 0
    ensures b.Fits().Some? && (n <= b.Fits().value <==> n <= U32_MAX && 5 * (n * b.perFeed) <= 4 * b.Room())
  {
    var d, q := 5 * b.perFeed, Divide(4 * b.Room(), 5 * b.perFeed);
    assert d * n == 5 * (n * b.perFeed);
    if n <= q { Scale(d, n, q); } else { Scale(d, q + 1, n); }
  }

  /** However much is observed, no more feeds fit than before. */
  lemma FitsNeverGrows(b: Budget, available: nat, feeds: nat)
    requires b.Fits().Some?
    ensures var c := b.Observe(available, feeds);
            c.Fits().Some? && c.Fits().value <= b.Fits().value
  {
    var c := b.Observe(available, feeds);
    DivideByMore(4 * b.Room(), 5 * b.perFeed, 5 * c.perFeed);
  }

  lemma DivideByMore(a: nat, d: nat, e: nat)
    requires 0 < d <= e
    ensures Divide(a, e) <= Divide(a, d)
  {
    var q, r := Divide(a, e), Divide(a, d);
    if q > r {
      Scale(d, r + 1, q);
      Scale(q, d, e);
      assert false;
    }
  }

  lemma Scale(k: nat, a: nat, b: nat)
    requires a <= b
    ensures k * a <= k * b
  {
  }

  /** What fits, by the definition of division. */
  lemma FitsIsRoom(b: Budget, n: nat)
    requires b.Fits().Some? && n <= b.Fits().value
    ensures 5 * (n * b.perFeed) <= 4 * b.Room()
  {
    var d := 5 * b.perFeed;
    Scale(d, n, Divide(4 * b.Room(), d));
    assert d * n == 5 * (n * b.perFeed);
  }

  /** As many feeds as fit, none taking more than the most seen, leave the floor free. */
  lemma FitsLeavesFloor(b: Budget, n: nat, used: nat)
    requires b.Fits().Some? && 0 < n <= b.Fits().value && used <= n * b.perFeed
    ensures used <= b.baseline && !b.Short(b.baseline - used)
  {
    FitsIsRoom(b, n);
    Scale(b.perFeed, 1, n);
    assert n * b.perFeed > 0;
  }

  /** The average seen is rounded down, so a step that doesn't raise it may take
      more than it says. Such a step leaves the floor free whatever it takes
      exactly when `n` feeds a byte over the average fit. */
  lemma RoundingIsCoveredWhen(b: Budget, n: nat)
    requires b.Fits().Some? && 0 < n <= b.Fits().value && b.floor > 0
    ensures (forall available: nat :: b.Observe(available, n).perFeed == b.perFeed ==> !b.Short(available))
            <==> n * (b.perFeed + 1) <= b.Room() + 1
  {
    FitsIsRoom(b, n);
    assert b.Room() > 0 by { Scale(b.perFeed, 1, n); }
    var most := n * (b.perFeed + 1) - 1;
    if most <= b.Room() {
      forall available: nat | b.Observe(available, n).perFeed == b.perFeed
        ensures !b.Short(available)
      {
        AverageAtMost(Minus(b.baseline, available), n, b.perFeed);
      }
    } else {
      var used := if most <= b.baseline then most else b.baseline;
      AverageAtMost(used, n, b.perFeed);
      assert b.Observe(b.baseline - used, n).perFeed == b.perFeed;
      assert b.Short(b.baseline - used);
    }
  }

  lemma AverageAtMost(used: nat, n: nat, most: nat)
    requires 0 < n
    ensures Divide(used, n) <= most <==> used <= n * (most + 1) - 1
  {
    var q := Divide(used, n);
    if q <= most { Scale(n, q, most); } else { Scale(n, most + 1, q); }
  }

  /** The quarter to spare covers the rounding once feeds take four bytes. */
  lemma MarginCoversRounding(b: Budget, n: nat, available: nat)
    requires b.Fits().Some? && 0 < n <= b.Fits().value && b.perFeed >= 4
    requires b.Observe(available, n).perFeed == b.perFeed && b.floor > 0
    ensures !b.Short(available)
  {
    FitsIsRoom(b, n);
    assert 4 * (n * (b.perFeed + 1)) <= 5 * (n * b.perFeed) by {
      assert 4 * (n * (b.perFeed + 1)) == 4 * (n * b.perFeed) + 4 * n;
      Scale(n, 4, b.perFeed);
    }
    RoundingIsCoveredWhen(b, n);
  }

  /** Below that it isn't: with 100 bytes to spare and feeds seen to take one, 80 "fit", and
      then take 159 unnoticed. */
  lemma RoundingCanGoShort(total: nat)
    requires total <= MIN_FREE_MEMORY_SHARE * MIN_FREE_MEMORY
    ensures var b := New(total, MIN_FREE_MEMORY + 100).Observe(MIN_FREE_MEMORY + 99, 1);
            && b.Fits() == Some(80)
            && b.Observe(MIN_FREE_MEMORY - 59, 80).perFeed == b.perFeed && b.Short(MIN_FREE_MEMORY - 59)
  {
  }

  class MemoryBudget {
    var baseline: nat
    var floor: nat
    var perFeed: nat

    function View(): Budget
      reads this
    {
      Budget(baseline, floor, perFeed)
    }

    constructor (total: nat, available: nat)
      ensures View() == New(total, available)
    {
      baseline, floor, perFeed := available, Max(MIN_FREE_MEMORY, total / MIN_FREE_MEMORY_SHARE), 0;
    }

    method Observe(available: nat, feeds: nat)
      modifies this`perFeed
      ensures View() == old(View()).Observe(available, feeds)
      ensures old(View()).Fits().Some? ==> View().Fits().Some? && View().Fits().value <= old(View()).Fits().value
    {
      if feeds > 0 {
        FitsNeverGrowsIfAny(View(), available, feeds);
        var used := Divide(Minus(baseline, available), feeds);
        perFeed := Max(perFeed, used);
      }
    }
  }

  lemma FitsNeverGrowsIfAny(b: Budget, available: nat, feeds: nat)
    ensures b.Fits().Some? ==>
              b.Observe(available, feeds).Fits().Some? && b.Observe(available, feeds).Fits().value <= b.Fits().value
  {
    if b.Fits().Some? { FitsNeverGrows(b, available, feeds); }
  }
}
