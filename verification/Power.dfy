/** The locks against sleep: what callers want as a value, the queue of changes between them and
    the single worker, and every interleaving of the two. */
module Power {
  datatype Locks = Locks(system: bool, display: bool)

  datatype Wanted = Wanted(system: bool, displays: int)

  /** Locks are ordered: holding the screens' implies holding the machine's. */
  function LocksOf(w: Wanted): Locks { Locks(w.system || w.displays > 0, w.displays > 0) }

  /** Waiting on the queue, taking what else is in it, or about to hold what it took last. */
  datatype Worker = Waiting | Draining(locks: Locks) | Setting(locks: Locks)

  /** What's wanted, the live handles of awake screens, the queue and its worker,
      and all that was ever sent: what's held is from before `heldAt`. */
  datatype State = State(wanted: Wanted, handles: set<nat>, nextHandle: nat, queue: seq<Locks>, worker: Worker,
                         held: Locks, sent: seq<Locks>, heldAt: int)

  const NONE := Locks(false, false)

  function Start(): State { State(Wanted(false, 0), {}, 0, [], Waiting, NONE, [], 0) }

  /** What's wanted changes, sent to the worker if that takes other locks. */
  function Changed(p: State, w: Wanted): State {
    if LocksOf(w) != LocksOf(p.wanted) then
      p.(wanted := w, queue := p.queue + [LocksOf(w)], sent := p.sent + [LocksOf(w)])
    else p.(wanted := w)
  }

  datatype Step = KeepSystem(on: bool) | OpenDisplay | CloseDisplay(handle: nat) | Receive | TryReceive | Hold

  /** A handle is dropped once, and the worker's steps come in its loops' order. */
  predicate Enabled(p: State, s: Step) {
    match s
    case KeepSystem(_) => true
    case OpenDisplay => true
    case CloseDisplay(h) => h in p.handles
    case Receive => p.worker.Waiting? && p.queue != []
    case TryReceive => p.worker.Draining?
    case Hold => p.worker.Setting?
  }

  function Apply(p: State, s: Step): State
    requires Enabled(p, s)
  {
    match s
    case KeepSystem(on) => Changed(p, p.wanted.(system := on))
    case OpenDisplay =>
      Changed(p, p.wanted.(displays := p.wanted.displays + 1))
      .(handles := p.handles + {p.nextHandle}, nextHandle := p.nextHandle + 1)
    case CloseDisplay(h) => Changed(p, p.wanted.(displays := p.wanted.displays - 1)).(handles := p.handles - {h})
    case Receive => p.(worker := Draining(p.queue[0]), queue := p.queue[1..])
    case TryReceive =>
      if p.queue == [] then p.(worker := Setting(p.worker.locks))
      else p.(worker := Draining(p.queue[0]), queue := p.queue[1..])
    case Hold => p.(worker := Waiting, held := p.worker.locks, heldAt := |p.sent| - |p.queue|)
  }

  /** The `n`th locks wanted: none to begin with, then what was sent. */
  function Nth(sent: seq<Locks>, n: nat): Locks
    requires n <= |sent|
  {
    if n == 0 then NONE else sent[n - 1]
  }

  /** The last of what's held, in hand and queued. */
  function LastOf(p: State): Locks {
    if p.queue != [] then p.queue[|p.queue| - 1] else if p.worker.Waiting? then p.held else p.worker.locks
  }

  /** As many screens are kept awake as handles are alive. */
  ghost predicate Counted(p: State) {
    p.wanted.displays == |p.handles| && forall h :: h in p.handles ==> h < p.nextHandle
  }

  /** Each is other than the one before, the first other than none. */
  predicate AllDiffer(sent: seq<Locks>) {
    && (sent != [] ==> sent[0] != NONE)
    && (forall i, j :: 0 <= i < j == i + 1 < |sent| ==> sent[i] != sent[j])
  }

  /** What was sent changes each time and ends with what's wanted; the queue is
      the last of it, and in hand and held is what came before that, in order. */
  ghost predicate Ordered(p: State) {
    var taken := |p.sent| - |p.queue|;
    && LocksOf(p.wanted) == Nth(p.sent, |p.sent|)
    && AllDiffer(p.sent)
    && 0 <= p.heldAt <= taken && p.held == Nth(p.sent, p.heldAt)
    && (forall i :: 0 <= i < |p.queue| ==> p.queue[i] == p.sent[taken + i])
    && (if p.worker.Waiting? then p.heldAt == taken else p.heldAt < taken && p.worker.locks == p.sent[taken - 1])
  }

  ghost predicate Sound(p: State) { Counted(p) && Ordered(p) }

  lemma ChangedIsOrdered(p: State, w: Wanted)
    requires Ordered(p)
    ensures Ordered(Changed(p, w))
  {
    var q := Changed(p, w);
    if LocksOf(w) != LocksOf(p.wanted) {
      assert forall i :: 0 <= i < |p.sent| ==> q.sent[i] == p.sent[i];
    }
  }

  lemma WorkIsOrdered(p: State, s: Step)
    requires Ordered(p) && Enabled(p, s) && (s.Receive? || s.TryReceive? || s.Hold?)
    ensures Ordered(Apply(p, s))
  {
    var q := Apply(p, s);
    if q.queue != p.queue {
      var taken := |p.sent| - |p.queue|;
      forall i | 0 <= i < |q.queue| ensures q.queue[i] == p.sent[taken + 1 + i] {
        assert q.queue[i] == p.queue[i + 1];
      }
    }
  }

  lemma StepIsCounted(p: State, s: Step)
    requires Counted(p) && Enabled(p, s)
    ensures Counted(Apply(p, s)) && Apply(p, s).wanted.displays >= 0
  {
  }

  /** Whichever caller or worker is next: the last of what's held, in hand and
      queued is what's wanted, and what's held only ever moves on to later wants. */
  lemma StepIsSound(p: State, s: Step)
    requires Sound(p) && Enabled(p, s)
    ensures Sound(Apply(p, s))
    ensures p.heldAt <= Apply(p, s).heldAt && p.sent <= Apply(p, s).sent
    ensures s.Hold? ==> p.heldAt < Apply(p, s).heldAt
  {
    StepIsCounted(p, s);
    StepIsOrdered(p, s);
    StepMovesOn(p, s);
  }

  lemma StepIsOrdered(p: State, s: Step)
    requires Ordered(p) && Enabled(p, s)
    ensures Ordered(Apply(p, s))
  {
    hide Ordered;
    match s {
      case KeepSystem(on) => ChangedIsOrdered(p, p.wanted.(system := on));
      case OpenDisplay =>
        var w := p.wanted.(displays := p.wanted.displays + 1);
        ChangedIsOrdered(p, w);
        HandlesDontOrder(Changed(p, w), Apply(p, s));
      case CloseDisplay(h) =>
        var w := p.wanted.(displays := p.wanted.displays - 1);
        ChangedIsOrdered(p, w);
        HandlesDontOrder(Changed(p, w), Apply(p, s));
      case _ => WorkIsOrdered(p, s);
    }
  }

  lemma HandlesDontOrder(p: State, q: State)
    requires Ordered(p) && q == p.(handles := q.handles, nextHandle := q.nextHandle)
    ensures Ordered(q)
  {
  }

  lemma StepMovesOn(p: State, s: Step)
    requires Ordered(p) && Enabled(p, s)
    ensures p.heldAt <= Apply(p, s).heldAt && p.sent <= Apply(p, s).sent
    ensures s.Hold? ==> p.heldAt < Apply(p, s).heldAt
  {
  }

  lemma LastIsWanted(p: State)
    requires Sound(p)
    ensures LastOf(p) == LocksOf(p.wanted)
  {
  }

  lemma SoundIsCounted(p: State)
    requires Sound(p)
    ensures p.wanted.displays == |p.handles|
  {
  }

  lemma LastIsHeld(p: State)
    ensures p.queue == [] && p.worker.Waiting? ==> LastOf(p) == p.held
  {
  }

  /** A run of any callers and the worker, each step when it can be. */
  ghost predicate IsRun(p: State, steps: seq<Step>, q: State)
    decreases |steps|
  {
    if |steps| == 0 then q == p else Enabled(p, steps[0]) && IsRun(Apply(p, steps[0]), steps[1..], q)
  }

  lemma {:induction false} EveryRunIsSound(p: State, steps: seq<Step>, q: State)
    requires Sound(p) && IsRun(p, steps, q)
    ensures Sound(q) && p.heldAt <= q.heldAt
    ensures LastOf(q) == LocksOf(q.wanted) && q.wanted.displays == |q.handles|
    ensures q.queue == [] && q.worker.Waiting? ==> q.held == LocksOf(q.wanted)
    decreases |steps|
  {
    hide Sound, Apply, LastOf;
    if |steps| > 0 {
      StepIsSound(p, steps[0]);
      EveryRunIsSound(Apply(p, steps[0]), steps[1..], q);
    } else {
      LastIsWanted(q);
      SoundIsCounted(q);
      LastIsHeld(q);
    }
  }

  /** And so from the program's start on. */
  lemma StartIsSound(steps: seq<Step>, q: State)
    requires IsRun(Start(), steps, q)
    ensures Sound(q) && LastOf(q) == LocksOf(q.wanted)
  {
    hide IsRun;
    EveryRunIsSound(Start(), steps, q);
  }

  /** What's left for the worker to do, if nobody changes what's wanted. */
  function Left(p: State): seq<Step> {
    match p.worker
    case Waiting => if p.queue == [] then [] else [Receive] + seq(|p.queue|, _ => TryReceive) + [Hold]
    case Draining(_) => seq(|p.queue| + 1, _ => TryReceive) + [Hold]
    case Setting(_) => [Hold] + if p.queue == [] then [] else [Receive] + seq(|p.queue|, _ => TryReceive) + [Hold]
  }

  function Settled(p: State): State {
    if p.queue == [] && p.worker.Waiting? then p
    else p.(queue := [], worker := Waiting, held := LastOf(p), heldAt := |p.sent|)
  }

  /** Left alone the worker always finishes, in at most three steps more than the
      queue is long, and then holds what's wanted. */
  lemma {:induction false} LeftAloneItSettles(p: State)
    requires Sound(p)
    ensures IsRun(p, Left(p), Settled(p)) && |Left(p)| <= |p.queue| + 3
    ensures Settled(p).held == LocksOf(p.wanted) && Settled(p).wanted == p.wanted
    decreases |p.queue|, if p.worker.Draining? then 2 else if p.worker.Setting? then 1 else 0
  {
    LastIsWanted(p);
    var left := Left(p);
    if left != [] {
      var q := Apply(p, left[0]);
      StepIsSound(p, left[0]);
      assert left[1..] == Left(q);
      LeftAloneItSettles(q);
    }
  }

  /** Screens stay awake exactly as long as some handle is alive. */
  lemma ScreensFollowHandles(p: State)
    requires Sound(p)
    ensures LastOf(p).display <==> p.handles != {}
    ensures LastOf(p).system <==> p.wanted.system || p.handles != {}
  {
    LastIsWanted(p);
  }

  // ----- what a run comes to -----

  /** What was last said of the machine, `was` before anything. */
  function Said(was: bool, steps: seq<Step>): bool
    decreases |steps|
  {
    if steps == [] then was else Said(if steps[0].KeepSystem? then steps[0].on else was, steps[1..])
  }

  /** How many more screens were opened than closed. */
  function Open(steps: seq<Step>): int
    decreases |steps|
  {
    if steps == [] then 0
    else Open(steps[1..]) + if steps[0].OpenDisplay? then 1 else if steps[0].CloseDisplay? then -1 else 0
  }

  /** After any run from the program's start, as soon as the worker has nothing left to do, the screens
      are held awake exactly if more were opened than closed, and the machine exactly if so or if that
      was last said. */
  lemma RunComesTo(steps: seq<Step>, q: State)
    requires IsRun(Start(), steps, q) && q.queue == [] && q.worker.Waiting?
    ensures q.held.display <==> Open(steps) > 0
    ensures q.held.system <==> Said(false, steps) || Open(steps) > 0
  {
    hide IsRun, Said, Open;
    EveryRunIsSound(Start(), steps, q);
    RunIsSaid(Start(), steps, q);
  }

  lemma {:induction false} RunIsSaid(p: State, steps: seq<Step>, q: State)
    requires IsRun(p, steps, q)
    ensures q.wanted.system == Said(p.wanted.system, steps) && q.wanted.displays == p.wanted.displays + Open(steps)
    decreases |steps|
  {
    if |steps| > 0 { RunIsSaid(Apply(p, steps[0]), steps[1..], q); }
  }

  class Power {
    var wanted: Wanted
    var handles: set<nat>
    var nextHandle: nat
    var queue: seq<Locks>
    var worker: Worker
    var held: Locks
    ghost var sent: seq<Locks>
    ghost var heldAt: int

    ghost function Now(): State reads this { State(wanted, handles, nextHandle, queue, worker, held, sent, heldAt) }

    constructor ()
      ensures Now() == Start() && Sound(Now())
    {
      wanted, handles, nextHandle := Wanted(false, 0), {}, 0;
      queue, worker, held, sent, heldAt := [], Waiting, NONE, [], 0;
    }

    /** Wanting and queueing are one step, under one mutex: the queue is in the order of the changes. */
    method Change(w: Wanted)
      modifies this`wanted, this`queue, this`sent
      ensures Now() == Changed(old(Now()), w)
    {
      var before := LocksOf(wanted);
      wanted := w;
      var after := LocksOf(wanted);
      if after != before { queue, sent := queue + [after], sent + [after]; }
    }

    method KeepSystemAwake(on: bool)
      requires Sound(Now())
      modifies this
      ensures Now() == Apply(old(Now()), KeepSystem(on)) && Sound(Now())
    {
      ghost var was := Now();
      Change(wanted.(system := on));
      StepIsSound(was, KeepSystem(on));
    }

    method KeepDisplayAwake() returns (handle: nat)
      requires Sound(Now())
      modifies this
      ensures Now() == Apply(old(Now()), OpenDisplay) && Sound(Now())
      ensures handle !in old(handles) && handles == old(handles) + {handle}
    {
      ghost var was := Now();
      Change(wanted.(displays := wanted.displays + 1));
      handle := nextHandle;
      handles, nextHandle := handles + {handle}, nextHandle + 1;
      StepIsSound(was, OpenDisplay);
    }

    method Drop(handle: nat)
      requires Sound(Now()) && handle in handles
      modifies this
      ensures Now() == Apply(old(Now()), CloseDisplay(handle)) && Sound(Now())
    {
      ghost var was := Now();
      Change(wanted.(displays := wanted.displays - 1));
      handles := handles - {handle};
      StepIsSound(was, CloseDisplay(handle));
    }

    /** A turn of the worker's loop, with nobody changing what's wanted meanwhile. */
    method Drain()
      requires Sound(Now()) && worker.Waiting? && queue != []
      modifies this
      ensures Now() == Settled(old(Now())) && held == LocksOf(wanted)
    {
      LastIsWanted(Now());
      var locks := queue[0];
      queue := queue[1..];
      while queue != []
        invariant if queue == [] then locks == LastOf(old(Now()))
                  else queue[|queue| - 1] == LastOf(old(Now()))
        invariant Now() == old(Now()).(queue := queue)
        modifies this`queue
      {
        locks := queue[0];
        queue := queue[1..];
      }
      held, heldAt := locks, |sent|;
    }
  }
}
