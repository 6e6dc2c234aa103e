/** The node clock: which clock a node runs on, and which controller may choose it.
    Every change happens under one mutex, so a run is a sequence of atomic steps. */
module NodeClock {
  import opened Wrappers

  /** The timeout between claims of two controllers, in nanoseconds. */
  const MASTER_TIMEOUT: int := 20_000_000_000

  datatype Mode = ControllerMode | PtpMode(domain: int)

  datatype Source =
    | Local
    | Controller(id: string, name: string, address: string, port: int)
    | Ptp(domain: int)

  /** Whether two sources name one clock: names of controllers don't count. */
  predicate SameSource(a: Source, b: Source) {
    match (a, b)
    case (Controller(i, _, x, p), Controller(j, _, y, q)) => i == j && x == y && p == q
    case _ => a == b
  }

  lemma SameSourceIsEquivalence(a: Source, b: Source, c: Source)
    ensures SameSource(a, a)
    ensures SameSource(a, b) <==> SameSource(b, a)
    ensures SameSource(a, b) && SameSource(b, c) ==> SameSource(a, c)
  {
  }

  datatype Claim = Claim(id: string, name: string, mode: Mode, port: int, utcOffset: Option<int>)

  datatype Master = Master(id: string, lastClaim: int)

  datatype Follow = Follow(source: Source, serial: nat)

  /** What the mutex guards, how often the clock in use changed, and the threads
      waiting for a clock to sync. */
  datatype Clock = Clock(ownMode: Option<Mode>, master: Option<Master>, active: Follow, pending: Option<Follow>,
                         error: Option<string>, serial: nat, utcOffset: Option<int>, changed: nat,
                         waiting: set<Follow>)

  datatype Domain = ControllerDomain(id: string) | LocalDomain(id: string) | PtpDomain(domain: int)

  function DomainOf(c: Clock, node: string): Domain {
    match c.active.source
    case Local => if c.ownMode == Some(ControllerMode) then ControllerDomain(node) else LocalDomain(node)
    case Controller(id, _, _, _) => ControllerDomain(id)
    case Ptp(d) => PtpDomain(d)
  }

  function New(): Clock { Clock(None, None, Follow(Local, 0), None, None, 0, None, 0, {}) }

  // ----- the steps -----

  function Activate(c: Clock, f: Follow): Clock { c.(active := f, changed := c.changed + 1) }

  /** What asking for `source` changes: nothing if it's the one in use or awaited, the clock in use if
      it's the machine's own, and the one awaited otherwise. `ptpError` is how making a PTP clock fails, if it does. */
  function FollowSource(c: Clock, source: Source, ptpError: Option<string>): Clock {
    if SameSource(c.active.source, source) then c.(pending := None, error := None)
    else if c.pending.Some? && SameSource(c.pending.value.source, source) then c
    else
      var d := c.(serial := c.serial + 1);
      if source.Ptp? && ptpError.Some? then d.(pending := None, error := ptpError)
      else
        var f := Follow(source, d.serial);
        if source == Local then Activate(d.(error := None, pending := None), f)
        else d.(error := None, pending := Some(f), waiting := d.waiting + {f})
  }

  function OwnSource(mode: Mode): Source {
    match mode case ControllerMode => Local case PtpMode(d) => Ptp(d)
  }

  function SetOwnMode(c: Clock, mode: Option<Mode>, ptpError: Option<string>): Clock {
    var d := c.(ownMode := mode, master := None);
    var e := if mode.Some? then FollowSource(d, OwnSource(mode.value), ptpError) else d;
    e.(changed := e.changed + 1)
  }

  function ClaimedSource(claim: Claim, address: string): Source {
    match claim.mode
    case ControllerMode => Controller(claim.id, claim.name, address, claim.port)
    case PtpMode(d) => Ptp(d)
  }

  predicate Accepts(c: Clock, claim: Claim, now: int) {
    c.ownMode.None?
    && !(c.master.Some? && c.master.value.id != claim.id && now - c.master.value.lastClaim < MASTER_TIMEOUT)
  }

  function TakeClaim(c: Clock, claim: Claim, address: string, now: int, ptpError: Option<string>): Clock {
    if !Accepts(c, claim, now) then c
    else FollowSource(c.(master := Some(Master(claim.id, now)), utcOffset := claim.utcOffset),
                      ClaimedSource(claim, address), ptpError)
  }

  /** A waiting thread looks whether its clock synced: it leaves once replaced, or once in use. */
  function Poll(c: Clock, f: Follow, synced: bool): Clock {
    if f !in c.waiting then c
    else if c.pending.None? || c.pending.value.serial != f.serial then c.(waiting := c.waiting - {f})
    else if synced then Activate(c.(pending := None, waiting := c.waiting - {f}), f)
    else c
  }

  datatype Step =
    | OwnMode(mode: Option<Mode>, ptpError: Option<string>)
    | Claims(claim: Claim, address: string, now: int, ptpError: Option<string>)
    | Polls(follow: Follow, synced: bool)

  function Apply(c: Clock, s: Step): Clock {
    match s
    case OwnMode(mode, e) => SetOwnMode(c, mode, e)
    case Claims(claim, address, now, e) => TakeClaim(c, claim, address, now, e)
    case Polls(f, synced) => Poll(c, f, synced)
  }

  // ----- runs, with what happened noted -----

  datatype Accepted = Accepted(id: string, at: int)

  /** A clock, and of the run that led to it: the source last asked for, the
      switches given up or left, the time, and the claims accepted since the mode was last set. */
  datatype Seen = Seen(clock: Clock, asked: Source, replaced: set<nat>, time: int, claims: seq<Accepted>)

  function Serials(c: Clock): set<nat> {
    {c.active.serial} + if c.pending.Some? then {c.pending.value.serial} else {}
  }

  /** What a step asks for, if it's let. */
  function Asks(c: Clock, s: Step): Option<Source> {
    match s
    case OwnMode(Some(mode), _) => Some(OwnSource(mode))
    case Claims(claim, address, now, _) =>
      if Accepts(c, claim, now) then Some(ClaimedSource(claim, address)) else None
    case _ => None
  }

  function See(h: Seen, s: Step): Seen {
    var c := Apply(h.clock, s);
    Seen(c,
         if Asks(h.clock, s).Some? then Asks(h.clock, s).value else h.asked,
         h.replaced + (Serials(h.clock) - Serials(c)),
         if s.Claims? then s.now else h.time,
         match s
         case OwnMode(_, _) => []
         case Claims(claim, _, now, _) =>
           if Accepts(h.clock, claim, now) then h.claims + [Accepted(claim.id, now)] else h.claims
         case Polls(_, _) => h.claims)
  }

  function Run(h: Seen, steps: seq<Step>): Seen {
    if steps == [] then h else See(Run(h, steps[..|steps| - 1]), steps[|steps| - 1])
  }

  /** Time doesn't go back from one claim to the next. */
  predicate Timely(h: Seen, steps: seq<Step>) {
    steps == [] ||
    var last := steps[|steps| - 1];
    Timely(h, steps[..|steps| - 1]) && (last.Claims? ==> Run(h, steps[..|steps| - 1]).time <= last.now)
  }

  function Before(): Seen { Seen(New(), Local, {}, 0, []) }

  // ----- what every run keeps -----

  /** Switches are numbered as they're made, and a waiting thread's number says what it waits for. */
  ghost predicate Numbered(c: Clock) {
    && c.active.serial <= c.serial
    && (c.pending.Some? ==> c.active.serial != c.pending.value.serial <= c.serial && c.pending.value in c.waiting)
    && (forall f :: f in c.waiting ==> f.serial <= c.serial)
    && (forall f, g :: f in c.waiting && g in c.waiting && f.serial == g.serial ==> f == g)
  }

  /** With no error, the clock awaited, or else the one in use, is the one last
      asked for; with an error none is awaited; and the machine's own never is. */
  ghost predicate FollowsAsked(c: Clock, asked: Source) {
    && (c.error.Some? ==> c.pending.None?)
    && (c.pending.Some? ==> c.pending.value.source != Local)
    && (c.error.None? ==> SameSource(if c.pending.Some? then c.pending.value.source else c.active.source, asked))
  }

  /** What was replaced is neither in use nor awaited. */
  ghost predicate NoneReturns(h: Seen) {
    h.replaced !! Serials(h.clock) && forall n :: n in h.replaced ==> n <= h.clock.serial
  }

  /** The master is whoever claimed last; claims by different controllers are the timeout apart. */
  ghost predicate ClaimsApart(h: Seen) {
    && (h.clock.ownMode.Some? ==> h.claims == [])
    && h.clock.master == (if h.claims == [] then None
                          else Some(Master(h.claims[|h.claims| - 1].id, h.claims[|h.claims| - 1].at)))
    && (forall i, j :: 0 <= i < j < |h.claims| ==> h.claims[i].at <= h.claims[j].at)
    && (forall i :: 0 <= i < |h.claims| ==> h.claims[i].at <= h.time)
    && (forall i, j :: 0 <= i < j < |h.claims| && h.claims[i].id != h.claims[j].id ==>
          h.claims[j].at - h.claims[i].at >= MASTER_TIMEOUT)
  }

  ghost predicate Sound(h: Seen) {
    Numbered(h.clock) && FollowsAsked(h.clock, h.asked) && NoneReturns(h) && ClaimsApart(h)
  }

  /** Switches that weren't in use or awaited before are new. */
  ghost predicate OnlyNew(c: Clock, d: Clock) {
    d.serial >= c.serial && forall n :: n in Serials(d) ==> n in Serials(c) || n > c.serial
  }

  lemma FollowIsSound(c: Clock, asked: Source, source: Source, e: Option<string>)
    requires Numbered(c) && FollowsAsked(c, asked)
    ensures var d := FollowSource(c, source, e);
            && Numbered(d) && FollowsAsked(d, source) && OnlyNew(c, d)
            && d.changed >= c.changed && (d.active.source != c.active.source ==> d.changed > c.changed)
            && d.ownMode == c.ownMode && d.master == c.master
  {
  }

  lemma OwnModeFollows(c: Clock, asked: Source, mode: Option<Mode>, e: Option<string>)
    requires Numbered(c) && FollowsAsked(c, asked)
    ensures var d := SetOwnMode(c, mode, e);
            Numbered(d) && FollowsAsked(d, if mode.Some? then OwnSource(mode.value) else asked) && OnlyNew(c, d)
            && d.changed > c.changed
  {
    hide FollowSource;
    var d := c.(ownMode := mode, master := None);
    assert Serials(d) == Serials(c);
    if mode.Some? {
      FollowIsSound(d, asked, OwnSource(mode.value), e);
      assert Serials(SetOwnMode(c, mode, e)) == Serials(FollowSource(d, OwnSource(mode.value), e));
    } else {
      assert Serials(SetOwnMode(c, mode, e)) == Serials(d);
    }
  }

  lemma ClaimFollows(c: Clock, asked: Source, claim: Claim, address: string, now: int, e: Option<string>)
    requires Numbered(c) && FollowsAsked(c, asked)
    ensures var d := TakeClaim(c, claim, address, now, e);
            Numbered(d) && FollowsAsked(d, if Accepts(c, claim, now) then ClaimedSource(claim, address) else asked)
            && OnlyNew(c, d) && d.ownMode == c.ownMode && d.changed >= c.changed
            && (d.active.source != c.active.source ==> d.changed > c.changed)
  {
    hide FollowSource;
    if Accepts(c, claim, now) {
      FollowIsSound(c.(master := Some(Master(claim.id, now)), utcOffset := claim.utcOffset), asked,
                    ClaimedSource(claim, address), e);
    }
  }

  lemma PollFollows(c: Clock, asked: Source, f: Follow, synced: bool)
    requires Numbered(c) && FollowsAsked(c, asked)
    ensures var d := Poll(c, f, synced);
            Numbered(d) && FollowsAsked(d, asked) && OnlyNew(c, d) && d.ownMode == c.ownMode
            && (d.active == c.active || d.changed > c.changed) && d.changed >= c.changed
  {
  }

  lemma FollowingStep(h: Seen, s: Step)
    requires Numbered(h.clock) && FollowsAsked(h.clock, h.asked)
    ensures Numbered(See(h, s).clock) && FollowsAsked(See(h, s).clock, See(h, s).asked)
    ensures OnlyNew(h.clock, See(h, s).clock)
  {
    hide SetOwnMode, TakeClaim, Poll, Numbered, FollowsAsked, OnlyNew, OwnSource, ClaimedSource, Accepts;
    match s {
      case OwnMode(mode, e) => OwnModeFollows(h.clock, h.asked, mode, e);
      case Claims(claim, address, now, e) => ClaimFollows(h.clock, h.asked, claim, address, now, e);
      case Polls(f, synced) => PollFollows(h.clock, h.asked, f, synced);
    }
  }

  lemma ReplacingStep(h: Seen, s: Step)
    requires Numbered(h.clock) && FollowsAsked(h.clock, h.asked) && NoneReturns(h)
    ensures NoneReturns(See(h, s))
  {
    hide SetOwnMode, TakeClaim, Poll, FollowsAsked;
    FollowingStep(h, s);
    assert forall n :: n in Serials(h.clock) ==> n <= h.clock.serial;
  }

  /** Following a source leaves the mode and the master alone. */
  lemma FollowKeepsMaster(c: Clock, source: Source, e: Option<string>)
    ensures FollowSource(c, source, e).master == c.master && FollowSource(c, source, e).ownMode == c.ownMode
  {
  }

  lemma ClaimingStep(h: Seen, s: Step)
    requires ClaimsApart(h) && (s.Claims? ==> h.time <= s.now)
    ensures ClaimsApart(See(h, s))
  {
    match s {
      case OwnMode(mode, e) =>
        if mode.Some? { FollowKeepsMaster(h.clock.(ownMode := mode, master := None), OwnSource(mode.value), e); }
      case Claims(claim, address, now, e) =>
        if Accepts(h.clock, claim, now) {
          FollowKeepsMaster(h.clock.(master := Some(Master(claim.id, now)), utcOffset := claim.utcOffset),
                            ClaimedSource(claim, address), e);
          ClaimIsApart(h, claim, now);
        }
      case Polls(f, synced) =>
    }
  }

  /** An accepted claim is the timeout after any other controller's, and not just the last one's. */
  lemma ClaimIsApart(h: Seen, claim: Claim, now: int)
    requires ClaimsApart(h) && Accepts(h.clock, claim, now) && h.time <= now
    ensures forall i :: 0 <= i < |h.claims| && h.claims[i].id != claim.id ==> now - h.claims[i].at >= MASTER_TIMEOUT
  {
    if h.claims != [] {
      var last := |h.claims| - 1;
      forall i | 0 <= i < |h.claims| && h.claims[i].id != claim.id
        ensures now - h.claims[i].at >= MASTER_TIMEOUT
      {
        if i < last && h.claims[last].id == claim.id {
          assert h.claims[last].at - h.claims[i].at >= MASTER_TIMEOUT;
        } else if i < last {
          assert h.claims[i].at <= h.claims[last].at;
        }
      }
    }
  }

  // ----- what a step does -----

  /** The clock awaited, or else the one in use. */
  function Current(c: Clock): Source { if c.pending.Some? then c.pending.value.source else c.active.source }

  predicate Follows(c: Clock, source: Source) {
    SameSource(c.active.source, source) || (c.pending.Some? && SameSource(c.pending.value.source, source))
  }

  /** Asking for a source that's not followed yet awaits it, or uses it at once if it's the machine's
      own, unless making a PTP clock fails; then the clock in use stays, and the error is told.
      One in use is stayed with, and one awaited still awaited. */
  lemma FollowingMeans(c: Clock, asked: Source, source: Source, e: Option<string>)
    requires FollowsAsked(c, asked)
    ensures var d, fails := FollowSource(c, source, e), source.Ptp? && e.Some? && !Follows(c, source);
            && d.error == (if fails then e else None)
            && (fails ==> d.active == c.active && d.pending.None?)
            && (!fails ==> SameSource(Current(d), source))
            && (SameSource(c.active.source, source) ==> d.active == c.active && d.pending.None?)
            && (source == Local ==> d.active.source == Local && d.pending.None?)
            && (!Follows(c, source) && !fails && source != Local ==>
                  d.active == c.active && Current(d) == source && d.pending.Some? && d.pending.value in d.waiting)
            && (Follows(c, source) ==> d.active == c.active && d.serial == c.serial)
            && d.utcOffset == c.utcOffset && d.waiting >= c.waiting
  {
  }

  /** Whether a claim is let: without a mode of its own, the node takes the first, its master's, and
      any other's the timeout after the last. */
  predicate MayClaim(h: Seen, id: string, now: int) {
    h.clock.ownMode.None? &&
    (h.claims == [] ||
     var last := h.claims[|h.claims| - 1];
     last.id == id || now - last.at >= MASTER_TIMEOUT)
  }

  /** Then its controller is the master and the clock it names is followed, the controller's own at
      the address it claimed from, or a PTP domain's; a claim that's not let changes nothing. */
  lemma ClaimIsTakenWhen(h: Seen, claim: Claim, address: string, now: int, e: Option<string>)
    requires Sound(h)
    ensures var g := See(h, Claims(claim, address, now, e));
            if MayClaim(h, claim.id, now) then
              && g.claims == h.claims + [Accepted(claim.id, now)]
              && g.clock.master == Some(Master(claim.id, now)) && g.clock.utcOffset == claim.utcOffset
              && (g.clock.error.None? ==> FollowsClaim(g.clock, claim, address))
              && (g.clock.error.Some? ==> claim.mode.PtpMode? && g.clock.error == e)
            else g.clock == h.clock && g.claims == h.claims
  {
    if MayClaim(h, claim.id, now) {
      var c := h.clock.(master := Some(Master(claim.id, now)), utcOffset := claim.utcOffset);
      FollowingMeans(c, h.asked, ClaimedSource(claim, address), e);
      FollowKeepsMaster(c, ClaimedSource(claim, address), e);
      hide FollowSource;
    }
  }

  ghost predicate FollowsClaim(c: Clock, claim: Claim, address: string) {
    match claim.mode
    case ControllerMode =>
      var s := Current(c);
      s.Controller? && s.id == claim.id && s.address == address && s.port == claim.port
    case PtpMode(d) => Current(c) == Ptp(d)
  }

  /** A controller that's followed already, claiming under another name, is followed on: no switch is made. */
  lemma RenamedIsFollowedOn(h: Seen, claim: Claim, address: string, now: int, e: Option<string>, name: string)
    requires Sound(h) && claim.mode == ControllerMode
    requires h.clock.active.source == Controller(claim.id, name, address, claim.port)
    ensures var c := See(h, Claims(claim, address, now, e)).clock;
            c.active == h.clock.active && c.serial == h.clock.serial
  {
  }

  /** Over runs: once the timeout has gone by since every claim there was, whoever claims gets the node. */
  lemma SilentMasterIsReplaced(steps: seq<Step>, claim: Claim, address: string, now: int, e: Option<string>)
    requires Timely(Before(), steps) && Run(Before(), steps).clock.ownMode.None?
    requires var h := Run(Before(), steps); forall i :: 0 <= i < |h.claims| ==> now - h.claims[i].at >= MASTER_TIMEOUT
    ensures var g := See(Run(Before(), steps), Claims(claim, address, now, e));
            && g.clock.master == Some(Master(claim.id, now))
            && (g.clock.error.None? ==> FollowsClaim(g.clock, claim, address))
  {
    hide Run, Timely, See, Sound;
    NewIsSound(steps);
    ClaimIsTakenWhen(Run(Before(), steps), claim, address, now, e);
  }

  /** A mode of one's own ends all claims, and a controller is on its own clock at once; giving the
      mode up leaves the clock as it is. */
  lemma OwnModeMeans(h: Seen, mode: Option<Mode>, e: Option<string>)
    requires Sound(h)
    ensures var g := See(h, OwnMode(mode, e));
            && g.clock.ownMode == mode && g.clock.master.None? && g.claims == []
            && g.clock.utcOffset == h.clock.utcOffset
            && (match mode
                case None => g.clock.active == h.clock.active && g.clock.pending == h.clock.pending
                             && g.clock.error == h.clock.error && g.clock.waiting == h.clock.waiting
                case Some(ControllerMode) =>
                  g.clock.active.source == Local && g.clock.pending.None? && g.clock.error.None?
                case Some(PtpMode(d)) =>
                  if g.clock.error.None? then Current(g.clock) == Ptp(d) else g.clock.error == e)
  {
    if mode.Some? {
      var c := h.clock.(ownMode := mode, master := None);
      FollowingMeans(c, h.asked, OwnSource(mode.value), e);
      FollowKeepsMaster(c, OwnSource(mode.value), e);
      hide FollowSource;
    }
  }

  /** A thread waiting for the clock awaited puts it in use once it synced and not before; one whose
      clock isn't awaited any more leaves, and changes nothing else. */
  lemma WaitingMeans(c: Clock, f: Follow, synced: bool)
    requires Numbered(c) && f in c.waiting
    ensures var d := Poll(c, f, synced);
            && (c.pending == Some(f) && synced ==>
                  d.active == f && d.pending.None? && d.waiting == c.waiting - {f} && d.changed == c.changed + 1)
            && (c.pending == Some(f) && !synced ==> d == c)
            && (c.pending != Some(f) ==> d == c.(waiting := c.waiting - {f}))
  {
  }

  /** A node's clock is a controller's: its own, as one, or that of the one it follows. */
  predicate IsOf(c: Clock, node: string, controller: string) {
    match c.active.source
    case Local => c.ownMode == Some(ControllerMode) && node == controller
    case Controller(id, _, _, _) => id == controller
    case Ptp(_) => false
  }

  /** Two nodes are in one domain exactly if they run on one controller's clock or one PTP domain's,
      or are the same node on its own. */
  lemma DomainsAgreeWhen(c: Clock, a: string, d: Clock, b: string)
    ensures DomainOf(c, a) == DomainOf(d, b) <==>
            || (exists x :: IsOf(c, a, x) && IsOf(d, b, x))
            || (c.active.source.Ptp? && d.active.source == c.active.source)
            || (a == b && OnItsOwn(c) && OnItsOwn(d))
  {
    forall x ensures IsOf(c, a, x) <==> DomainOf(c, a) == ControllerDomain(x) { }
    forall x ensures IsOf(d, b, x) <==> DomainOf(d, b) == ControllerDomain(x) { }
  }

  predicate OnItsOwn(c: Clock) { c.active.source == Local && c.ownMode != Some(ControllerMode) }

  lemma StepIsSound(h: Seen, s: Step)
    requires Sound(h) && (s.Claims? ==> h.time <= s.now)
    ensures Sound(See(h, s))
  {
    FollowingStep(h, s);
    ReplacingStep(h, s);
    ClaimingStep(h, s);
  }

  /** Whatever claims, changes of mode and waiting threads do, and in whatever order:
      the clock in use or awaited is the one last asked for, none replaced comes back,
      and claims by different controllers are the timeout apart. */
  lemma {:induction false} EveryRunIsSound(h: Seen, steps: seq<Step>)
    requires Sound(h) && Timely(h, steps)
    ensures Sound(Run(h, steps))
  {
    hide Sound, See;
    if steps != [] {
      EveryRunIsSound(h, steps[..|steps| - 1]);
      StepIsSound(Run(h, steps[..|steps| - 1]), steps[|steps| - 1]);
    }
  }

  /** And so from the node's start on. */
  lemma NewIsSound(steps: seq<Step>)
    requires Timely(Before(), steps)
    ensures Sound(Run(Before(), steps))
  {
    hide Run, Timely;
    EveryRunIsSound(Before(), steps);
  }

  /** Whatever replaced a clock, it's never in use again. */
  lemma {:induction false} ReplacedStaysReplaced(h: Seen, steps: seq<Step>, n: nat)
    requires Sound(h) && Timely(h, steps) && n in h.replaced
    ensures Run(h, steps).clock.active.serial != n
  {
    EveryRunIsSound(h, steps);
    ReplacedGrows(h, steps);
  }

  lemma {:induction false} ReplacedGrows(h: Seen, steps: seq<Step>)
    ensures h.replaced <= Run(h, steps).replaced
  {
    if steps != [] { ReplacedGrows(h, steps[..|steps| - 1]); }
  }

  /** The domain never changes unnoticed. */
  lemma DomainChangesAreNoticed(h: Seen, s: Step, node: string)
    requires Sound(h)
    ensures var c := See(h, s).clock;
            && c.changed >= h.clock.changed
            && (DomainOf(c, node) != DomainOf(h.clock, node) ==> c.changed > h.clock.changed)
  {
    hide SetOwnMode, TakeClaim, Poll;
    match s {
      case OwnMode(mode, e) => OwnModeFollows(h.clock, h.asked, mode, e);
      case Claims(claim, address, now, e) => ClaimFollows(h.clock, h.asked, claim, address, now, e);
      case Polls(f, synced) => PollFollows(h.clock, h.asked, f, synced);
    }
  }

  // ----- keeping a node -----

  /** No change of mode, and no claim, comes `MASTER_TIMEOUT` after controller `id`'s last claim. */
  predicate Kept(id: string, last: int, steps: seq<Step>)
    decreases |steps|
  {
    steps == [] ||
    match steps[0]
    case OwnMode(_, _) => false
    case Claims(claim, _, now, _) =>
      now - last < MASTER_TIMEOUT && Kept(id, if claim.id == id then now else last, steps[1..])
    case Polls(_, _) => Kept(id, last, steps[1..])
  }

  /** The times controller `id` claims at. */
  function ClaimsBy(id: string, steps: seq<Step>): seq<Accepted> {
    if steps == [] then [] else MyClaim(id, steps[0]) + ClaimsBy(id, steps[1..])
  }

  function MyClaim(id: string, s: Step): seq<Accepted> {
    if s.Claims? && s.claim.id == id then [Accepted(id, s.now)] else []
  }

  /** A run one step at a time from the front. */
  lemma {:induction false} RunFromFront(h: Seen, steps: seq<Step>)
    requires steps != []
    ensures Run(h, steps) == Run(See(h, steps[0]), steps[1..])
  {
    hide See;
    var init := steps[..|steps| - 1];
    if init != [] {
      RunFromFront(h, init);
      assert steps[1..][..|steps| - 2] == init[1..];
    } else {
      assert Run(h, init) == h;
    }
  }

  lemma RunNothing(h: Seen)
    ensures Run(h, []) == h
  {
  }

  /** A controller that claims more often than the timeout keeps the node: every one
      of its claims is accepted, and no other's. */
  lemma {:induction false} ClaimingKeepsTheNode(h: Seen, steps: seq<Step>, id: string, last: int)
    requires h.clock.ownMode.None? && h.clock.master == Some(Master(id, last)) && Kept(id, last, steps)
    ensures Run(h, steps).clock.master.Some? && Run(h, steps).clock.master.value.id == id
    ensures Run(h, steps).claims == h.claims + ClaimsBy(id, steps)
    decreases |steps|
  {
    hide See, Run, Accepts, Kept;
    if steps == [] {
      RunNothing(h);
    } else {
      var s := steps[0];
      KeptStep(id, last, steps);
      RunFromFront(h, steps);
      KeepingStep(h, s, id, last);
      ClaimingKeepsTheNode(See(h, s), steps[1..], id, if s.Claims? && s.claim.id == id then s.now else last);
      var mine, rest := MyClaim(id, s), ClaimsBy(id, steps[1..]);
      assert See(h, s).claims == h.claims + mine;
      assert (h.claims + mine) + rest == h.claims + (mine + rest);
    }
  }

  lemma KeptStep(id: string, last: int, steps: seq<Step>)
    requires Kept(id, last, steps) && steps != []
    ensures var s := steps[0];
            && !s.OwnMode? && (s.Claims? ==> s.now - last < MASTER_TIMEOUT)
            && Kept(id, if s.Claims? && s.claim.id == id then s.now else last, steps[1..])
  {
  }

  lemma KeepingStep(h: Seen, s: Step, id: string, last: int)
    requires h.clock.ownMode.None? && h.clock.master == Some(Master(id, last))
    requires !s.OwnMode? && (s.Claims? ==> s.now - last < MASTER_TIMEOUT)
    ensures var mine := s.Claims? && s.claim.id == id;
            && See(h, s).clock.ownMode.None?
            && See(h, s).clock.master == Some(Master(id, if mine then s.now else last))
            && See(h, s).claims == if mine then h.claims + [Accepted(id, s.now)] else h.claims
  {
    if s.Claims? && Accepts(h.clock, s.claim, s.now) {
      FollowKeepsMaster(h.clock.(master := Some(Master(s.claim.id, s.now)), utcOffset := s.claim.utcOffset),
                        ClaimedSource(s.claim, s.address), s.ptpError);
    }
  }

  /** A node with a mode of its own takes no claims: nothing about it changes. */
  lemma OwnModeTakesNoClaims(c: Clock, claim: Claim, address: string, now: int, e: Option<string>)
    requires c.ownMode.Some?
    ensures TakeClaim(c, claim, address, now, e) == c
  {
  }

  // ----- the object -----

  class NodeClock {
    var ownMode: Option<Mode>
    var master: Option<Master>
    var active: Follow
    var pending: Option<Follow>
    var error: Option<string>
    var serial: nat
    var utcOffset: Option<int>
    var changed: nat
    /** The threads waiting for a clock to sync. */
    var waiting: set<Follow>

    function View(): Clock
      reads this
    {
      Clock(ownMode, master, active, pending, error, serial, utcOffset, changed, waiting)
    }

    constructor ()
      ensures View() == New()
    {
      ownMode, master, active, pending, error := None, None, Follow(Local, 0), None, None;
      serial, utcOffset, changed, waiting := 0, None, 0, {};
    }

    method SetOwnMode(mode: Option<Mode>, ptpError: Option<string>)
      modifies this
      ensures View() == Apply(old(View()), OwnMode(mode, ptpError))
    {
      ownMode := mode;
      master := None;
      if mode.Some? { SwitchTo(OwnSource(mode.value), ptpError); }
      changed := changed + 1;
    }

    /** Returns whether the claiming controller is (still) this node's master. */
    method TakeClaim(claim: Claim, address: string, now: int, ptpError: Option<string>) returns (accepted: bool)
      modifies this
      ensures accepted == Accepts(old(View()), claim, now)
      ensures View() == Apply(old(View()), Claims(claim, address, now, ptpError))
      ensures accepted ==> master == Some(Master(claim.id, now))
    {
      if ownMode.Some? { return false; }
      if master.Some? && master.value.id != claim.id && now - master.value.lastClaim < MASTER_TIMEOUT { return false; }
      master := Some(Master(claim.id, now));
      utcOffset := claim.utcOffset;
      SwitchTo(ClaimedSource(claim, address), ptpError);
      return true;
    }

    method SwitchTo(source: Source, ptpError: Option<string>)
      modifies this
      ensures View() == FollowSource(old(View()), source, ptpError)
    {
      if SameSource(active.source, source) {
        pending, error := None, None;
        return;
      }
      if pending.Some? && SameSource(pending.value.source, source) { return; }
      serial := serial + 1;
      if source.Ptp? && ptpError.Some? {
        pending, error := None, ptpError;
        return;
      }
      error := None;
      var f := Follow(source, serial);
      if source == Local {
        pending := None;
        active, changed := f, changed + 1;
        return;
      }
      pending, waiting := Some(f), waiting + {f};
    }

    /** A waiting thread looks once, holding the mutex: true once it's done waiting. */
    method AwaitSync(f: Follow, synced: bool) returns (done: bool)
      requires f in waiting
      modifies this
      ensures View() == Apply(old(View()), Polls(f, synced))
      ensures done <==> f !in waiting
    {
      if pending.None? || pending.value.serial != f.serial {
        waiting := waiting - {f};
        return true;
      }
      if synced {
        pending, waiting := None, waiting - {f};
        active, changed := f, changed + 1;
        return true;
      }
      return false;
    }
  }
}
