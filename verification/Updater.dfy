/** Checking for updates while the channel may change, and which release is newest. */
module Updater {
  import opened Wrappers

  datatype Channel = Stable | PreRelease

  datatype Phase = Idle | Checking | Downloading | Installing | Restarting

  /** Versions are ordered by precedence (section 11 of Semantic Versioning 2.0.0);
      here, by number. */
  type Version = int

  datatype Status = Status(channel: Channel, phase: Phase, latest: Option<Version>, available: bool,
                           error: Option<string>)

  // ----- the newest release -----

  datatype Release = Release(version: Option<Version>, draft: bool, assets: set<string>)

  predicate Offered(r: Release, asset: string) { !r.draft && asset in r.assets && r.version.Some? }

  /** Offered, no lower than any other offered, and higher than any after it. */
  predicate IsNewest(releases: seq<Release>, asset: string, i: int) {
    && 0 <= i < |releases| && Offered(releases[i], asset)
    && forall j :: 0 <= j < |releases| && Offered(releases[j], asset) ==>
         (if i < j then releases[j].version.value < releases[i].version.value
          else releases[j].version.value <= releases[i].version.value)
  }

  /** `max_by`'s choice: of the releases on offer with the greatest version, the one listed last. */
  function Newest(releases: seq<Release>, asset: string): (best: Option<Release>)
    ensures best.Some? ==> exists i :: IsNewest(releases, asset, i) && best.value == releases[i]
    ensures best.None? ==> forall r :: r in releases ==> !Offered(r, asset)
  {
    if releases == [] then None
    else
      var last := |releases| - 1;
      var best := Newest(releases[..last], asset);
      if Offered(releases[last], asset) && (best.None? || best.value.version.value <= releases[last].version.value)
      then
        LastIsNewest(releases, asset, best);
        Some(releases[last])
      else
        EarlierIsNewest(releases, asset, best);
        best
  }

  lemma LastIsNewest(releases: seq<Release>, asset: string, best: Option<Release>)
    requires releases != [] && Offered(releases[|releases| - 1], asset)
    requires best.Some? ==> exists i :: IsNewest(releases[..|releases| - 1], asset, i) && best.value == releases[i]
    requires best.Some? && best.value.version.Some? ==>
               best.value.version.value <= releases[|releases| - 1].version.value
    requires best.None? ==> forall r :: r in releases[..|releases| - 1] ==> !Offered(r, asset)
    ensures IsNewest(releases, asset, |releases| - 1)
  {
    var before := releases[..|releases| - 1];
    forall j | 0 <= j < |before| && Offered(releases[j], asset)
      ensures releases[j].version.value <= releases[|releases| - 1].version.value
    {
      assert before[j] == releases[j];
      assert before[j] in before;
      if best.Some? {
        var i :| IsNewest(before, asset, i) && best.value == releases[i];
      }
    }
  }

  lemma {:induction false} EarlierIsNewest(releases: seq<Release>, asset: string, best: Option<Release>)
    requires releases != []
    requires Offered(releases[|releases| - 1], asset) && best.Some? && best.value.version.Some? ==>
               best.value.version.value > releases[|releases| - 1].version.value
    requires best.Some? ==> exists i :: IsNewest(releases[..|releases| - 1], asset, i) && best.value == releases[i]
    ensures best.Some? ==> exists i :: IsNewest(releases, asset, i) && best.value == releases[i]
  {
    var before := releases[..|releases| - 1];
    if best.Some? {
      var i :| IsNewest(before, asset, i) && best.value == releases[i];
      forall j | 0 <= j < |releases| && Offered(releases[j], asset)
        ensures releases[j].version.value <= releases[i].version.value
        ensures i < j ==> releases[j].version.value < releases[i].version.value
      {
        if j < |before| { assert before[j] == releases[j]; }
      }
      assert IsNewest(releases, asset, i);
    }
  }

  // ----- checks, step by step -----

  /** Where a check is: it found nothing going on, it's about to read the channel, it's
      asking about one, or it's over (having recorded a result for a channel, if it did). */
  datatype Check = Began | Looking | Fetching(channel: Channel) | Over(recorded: Option<Channel>)

  /** What's shared, the checks running, and the channel the latest version was found on. */
  datatype State = State(status: Status, checks: map<nat, Check>, foundOn: Option<Channel>)

  datatype Step =
    | Begin(id: nat)
    | Mark(id: nat)
    | Read(id: nat)
    | Record(id: nat, found: Result<Version, string>)
    | SetChannel(channel: Channel)
    | Install(phase: Phase)

  function ChannelSet(s: Status, channel: Channel): Status {
    if s.channel == channel then s
    else s.(channel := channel, latest := None, available := false)
  }

  function Recorded(s: Status, found: Result<Version, string>, current: Version): Status {
    match found
    case Success(v) => s.(phase := Idle, latest := Some(v), available := v > current, error := None)
    case Failure(e) => s.(phase := Idle, error := Some("Couldn't check for updates: " + e))
  }

  function Apply(t: State, step: Step, current: Version): State {
    match step
    case Begin(id) =>
      if id in t.checks then t
      else t.(checks := t.checks[id := if t.status.phase == Idle then Began else Over(None)])
    case Mark(id) =>
      if !(id in t.checks && t.checks[id] == Began) then t
      else t.(status := t.status.(phase := Checking), checks := t.checks[id := Looking])
    case Read(id) =>
      if !(id in t.checks && t.checks[id] == Looking) then t
      else t.(checks := t.checks[id := Fetching(t.status.channel)])
    case Record(id, found) =>
      if !(id in t.checks && t.checks[id].Fetching?) then t
      else if t.checks[id].channel != t.status.channel then t.(checks := t.checks[id := Looking])
      else State(Recorded(t.status, found, current), t.checks[id := Over(Some(t.status.channel))],
                 if found.Success? then Some(t.checks[id].channel) else t.foundOn)
    case SetChannel(c) =>
      t.(status := ChannelSet(t.status, c))
    case Install(phase) =>
      t.(status := t.status.(phase := phase))
  }

  function Run(t: State, steps: seq<Step>, current: Version): State {
    if steps == [] then t else Apply(Run(t, steps[..|steps| - 1], current), steps[|steps| - 1], current)
  }

  function Start(channel: Channel): State { State(Status(channel, Idle, None, false, None), map[], None) }

  /** The version offered was found on the channel now set, and is newer than the
      one running; and if a check is going on, one really is. */
  ghost predicate Sound(t: State, current: Version) {
    && (t.status.latest.Some? ==> t.foundOn == Some(t.status.channel))
    && (t.status.available ==> t.status.latest.Some? && t.status.latest.value > current)
    && (t.status.phase == Checking ==>
          exists id :: id in t.checks && (t.checks[id].Looking? || t.checks[id].Fetching?))
  }

  lemma StepIsSound(t: State, step: Step, current: Version)
    requires Sound(t, current) && (step.Install? ==> step.phase != Checking)
    ensures Sound(Apply(t, step, current), current)
  {
    var u := Apply(t, step, current);
    if u.status.phase == Checking {
      if step.Mark? && u != t {
        assert u.checks[step.id].Looking?;
      } else {
        var id :| id in t.checks && (t.checks[id].Looking? || t.checks[id].Fetching?);
        assert u.checks[id].Looking? || u.checks[id].Fetching?;
      }
    }
  }

  /** Whatever checks, changes of channel and installs do in between. */
  lemma {:induction false} EveryRunIsSound(t: State, steps: seq<Step>, current: Version)
    requires Sound(t, current) && forall i :: 0 <= i < |steps| && steps[i].Install? ==> steps[i].phase != Checking
    ensures Sound(Run(t, steps, current), current)
  {
    hide Sound, Apply;
    if steps != [] {
      EveryRunIsSound(t, steps[..|steps| - 1], current);
      StepIsSound(Run(t, steps[..|steps| - 1], current), steps[|steps| - 1], current);
    }
  }

  /** A check that looked is over only once it recorded a result for the channel then set. */
  lemma OverOnceRecorded(t: State, step: Step, current: Version, id: nat)
    requires id in t.checks && (t.checks[id].Looking? || t.checks[id].Fetching?)
    ensures var u := Apply(t, step, current);
            id in u.checks && (u.checks[id].Over? ==>
              && step.Record? && step.id == id
              && u.checks[id] == Over(Some(t.status.channel))
              && u.status == Recorded(t.status, step.found, current))
  {
  }

  /** What an answer on the channel set comes to: the version found, on offer exactly if it's newer
      than the one running; or an error, with what was found before left as it was. */
  lemma RecordMeans(t: State, id: nat, found: Result<Version, string>, current: Version)
    requires id in t.checks && t.checks[id] == Fetching(t.status.channel)
    ensures var s := Apply(t, Record(id, found), current).status;
            && s.channel == t.status.channel && s.phase == Idle
            && (match found
                case Success(v) => s.latest == Some(v) && (s.available <==> v > current) && s.error.None?
                case Failure(_) =>
                  s.latest == t.status.latest && s.available == t.status.available && s.error.Some?)
  {
  }

  /** Another channel set leaves nothing on offer, and whatever goes on goes on; the same one changes nothing. */
  lemma SetChannelMeans(t: State, channel: Channel, current: Version)
    ensures var s := Apply(t, SetChannel(channel), current).status;
            && s.channel == channel && s.phase == t.status.phase && s.error == t.status.error
            && (if channel == t.status.channel then s == t.status else s.latest.None? && !s.available)
  {
  }

  /** A check begins only while nothing goes on; begun, it asks about the channel set as it reads it,
      and an answer for one that's not set any more sends it back to read again. */
  lemma CheckMeans(t: State, id: nat, found: Result<Version, string>, current: Version)
    ensures id !in t.checks ==>
              Apply(t, Begin(id), current).checks[id] == if t.status.phase == Idle then Began else Over(None)
    ensures id in t.checks && t.checks[id] == Began ==>
              var u := Apply(t, Mark(id), current); u.checks[id] == Looking && u.status.phase == Checking
    ensures id in t.checks && t.checks[id] == Looking ==>
              Apply(t, Read(id), current).checks[id] == Fetching(t.status.channel)
    ensures id in t.checks && t.checks[id].Fetching? && t.checks[id].channel != t.status.channel ==>
              var u := Apply(t, Record(id, found), current); u.checks[id] == Looking && u.status == t.status
  {
  }

  // ----- checks and installs -----

  ghost predicate AllOver(t: State) { forall id :: id in t.checks ==> t.checks[id].Over? }

  ghost predicate NoInstall(steps: seq<Step>) { forall i :: 0 <= i < |steps| ==> !steps[i].Install? }

  /** Nothing but its own steps changes what's said of an install, whatever else happens. */
  ghost predicate Stands(t: State, current: Version) {
    forall steps :: NoInstall(steps) ==> Run(t, steps, current).status.phase == t.status.phase
  }

  lemma {:induction false} InstallIsLeftAlone(t: State, steps: seq<Step>, current: Version)
    requires AllOver(t) && t.status.phase !in {Idle, Checking} && NoInstall(steps)
    ensures AllOver(Run(t, steps, current)) && Run(t, steps, current).status.phase == t.status.phase
  {
    if steps != [] { InstallIsLeftAlone(t, steps[..|steps| - 1], current); }
  }

  lemma RunOne(t: State, a: Step, current: Version)
    ensures Run(t, [a], current) == Apply(t, a, current)
  {
    assert [a][..0] == [];
  }

  lemma {:induction false} RunMore(t: State, a: Step, steps: seq<Step>, current: Version)
    ensures Run(t, [a] + steps, current) == Run(Apply(t, a, current), steps, current)
  {
    hide Apply;
    if steps == [] {
      RunOne(t, a, current);
      assert [a] + steps == [a];
    } else {
      RunMore(t, a, steps[..|steps| - 1], current);
      assert ([a] + steps)[..|steps|] == [a] + steps[..|steps| - 1];
    }
  }

  /** A check that's on says it's over, or under way, whatever else is. */
  lemma CheckSpeaksUp(t: State, id: nat, current: Version) returns (steps: seq<Step>)
    requires id in t.checks && !t.checks[id].Over? && t.status.phase !in {Idle, Checking}
    ensures NoInstall(steps) && Run(t, steps, current).status.phase in {Idle, Checking}
  {
    var done := Record(id, Success(current));
    match t.checks[id] {
      case Began =>
        steps := [Mark(id)];
        RunOne(t, Mark(id), current);
      case Looking =>
        steps := [Read(id), done];
        RunMore(t, Read(id), [done], current);
        RunOne(Apply(t, Read(id), current), done, current);
        assert [Read(id)] + [done] == steps;
      case Fetching(c) =>
        if c == t.status.channel {
          steps := [done];
          RunOne(t, done, current);
        } else {
          steps := [done, Read(id), done];
          var u := Apply(t, done, current);
          RunMore(t, done, [Read(id), done], current);
          RunMore(u, Read(id), [done], current);
          RunOne(Apply(u, Read(id), current), done, current);
          assert [done] + [Read(id), done] == steps && [Read(id)] + [done] == [Read(id), done];
        }
    }
  }

  /** Finding nothing going on and saying that a check is aren't one step. What's said
      of an install stands exactly if no check is on when it starts. */
  lemma InstallStandsWhenNoCheckIsOn(t: State, current: Version)
    requires t.status.phase !in {Idle, Checking}
    ensures Stands(t, current) <==> AllOver(t)
  {
    if AllOver(t) {
      forall steps | NoInstall(steps) ensures Run(t, steps, current).status.phase == t.status.phase {
        InstallIsLeftAlone(t, steps, current);
      }
    } else {
      var id :| id in t.checks && !t.checks[id].Over?;
      var steps := CheckSpeaksUp(t, id, current);
      assert NoInstall(steps) && Run(t, steps, current).status.phase != t.status.phase;
    }
  }

  /** So it needn't: a check began just before. */
  lemma InstallCanBeSpokenOver(channel: Channel, current: Version)
    ensures var t := Run(Start(channel), [Begin(0), Install(Downloading)], current);
            t.status.phase == Downloading && Sound(t, current) && !Stands(t, current)
  {
    var install := Install(Downloading);
    StartIsSound(channel, [Begin(0), install], current);
    RunMore(Start(channel), Begin(0), [install], current);
    assert [Begin(0)] + [install] == [Begin(0), install];
    RunOne(Apply(Start(channel), Begin(0), current), install, current);
    var t := Apply(Apply(Start(channel), Begin(0), current), install, current);
    assert t == Run(Start(channel), [Begin(0), install], current);
    assert t.status.phase == Downloading && 0 in t.checks && t.checks[0] == Began;
    InstallStandsWhenNoCheckIsOn(t, current);
  }

  /** From the start on, whatever checks, changes of channel and installs do. */
  lemma StartIsSound(channel: Channel, steps: seq<Step>, current: Version)
    requires forall i :: 0 <= i < |steps| && steps[i].Install? ==> steps[i].phase != Checking
    ensures Sound(Run(Start(channel), steps, current), current)
  {
    hide Run;
    EveryRunIsSound(Start(channel), steps, current);
  }

  // ----- the object -----

  /** What the release server answers in a round of a check, and the channels set while it's asked. */
  datatype World = World(answer: (nat, Channel) -> Result<Version, string>, meanwhile: nat -> seq<Channel>)

  function LastOr(c: Channel, changes: seq<Channel>): Channel {
    if changes == [] then c else changes[|changes| - 1]
  }

  /** The channel set as round `n` of a check begins. */
  function ChannelAt(c: Channel, world: World, n: nat): Channel {
    if n == 0 then c else LastOr(ChannelAt(c, world, n - 1), world.meanwhile(n - 1))
  }

  /** Round by round the channel was changed meanwhile. */
  ghost predicate Unsettled(c: Channel, world: World, n: nat) {
    forall k: nat :: k < n ==> ChangedIn(c, world, k)
  }

  predicate ChangedIn(c: Channel, world: World, k: nat) { ChannelAt(c, world, k + 1) != ChannelAt(c, world, k) }

  class Updater {
    const current: Version
    var status: Status

    constructor (current: Version, channel: Channel)
      ensures this.current == current && status == Start(channel).status
    {
      this.current := current;
      status := Status(channel, Idle, None, false, None);
    }

    /** Another channel leaves nothing of what was found on the one before. */
    method SetChannel(channel: Channel)
      modifies this
      ensures status == ChannelSet(old(status), channel)
    {
      if status.channel != channel {
        status := status.(channel := channel, latest := None, available := false);
      }
    }

    /** Look until an answer is for the channel set by then: that ends, once the channel is left alone. */
    method Check(world: World, ghost rounds: nat)
      requires forall n :: n >= rounds ==> world.meanwhile(n) == []
      modifies this
      ensures old(status.phase) != Idle ==> status == old(status)
      ensures old(status.phase) == Idle ==>
                exists n: nat, before: Status ::
                  && before.channel == ChannelAt(old(status.channel), world, n)
                  && Unsettled(old(status.channel), world, n) && !ChangedIn(old(status.channel), world, n)
                  && (before.latest.None? || before.latest == old(status.latest))
                  && status == Recorded(before, world.answer(n, before.channel), current)
    {
      if status.phase != Idle { return; }
      status := status.(phase := Checking);
      var n := 0;
      while true
        invariant status.phase == Checking
        invariant status.latest.None? || status.latest == old(status.latest)
        invariant status.channel == ChannelAt(old(status.channel), world, n)
        invariant Unsettled(old(status.channel), world, n)
        decreases rounds - n
      {
        var channel := status.channel;
        var found := world.answer(n, channel);
        var changes := world.meanwhile(n);
        var i := 0;
        while i < |changes|
          invariant 0 <= i <= |changes| && status.phase == Checking
          invariant status.latest.None? || status.latest == old(status.latest)
          invariant status.channel == LastOr(channel, changes[..i])
        {
          SetChannel(changes[i]);
          i := i + 1;
        }
        assert changes[..i] == changes;
        assert status.channel == ChannelAt(old(status.channel), world, n + 1);
        if status.channel == channel {
          status := Recorded(status, found, current);
          return;
        }
        n := n + 1;
      }
    }
  }
}
