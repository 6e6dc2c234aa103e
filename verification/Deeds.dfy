/** What the scheduler asks of nodes to start and stop runs, and the record of having asked. */
module Deeds {
  import opened Wrappers
  import opened Recurrence
  import opened RunTable

  const MIN_LEAD_US: int := 1_500_000
  const MAX_LEAD_US: int := 8_000_000

  datatype Source = Source(nodeId: string, sourceId: string)

  datatype Action =
    | Record(targets: seq<Source>, presetId: string)
    | Playout(nodeId: string, channelId: string, itemId: Option<string>, stopAtEnd: bool)

  /** A stored schedule: `rule` is none if it doesn't parse, `saved` if its time doesn't. */
  datatype Schedule = Schedule(id: string, enabled: bool, rule: Option<Rule>, saved: Option<Instant>,
                               actions: seq<Action>)

  /** Requests to nodes. */
  datatype Call =
    | StartRecording(nodeId: string, sourceId: string, presetId: string, leadUs: int)
    | Play(nodeId: string, channelId: string, itemId: Option<string>)
    | StopRecording(nodeId: string, session: string)
    | StopChannel(nodeId: string, channelId: string)

  /** What the world answers: the `i`-th request to a node (a started recording's
      session, or an error), and the wall clock after `i` requests. */
  datatype World = World(reply: nat -> Result<string, string>, clock: nat -> Instant)

  // ----- starting -----

  /** What an occurrence is to start, recordings first, with the preset if it's still there. */
  datatype Wanted =
    | Recorded(source: Source, presetId: Option<string>)
    | Played(nodeId: string, channelId: string, itemId: Option<string>, stopAtEnd: bool)

  function RecordingsOf(actions: seq<Action>, presets: set<string>): seq<Wanted> {
    if actions == [] then [] else RecordingsIn(actions[0], presets) + RecordingsOf(actions[1..], presets)
  }

  function RecordingsIn(a: Action, presets: set<string>): seq<Wanted> {
    match a
    case Record(targets, p) =>
      seq(|targets|, i requires 0 <= i < |targets| => Recorded(targets[i], if p in presets then Some(p) else None))
    case Playout(_, _, _, _) => []
  }

  function PlayoutsOf(actions: seq<Action>): seq<Wanted> {
    if actions == [] then []
    else
      (match actions[0]
       case Record(_, _) => []
       case Playout(n, c, i, s) => [Played(n, c, i, s)]) + PlayoutsOf(actions[1..])
  }

  function LeadUs(wait: int): (us: int)
    ensures MIN_LEAD_US <= us <= MAX_LEAD_US
  {
    var w := wait / 1000;
    if w < MIN_LEAD_US then MIN_LEAD_US else if w > MAX_LEAD_US then MAX_LEAD_US else w
  }

  function RequestFor(w: Wanted, leadUs: int): Option<Call> {
    match w
    case Recorded(s, Some(p)) => Some(StartRecording(s.nodeId, s.sourceId, p, leadUs))
    case Recorded(_, None) => None
    case Played(n, c, i, _) => Some(Play(n, c, i))
  }

  function TargetFor(w: Wanted, reply: Result<string, string>): (t: Target)
    ensures t.WellFormed()
  {
    match w
    case Recorded(s, None) => Target(Recording, s.nodeId, s.sourceId, None, Some("its preset was deleted"), true)
    case Recorded(s, Some(_)) =>
      (match reply
       case Success(session) => Target(Recording, s.nodeId, s.sourceId, Some(session), None, true)
       case Failure(e) => Target(Recording, s.nodeId, s.sourceId, None, Some(e), true))
    case Played(n, c, _, stop) =>
      Target(Channel, n, c, None, (match reply case Success(_) => None case Failure(e) => Some(e)), stop)
  }

  predicate AnyFailed(targets: seq<Target>) { exists i :: 0 <= i < |targets| && targets[i].error.Some? }

  predicate AllFailed(targets: seq<Target>) { forall i :: 0 <= i < |targets| ==> targets[i].error.Some? }

  function StartedStatus(targets: seq<Target>, ends: bool): Status {
    if AllFailed(targets) then Failed
    else if ends then Running
    else if AnyFailed(targets) then Partial
    else Done
  }

  // ----- stopping -----

  function StopFor(t: Target): Option<Call> {
    if t.error.Some? || !t.stopAtEnd then None
    else if t.kind == Channel then Some(StopChannel(t.nodeId, t.id))
    else if t.session.Some? then Some(StopRecording(t.nodeId, t.session.value))
    else None
  }

  function Stops(targets: seq<Target>): seq<Call> {
    FilterMap(StopFor, targets)
  }

  /** Stopping asks for exactly what started without error and stops at its end. */
  lemma StopsAreExact(targets: seq<Target>, t: Target)
    requires t.WellFormed() && t in targets
    ensures StopFor(t).Some? <==> t.error.None? && t.stopAtEnd
    ensures StopFor(t).Some? ==> StopFor(t).value in Stops(targets)
  {
    var i :| 0 <= i < |targets| && targets[i] == t;
  }

  lemma StopsAreOfTargets(targets: seq<Target>, c: Call)
    requires c in Stops(targets)
    ensures exists t :: t in targets && t.error.None? && t.stopAtEnd && StopFor(t) == Some(c)
  {
    var i :| 0 <= i < |targets| && StopFor(targets[i]) == Some(c);
    assert targets[i] in targets;
  }

  // ----- everything a run is to start -----

  /** Ask for each thing wanted: what became of it, and the requests sent. */
  function StartAll(wanted: seq<Wanted>, calls: seq<Call>, leadUs: int, world: World): (seq<Target>, seq<Call>) {
    if wanted == [] then ([], calls)
    else
      var (targets, sent) := StartAll(wanted[..|wanted| - 1], calls, leadUs, world);
      var w := wanted[|wanted| - 1];
      var request := RequestFor(w, leadUs);
      (targets + [TargetFor(w, world.reply(|sent|))], if request.Some? then sent + [request.value] else sent)
  }

  /** Each thing wanted gets its target, in order, and one request if its preset is there. */
  lemma {:induction false} StartAllAsksForEach(wanted: seq<Wanted>, calls: seq<Call>, leadUs: int, world: World)
    ensures var (targets, sent) := StartAll(wanted, calls, leadUs, world);
            && |targets| == |wanted| && (forall i :: 0 <= i < |wanted| ==> IsFor(targets[i], wanted[i]))
            && sent == calls + Requests(wanted, leadUs)
  {
    if wanted == [] {
      assert calls + [] == calls;
    } else {
      hide StartAll, IsFor, Requests, RequestFor, TargetFor;
      var n := |wanted| - 1;
      var (targets, sent) := StartAll(wanted[..n], calls, leadUs, world);
      StartAllAsksForEach(wanted[..n], calls, leadUs, world);
      RequestsMore(wanted[..n], wanted[n], leadUs);
      assert wanted == wanted[..n] + [wanted[n]];
      TargetIsFor(wanted[n], world.reply(|sent|));
      StartAllMore(wanted, calls, leadUs, world);
      assert forall i :: 0 <= i < n ==> wanted[..n][i] == wanted[i];
    }
  }

  lemma StartAllMore(wanted: seq<Wanted>, calls: seq<Call>, leadUs: int, world: World)
    requires wanted != []
    ensures var n := |wanted| - 1;
            var (targets, sent) := StartAll(wanted[..n], calls, leadUs, world);
            var request := RequestFor(wanted[n], leadUs);
            StartAll(wanted, calls, leadUs, world) ==
            (targets + [TargetFor(wanted[n], world.reply(|sent|))],
             sent + if request.Some? then [request.value] else [])
  {
    hide RequestFor, TargetFor;
    var (targets, sent) := StartAll(wanted[..|wanted| - 1], calls, leadUs, world);
    assert sent + [] == sent;
  }

  lemma TargetIsFor(w: Wanted, reply: Result<string, string>)
    ensures IsFor(TargetFor(w, reply), w)
  {
  }

  /** A target is the source's or channel's that was wanted, without a session if it failed. */
  predicate IsFor(t: Target, w: Wanted) {
    match w
    case Recorded(s, _) =>
      t.kind == Recording && t.nodeId == s.nodeId && t.id == s.sourceId
      && t.stopAtEnd && (t.session.None? <==> t.error.Some?)
    case Played(n, c, _, stop) => t.kind == Channel && t.nodeId == n && t.id == c && t.stopAtEnd == stop
  }

  /** One request for each thing wanted whose preset is there, in order. */
  function Requests(wanted: seq<Wanted>, leadUs: int): seq<Call> { FilterMap(w => RequestFor(w, leadUs), wanted) }

  lemma {:induction false} RequestsMore(wanted: seq<Wanted>, w: Wanted, leadUs: int)
    ensures Requests(wanted + [w], leadUs) ==
            Requests(wanted, leadUs) + if RequestFor(w, leadUs).Some? then [RequestFor(w, leadUs).value] else []
  {
    if wanted == [] {
      assert [] + [w] == [w] && [w][1..] == [];
    } else {
      assert (wanted + [w])[1..] == wanted[1..] + [w];
      RequestsMore(wanted[1..], w, leadUs);
    }
  }

  lemma {:induction false} StartAllIsWellFormed(wanted: seq<Wanted>, calls: seq<Call>, leadUs: int, world: World)
    ensures forall t :: t in StartAll(wanted, calls, leadUs, world).0 ==> t.WellFormed()
  {
    if wanted != [] { StartAllIsWellFormed(wanted[..|wanted| - 1], calls, leadUs, world); }
  }

  function Wants(s: Schedule, presets: set<string>): seq<Wanted> {
    RecordingsOf(s.actions, presets) + PlayoutsOf(s.actions)
  }

  // ----- what that is, action by action -----

  /** How many sources there are to record in a list of actions, and how many channels to play. */
  function Sources(actions: seq<Action>): nat {
    if actions == [] then 0
    else (if actions[0].Record? then |actions[0].targets| else 0) + Sources(actions[1..])
  }

  function Channels(actions: seq<Action>): nat {
    if actions == [] then 0 else (if actions[0].Playout? then 1 else 0) + Channels(actions[1..])
  }

  /** And how many of the sources are to be recorded with a preset that's there. */
  function Recordable(actions: seq<Action>, presets: set<string>): nat {
    if actions == [] then 0
    else
      (if actions[0].Record? && actions[0].presetId in presets then |actions[0].targets| else 0)
      + Recordable(actions[1..], presets)
  }

  lemma {:induction false} RecordingAt(actions: seq<Action>, presets: set<string>, i: nat, j: nat)
    requires i < |actions| && actions[i].Record? && j < |actions[i].targets|
    ensures |RecordingsOf(actions, presets)| == Sources(actions) > Sources(actions[..i]) + j
    ensures RecordingsOf(actions, presets)[Sources(actions[..i]) + j] ==
            Recorded(actions[i].targets[j], if actions[i].presetId in presets then Some(actions[i].presetId) else None)
  {
    RecordingsAreSources(actions, presets);
    RecordingsInAre(actions[0], presets);
    hide RecordingsIn;
    var head, rest := RecordingsIn(actions[0], presets), RecordingsOf(actions[1..], presets);
    assert RecordingsOf(actions, presets) == head + rest;
    if i > 0 {
      RecordingAt(actions[1..], presets, i - 1, j);
      assert actions[..i][1..] == actions[1..][..i - 1];
      var at := Sources(actions[1..][..i - 1]) + j;
      assert Sources(actions[..i]) + j == |head| + at && (head + rest)[|head| + at] == rest[at];
    }
  }

  lemma RecordingsInAre(a: Action, presets: set<string>)
    ensures |RecordingsIn(a, presets)| == if a.Record? then |a.targets| else 0
    ensures a.Record? ==> forall j :: 0 <= j < |a.targets| ==>
              RecordingsIn(a, presets)[j] ==
              Recorded(a.targets[j], if a.presetId in presets then Some(a.presetId) else None)
  {
  }

  lemma {:induction false} RecordingsAreSources(actions: seq<Action>, presets: set<string>)
    ensures |RecordingsOf(actions, presets)| == Sources(actions)
  {
    if actions != [] {
      RecordingsAreSources(actions[1..], presets);
      RecordingsInAre(actions[0], presets);
    }
  }

  lemma {:induction false} PlayoutAt(actions: seq<Action>, i: nat)
    requires i < |actions| && actions[i].Playout?
    ensures |PlayoutsOf(actions)| == Channels(actions) > Channels(actions[..i])
    ensures PlayoutsOf(actions)[Channels(actions[..i])] ==
            Played(actions[i].nodeId, actions[i].channelId, actions[i].itemId, actions[i].stopAtEnd)
  {
    PlayoutsAreChannels(actions);
    if i > 0 {
      PlayoutAt(actions[1..], i - 1);
      assert actions[..i][1..] == actions[1..][..i - 1];
    }
  }

  lemma {:induction false} PlayoutsAreChannels(actions: seq<Action>)
    ensures |PlayoutsOf(actions)| == Channels(actions)
  {
    if actions != [] { PlayoutsAreChannels(actions[1..]); }
  }

  /** A schedule wants each source of its recording actions recorded, with the action's preset if
      it's still there, and then each channel of its playout actions played, all in the actions'
      order; and nothing else. */
  lemma WantsAreTheActions(s: Schedule, presets: set<string>)
    ensures |Wants(s, presets)| == Sources(s.actions) + Channels(s.actions)
    ensures forall i, j :: 0 <= i < |s.actions| && s.actions[i].Record? && 0 <= j < |s.actions[i].targets| ==>
              var a := s.actions[i];
              && Sources(s.actions[..i]) + j < Sources(s.actions)
              && Wants(s, presets)[Sources(s.actions[..i]) + j] ==
                 Recorded(a.targets[j], if a.presetId in presets then Some(a.presetId) else None)
    ensures forall i :: 0 <= i < |s.actions| && s.actions[i].Playout? ==>
              var a := s.actions[i];
              && Channels(s.actions[..i]) < Channels(s.actions)
              && Wants(s, presets)[Sources(s.actions) + Channels(s.actions[..i])] ==
                 Played(a.nodeId, a.channelId, a.itemId, a.stopAtEnd)
  {
    RecordingsAreSources(s.actions, presets);
    PlayoutsAreChannels(s.actions);
    hide RecordingsOf, PlayoutsOf, Sources, Channels;
    forall i, j | 0 <= i < |s.actions| && s.actions[i].Record? && 0 <= j < |s.actions[i].targets|
      ensures var a := s.actions[i];
              && Sources(s.actions[..i]) + j < Sources(s.actions)
              && Wants(s, presets)[Sources(s.actions[..i]) + j] ==
                 Recorded(a.targets[j], if a.presetId in presets then Some(a.presetId) else None)
    {
      RecordingAt(s.actions, presets, i, j);
    }
    forall i | 0 <= i < |s.actions| && s.actions[i].Playout?
      ensures var a := s.actions[i];
              && Channels(s.actions[..i]) < Channels(s.actions)
              && Wants(s, presets)[Sources(s.actions) + Channels(s.actions[..i])] ==
                 Played(a.nodeId, a.channelId, a.itemId, a.stopAtEnd)
    {
      PlayoutAt(s.actions, i);
    }
  }

  // ----- and request by request -----

  lemma {:induction false} RequestsAdd(a: seq<Wanted>, b: seq<Wanted>, leadUs: int)
    ensures Requests(a + b, leadUs) == Requests(a, leadUs) + Requests(b, leadUs)
  {
    FilterMapAdds(w => RequestFor(w, leadUs), a, b);
  }

  lemma {:induction false} RequestsOfSources(targets: seq<Source>, preset: Option<string>, leadUs: int)
    ensures var wanted := seq(|targets|, i requires 0 <= i < |targets| => Recorded(targets[i], preset));
            Requests(wanted, leadUs) == if preset.Some? then ToRecord(targets, preset.value, leadUs) else []
  {
    var wanted := seq(|targets|, i requires 0 <= i < |targets| => Recorded(targets[i], preset));
    if targets != [] {
      var rest := targets[1..];
      RequestsOfSources(rest, preset, leadUs);
      assert wanted[1..] == seq(|rest|, i requires 0 <= i < |rest| => Recorded(rest[i], preset));
    }
  }

  /** Each source's node is asked to record it with the preset. */
  function ToRecord(targets: seq<Source>, preset: string, leadUs: int): seq<Call> {
    seq(|targets|, i requires 0 <= i < |targets| =>
          StartRecording(targets[i].nodeId, targets[i].sourceId, preset, leadUs))
  }

  /** From `at` on, a recording action's requests were sent. */
  ghost predicate AsksToRecord(sent: seq<Call>, at: nat, a: Action, leadUs: int)
    requires a.Record?
  {
    at + |a.targets| <= |sent| && sent[at..at + |a.targets|] == ToRecord(a.targets, a.presetId, leadUs)
  }

  ghost predicate AsksToPlay(sent: seq<Call>, at: nat, a: Action)
    requires a.Playout?
  {
    at < |sent| && sent[at] == Play(a.nodeId, a.channelId, a.itemId)
  }

  lemma ActionRequests(a: Action, presets: set<string>, leadUs: int)
    ensures var sent := Requests(RecordingsIn(a, presets), leadUs);
            && |sent| == (if a.Record? && a.presetId in presets then |a.targets| else 0)
            && (a.Record? && a.presetId in presets ==> AsksToRecord(sent, 0, a, leadUs))
  {
    if a.Record? {
      RequestsOfSources(a.targets, if a.presetId in presets then Some(a.presetId) else None, leadUs);
    }
  }

  lemma AsksStill(before: seq<Call>, sent: seq<Call>, after: seq<Call>, at: nat, a: Action, leadUs: int)
    requires a.Record? && AsksToRecord(sent, at, a, leadUs)
    ensures AsksToRecord(before + sent + after, |before| + at, a, leadUs)
  {
    hide ToRecord;
    var n := |a.targets|;
    assert (before + sent + after)[|before| + at..|before| + at + n] == sent[at..at + n];
  }

  lemma {:induction false} RecordingRequestsAt(actions: seq<Action>, presets: set<string>, i: nat, leadUs: int)
    requires i < |actions| && actions[i].Record? && actions[i].presetId in presets
    ensures AsksToRecord(Requests(RecordingsOf(actions, presets), leadUs), Recordable(actions[..i], presets),
                         actions[i], leadUs)
  {
    hide Requests, RecordingsIn, AsksToRecord;
    var head, rest := RecordingsIn(actions[0], presets), RecordingsOf(actions[1..], presets);
    var first, more := Requests(head, leadUs), Requests(rest, leadUs);
    RequestsAdd(head, rest, leadUs);
    ActionRequests(actions[0], presets, leadUs);
    assert first + more == first + more + [] == [] + first + more;
    if i == 0 {
      AsksStill([], first, more, 0, actions[0], leadUs);
    } else {
      RecordingRequestsAt(actions[1..], presets, i - 1, leadUs);
      assert actions[..i][1..] == actions[1..][..i - 1];
      AsksStill(first, more, [], Recordable(actions[1..][..i - 1], presets), actions[i], leadUs);
    }
  }

  lemma {:induction false} RecordingRequestsAre(actions: seq<Action>, presets: set<string>, leadUs: int)
    ensures |Requests(RecordingsOf(actions, presets), leadUs)| == Recordable(actions, presets)
  {
    hide Requests, RecordingsIn;
    if actions == [] {
      NothingAsked(leadUs);
    } else {
      RecordingRequestsAre(actions[1..], presets, leadUs);
      RequestsAdd(RecordingsIn(actions[0], presets), RecordingsOf(actions[1..], presets), leadUs);
      ActionRequests(actions[0], presets, leadUs);
    }
  }

  lemma NothingAsked(leadUs: int)
    ensures Requests([], leadUs) == []
  {
  }

  lemma {:induction false} PlayoutRequestsAre(actions: seq<Action>, leadUs: int)
    ensures |Requests(PlayoutsOf(actions), leadUs)| == Channels(actions)
  {
    hide Requests;
    if actions == [] {
      NothingAsked(leadUs);
    } else {
      FirstPlayout(actions, leadUs);
      PlayoutRequestsAre(actions[1..], leadUs);
    }
  }

  /** The first action's request, if it's a playout, comes before the others'. */
  lemma FirstPlayout(actions: seq<Action>, leadUs: int)
    requires actions != []
    ensures var a := actions[0];
            Requests(PlayoutsOf(actions), leadUs) ==
            (if a.Playout? then [Play(a.nodeId, a.channelId, a.itemId)] else [])
            + Requests(PlayoutsOf(actions[1..]), leadUs)
  {
    var rest := PlayoutsOf(actions[1..]);
    if actions[0].Playout? {
      var head := Played(actions[0].nodeId, actions[0].channelId, actions[0].itemId, actions[0].stopAtEnd);
      assert PlayoutsOf(actions) == [head] + rest;
      RequestsAdd([head], rest, leadUs);
      assert [head][1..] == [];
    } else {
      assert PlayoutsOf(actions) == rest;
    }
  }

  lemma {:induction false} PlayoutRequestsAt(actions: seq<Action>, i: nat, leadUs: int)
    requires i < |actions| && actions[i].Playout?
    ensures AsksToPlay(Requests(PlayoutsOf(actions), leadUs), Channels(actions[..i]), actions[i])
  {
    hide Requests;
    FirstPlayout(actions, leadUs);
    if i > 0 {
      PlayoutRequestsAt(actions[1..], i - 1, leadUs);
      assert actions[..i][1..] == actions[1..][..i - 1];
    }
  }

  /** So each node is asked to record each of its sources with the action's preset, wherever that's
      still there, and then to play each of its channels' items; once each, in the actions' order. */
  ghost predicate AsksForTheActions(sent: seq<Call>, actions: seq<Action>, presets: set<string>, leadUs: int) {
    && |sent| == Recordable(actions, presets) + Channels(actions)
    && (forall i :: 0 <= i < |actions| && actions[i].Record? && actions[i].presetId in presets ==>
          AsksToRecord(sent, Recordable(actions[..i], presets), actions[i], leadUs))
    && (forall i :: 0 <= i < |actions| && actions[i].Playout? ==>
          AsksToPlay(sent, Recordable(actions, presets) + Channels(actions[..i]), actions[i]))
  }

  lemma RequestsAreTheActions(s: Schedule, presets: set<string>, leadUs: int)
    ensures AsksForTheActions(Requests(Wants(s, presets), leadUs), s.actions, presets, leadUs)
  {
    var recordings, playouts := RecordingsOf(s.actions, presets), PlayoutsOf(s.actions);
    RequestsAdd(recordings, playouts, leadUs);
    RecordingRequestsAre(s.actions, presets, leadUs);
    PlayoutRequestsAre(s.actions, leadUs);
    hide Requests, RecordingsOf, PlayoutsOf, Recordable, Channels;
    var sent := Requests(Wants(s, presets), leadUs);
    assert sent == Requests(recordings, leadUs) + Requests(playouts, leadUs);
    forall i | 0 <= i < |s.actions| && s.actions[i].Record? && s.actions[i].presetId in presets
      ensures AsksToRecord(sent, Recordable(s.actions[..i], presets), s.actions[i], leadUs)
    {
      RecordingRequestsAt(s.actions, presets, i, leadUs);
      AsksStill([], Requests(recordings, leadUs), Requests(playouts, leadUs), Recordable(s.actions[..i], presets),
                s.actions[i], leadUs);
      assert [] + Requests(recordings, leadUs) + Requests(playouts, leadUs) == sent;
    }
    forall i | 0 <= i < |s.actions| && s.actions[i].Playout?
      ensures AsksToPlay(sent, Recordable(s.actions, presets) + Channels(s.actions[..i]), s.actions[i])
    {
      var at := Channels(s.actions[..i]);
      PlayoutRequestsAt(s.actions, i, leadUs);
      assert sent[Recordable(s.actions, presets) + at] == Requests(playouts, leadUs)[at];
    }
  }

  // ----- what comes of it -----

  /** A target notes the reply to its own request: a recording's session, or what went wrong. */
  predicate Notes(t: Target, reply: Result<string, string>) {
    match reply
    case Success(session) => t.error.None? && t.session == (if t.kind == Recording then Some(session) else None)
    case Failure(e) => t.error == Some(e) && t.session.None?
  }

  /** What's wanted with its preset deleted is noted as failed; whatever else gets its own reply. */
  lemma {:induction false} TargetsNoteReplies(wanted: seq<Wanted>, calls: seq<Call>, leadUs: int, world: World, k: nat)
    requires k < |wanted|
    ensures var targets := StartAll(wanted, calls, leadUs, world).0;
            && |targets| == |wanted|
            && if wanted[k].Recorded? && wanted[k].presetId.None?
               then targets[k].error.Some? && targets[k].session.None?
               else Notes(targets[k], world.reply(|calls| + |Requests(wanted[..k], leadUs)|))
  {
    hide Requests, StartAll, IsFor, TargetFor, Notes;
    var n := |wanted| - 1;
    StartAllCounts(wanted[..n], calls, leadUs, world);
    StartAllMore(wanted, calls, leadUs, world);
    if k < n {
      TargetsNoteReplies(wanted[..n], calls, leadUs, world, k);
      assert wanted[..n][..k] == wanted[..k] && wanted[..n][k] == wanted[k];
    } else {
      TargetNotes(wanted[n], world.reply(|calls| + |Requests(wanted[..n], leadUs)|));
    }
  }

  lemma StartAllCounts(wanted: seq<Wanted>, calls: seq<Call>, leadUs: int, world: World)
    ensures var (targets, sent) := StartAll(wanted, calls, leadUs, world);
            |targets| == |wanted| && |sent| == |calls| + |Requests(wanted, leadUs)|
  {
    hide Requests, StartAll, IsFor;
    StartAllAsksForEach(wanted, calls, leadUs, world);
  }

  lemma TargetNotes(w: Wanted, reply: Result<string, string>)
    ensures var t := TargetFor(w, reply);
            if w.Recorded? && w.presetId.None? then t.error.Some? && t.session.None? else Notes(t, reply)
  {
  }

  /** What one request started is what the run's end stops: the node's recording by its session,
      or its channel if that's to stop; and nothing that didn't start. */
  lemma WhatStartsIsStopped(w: Wanted, reply: Result<string, string>)
    ensures StopFor(TargetFor(w, reply)) ==
            match (w, reply)
            case (Recorded(source, Some(_)), Success(session)) => Some(StopRecording(source.nodeId, session))
            case (Played(node, channel, _, true), Success(_)) => Some(StopChannel(node, channel))
            case _ => None
  {
  }

  /** Stops are sent once each, in the order of the targets. */
  lemma StopsAt(targets: seq<Target>, k: nat)
    requires k < |targets|
    ensures Stops(targets) == Stops(targets[..k])
                              + (if StopFor(targets[k]).Some? then [StopFor(targets[k]).value] else [])
                              + Stops(targets[k + 1..])
  {
    FilterMapAt(StopFor, targets, k);
  }

  lemma FailedMeans(targets: seq<Target>)
    ensures AnyFailed(targets) <==> exists t :: t in targets && t.error.Some?
    ensures AllFailed(targets) <==> forall t :: t in targets ==> t.error.Some?
  {
  }

  /** How a run is once all was asked for. */
  lemma StatusMeans(targets: seq<Target>, ends: bool)
    ensures var status := StartedStatus(targets, ends);
            && (status == Failed <==> forall t :: t in targets ==> t.error.Some?)
            && (status == Running <==> ends && exists t :: t in targets && t.error.None?)
            && (status == Partial <==>
                !ends && (exists t :: t in targets && t.error.None?) && exists t :: t in targets && t.error.Some?)
            && (status == Done <==> !ends && targets != [] && forall t :: t in targets ==> t.error.None?)
  {
    FailedMeans(targets);
    if targets != [] { assert targets[0] in targets; }
  }

  /** The lead given is what's left until the start, in microseconds, or the bound it's beyond. */
  lemma LeadIsTheWait(wait: int)
    ensures MIN_LEAD_US * 1000 <= wait < MAX_LEAD_US * 1000 ==> LeadUs(wait) * 1000 <= wait < LeadUs(wait) * 1000 + 1000
    ensures wait <= MIN_LEAD_US * 1000 ==> LeadUs(wait) == MIN_LEAD_US
    ensures wait >= MAX_LEAD_US * 1000 ==> LeadUs(wait) == MAX_LEAD_US
  {
  }

  /** Cut short, the requests sent are the first of all. */
  lemma {:induction false} RequestsOfFirst(wanted: seq<Wanted>, k: nat, leadUs: int)
    requires k <= |wanted|
    ensures Requests(wanted[..k], leadUs) <= Requests(wanted, leadUs)
    decreases |wanted| - k
  {
    hide Requests, RequestFor;
    if k < |wanted| {
      assert wanted[..k + 1] == wanted[..k] + [wanted[k]];
      RequestsMore(wanted[..k], wanted[k], leadUs);
      RequestsOfFirst(wanted, k + 1, leadUs);
    } else {
      assert wanted[..k] == wanted;
    }
  }

  // ----- the record -----

  /** An occurrence: a schedule and a planned start. */
  type Occurrence = (string, Instant)

  /** Every start in the list is a different occurrence. */
  ghost predicate NoRepeats(begun: seq<Occurrence>) {
    forall i, j :: 0 <= i < j < |begun| ==> begun[i] != begun[j]
  }

  function Of(run: Run): Occurrence { (run.scheduleId, run.plannedStart) }

  /** Nodes were asked to start an occurrence's recordings and playouts, of all it wants, and
      this came of it; or to stop what a run of it noted that it had started. */
  datatype Deed =
    | ToStart(o: Occurrence, wanted: seq<Wanted>, leadUs: int, targets: seq<Target>, sent: seq<Call>)
    | ToStop(o: Occurrence, targets: seq<Target>, sent: seq<Call>)

  /** Every request sent, in order. */
  function Told(deeds: seq<Deed>): seq<Call> {
    if deeds == [] then [] else Told(deeds[..|deeds| - 1]) + deeds[|deeds| - 1].sent
  }

  /** The occurrences started, in order. */
  function BegunIn(deeds: seq<Deed>): seq<Occurrence> {
    if deeds == [] then []
    else BegunIn(deeds[..|deeds| - 1]) + if deeds[|deeds| - 1].ToStart? then [deeds[|deeds| - 1].o] else []
  }

  /** Nothing but what was wanted is asked for, in order and once each, nor but what is to be stopped. */
  ghost predicate Honest(d: Deed) {
    match d
    case ToStart(_, wanted, leadUs, _, sent) => sent <= Requests(wanted, leadUs)
    case ToStop(_, targets, sent) => sent <= Stops(targets)
  }

  /** Starting this occurrence is in the record, and this came of it. */
  ghost predicate WasAnswered(deeds: seq<Deed>, o: Occurrence, targets: seq<Target>) {
    exists i :: 0 <= i < |deeds| && deeds[i].ToStart? && deeds[i].o == o && deeds[i].targets == targets
  }

  /** What is stopped is what came of starting the same occurrence before, if anything is. */
  ghost predicate StopsWhatStarted(deeds: seq<Deed>, i: nat)
    requires i < |deeds|
  {
    deeds[i].ToStop? && deeds[i].targets != [] ==> WasAnswered(deeds[..i], deeds[i].o, deeds[i].targets)
  }

  ghost predicate RecordValid(deeds: seq<Deed>) {
    forall i :: 0 <= i < |deeds| ==> Honest(deeds[i]) && StopsWhatStarted(deeds, i)
  }

  /** What a row says was started is what came of starting it. */
  ghost predicate RowsAnswered(rows: Table, deeds: seq<Deed>) {
    forall id :: id in rows && rows[id].targets != [] ==> WasAnswered(deeds, Of(rows[id]), rows[id].targets)
  }

  /** The record is of every request and every start there was, and the rows agree with it. */
  ghost predicate Accounts(deeds: seq<Deed>, calls: seq<Call>, begun: seq<Occurrence>, rows: Table) {
    calls == Told(deeds) && begun == BegunIn(deeds) && RecordValid(deeds) && RowsAnswered(rows, deeds)
  }

  lemma StillAnswered(deeds: seq<Deed>, d: Deed, o: Occurrence, targets: seq<Target>)
    requires WasAnswered(deeds, o, targets)
    ensures WasAnswered(deeds + [d], o, targets)
  {
    var i :| 0 <= i < |deeds| && deeds[i].ToStart? && deeds[i].o == o && deeds[i].targets == targets;
    assert (deeds + [d])[i] == deeds[i];
  }

  lemma RecordGrows(deeds: seq<Deed>, d: Deed)
    requires RecordValid(deeds) && Honest(d)
    requires d.ToStop? && d.targets != [] ==> WasAnswered(deeds, d.o, d.targets)
    ensures RecordValid(deeds + [d]) && Told(deeds + [d]) == Told(deeds) + d.sent
    ensures BegunIn(deeds + [d]) == BegunIn(deeds) + if d.ToStart? then [d.o] else []
  {
    hide Honest, WasAnswered;
    var longer := deeds + [d];
    assert longer[..|deeds|] == deeds;
    forall i | 0 <= i < |longer| ensures Honest(longer[i]) && StopsWhatStarted(longer, i) {
      if i < |deeds| {
        assert longer[i] == deeds[i] && longer[..i] == deeds[..i];
        assert StopsWhatStarted(deeds, i);
      }
    }
  }

  /** A run's stop goes into the record: its row keeps what it noted. */
  lemma StopAccounts(deeds: seq<Deed>, calls: seq<Call>, begun: seq<Occurrence>, rows: Table, id: RunId,
                     sent: seq<Call>, after: Table)
    requires Accounts(deeds, calls, begun, rows) && UniqueKeys(rows) && id in rows
    requires sent <= Stops(rows[id].targets)
    requires forall o :: o in after ==> o in rows && Of(after[o]) == Of(rows[o]) && after[o].targets == rows[o].targets
    ensures var d := ToStop(Of(rows[id]), rows[id].targets, sent);
            Accounts(deeds + [d], calls + sent, begun, after)
  {
    hide Stops, WasAnswered;
    var d := ToStop(Of(rows[id]), rows[id].targets, sent);
    RecordGrows(deeds, d);
    forall o | o in after && after[o].targets != [] ensures WasAnswered(deeds + [d], Of(after[o]), after[o].targets) {
      StillAnswered(deeds, d, Of(after[o]), after[o].targets);
    }
  }

  /** A start goes into the record, whatever of it the row notes. */
  lemma StartAccounts(deeds: seq<Deed>, calls: seq<Call>, begun: seq<Occurrence>, rows: Table, d: Deed, id: RunId,
                      after: Table)
    requires Accounts(deeds, calls, begun, rows) && d.ToStart? && Honest(d)
    requires id in after && Of(after[id]) == d.o && after[id].targets in {[], d.targets}
    requires forall o :: o in after && o != id ==> o in rows && after[o] == rows[o]
    ensures Accounts(deeds + [d], calls + d.sent, begun + [d.o], after)
  {
    hide Honest;
    RecordGrows(deeds, d);
    assert (deeds + [d])[|deeds|] == d;
    forall o | o in after && after[o].targets != [] ensures WasAnswered(deeds + [d], Of(after[o]), after[o].targets) {
      if o != id { StillAnswered(deeds, d, Of(after[o]), after[o].targets); }
    }
  }

  lemma SameTargetsAccount(deeds: seq<Deed>, calls: seq<Call>, begun: seq<Occurrence>, rows: Table, after: Table)
    requires Accounts(deeds, calls, begun, rows)
    requires forall o :: o in after ==> o in rows && Of(after[o]) == Of(rows[o]) && after[o].targets == rows[o].targets
    ensures Accounts(deeds, calls, begun, after)
  {
  }

  /** Rows that were all there, or say nothing, leave the record as it is. */
  lemma FewerRowsAccount(deeds: seq<Deed>, calls: seq<Call>, begun: seq<Occurrence>, rows: Table, after: Table)
    requires Accounts(deeds, calls, begun, rows)
    requires forall o :: o in after && after[o].targets != [] ==> o in rows && after[o] == rows[o]
    ensures Accounts(deeds, calls, begun, after)
  {
  }
}
