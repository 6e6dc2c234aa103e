/** The controller's nodes: approved ones, their keys pinned and their events
    relayed, and ones found waiting to be approved; and what checks say of them. */
module Registry {
  import opened Wrappers

  /** A relay's cancellation token. */
  type Token = nat

  datatype Reason = Offline | AccessDenied | OtherNode(name: string) | KeyChanged(key: string)
                  | Failing(error: string) | OtherVersion(version: string)

  datatype ClockState = ClockState(state: string, delay: Option<int>, utcOffset: Option<int>)

  datatype NodeStatus = NodeStatus(id: string, name: string, clock: Option<ClockState>)

  datatype Entry = Entry(id: string, name: string, url: string, key: Option<string>, healthy: bool, failCount: nat,
                         unreachable: Option<Reason>, status: Option<NodeStatus>, relay: Token)

  datatype Found = Found(id: string, name: string, url: string, version: string, key: string)

  datatype FoundNode = FoundNode(dto: Found, failCount: nat)

  datatype Nodes = Nodes(entries: map<string, Entry>, found: map<string, FoundNode>, ignored: set<string>,
                         pins: set<string>)

  // ----- the registry's operations -----

  /** The registry with this entry, and whether its id was new. The pin of a key it replaces goes;
      an entry that was there hands on its relay's token. */
  function Upserted(n: Nodes, e: Entry): (Nodes, bool) {
    var found := n.found - {e.id};
    var pinned := if e.key.Some? then n.pins + {e.key.value} else n.pins;
    if e.id in n.entries then
      var former := n.entries[e.id];
      (Nodes(n.entries[e.id := e.(relay := former.relay)], found, n.ignored,
             if former.key.Some? && e.key != former.key then pinned - {former.key.value} else pinned), false)
    else
      (Nodes(n.entries[e.id := e], found, n.ignored, pinned), true)
  }

  /** The registry without this entry: its key is no pin any more but ignored. */
  function Removed(n: Nodes, id: string): Nodes {
    if id !in n.entries then n
    else
      var key := n.entries[id].key;
      n.(entries := n.entries - {id},
         pins := if key.Some? then n.pins - {key.value} else n.pins,
         ignored := if key.Some? then n.ignored + {key.value} else n.ignored)
  }

  /** The found nodes with this one, and whether that's to be told; ignored keys and entries' ids change nothing. */
  function Noted(n: Nodes, dto: Found): (Nodes, bool) {
    if dto.key in n.ignored || dto.id in n.entries then (n, false)
    else (n.(found := n.found[dto.id := FoundNode(dto, 0)]), dto.id !in n.found || n.found[dto.id].dto != dto)
  }

  function Dismissed(n: Nodes, id: string): Nodes {
    if id !in n.found then n
    else n.(found := n.found - {id}, ignored := n.ignored + {n.found[id].dto.key})
  }

  const PRUNE_AFTER_FAILURES: nat := 3

  /** A found node didn't answer: after a few times running it's dropped. */
  function Missed(n: Nodes, id: string): Nodes {
    if id !in n.found then n
    else
      var fails := n.found[id].failCount + 1;
      if fails >= PRUNE_AFTER_FAILURES then n.(found := n.found - {id})
      else n.(found := n.found[id := n.found[id].(failCount := fails)])
  }

  /** What counts of a clock's state: the delay and offset wobble. */
  function Steady(s: Option<NodeStatus>): Option<ClockState> {
    if s.Some? && s.value.clock.Some? then Some(s.value.clock.value.(delay := None, utcOffset := None)) else None
  }

  /** An entry's answer to a check, with two flags to tell events by: it had been unhealthy, or its clock differs. */
  function Answered(n: Nodes, status: NodeStatus): (Nodes, bool, bool) {
    if status.id !in n.entries then (n, false, false)
    else
      var e := n.entries[status.id];
      (n.(entries := n.entries[status.id := e.(status := Some(status), healthy := true,
                                               failCount := 0, unreachable := None)]),
       !e.healthy, Steady(e.status) != Steady(Some(status)))
  }

  /** A failed check: the failures running, and whether the reason is another. */
  function Unanswered(n: Nodes, id: string, reason: Reason): (Nodes, nat, bool) {
    if id !in n.entries then (n, 0, false)
    else
      var e := n.entries[id];
      (n.(entries := n.entries[id := e.(healthy := false, failCount := e.failCount + 1, unreachable := Some(reason))]),
       e.failCount + 1, e.unreachable != Some(reason))
  }

  // ----- pins -----

  function KeysOf(entries: map<string, Entry>): set<string> {
    set id | id in entries && entries[id].key.Some? :: entries[id].key.value
  }

  /** What the peer client trusts is just the approved nodes' keys. */
  ghost predicate PinsExact(n: Nodes) { n.pins == KeysOf(n.entries) }

  /** Another approved node than `id` has this key. */
  predicate Shared(n: Nodes, id: string, key: Option<string>) {
    key.Some? && exists o :: o in n.entries && o != id && n.entries[o].key == key
  }

  /** Removing a node leaves the pins exact exactly if no other has its key. */
  lemma RemoveKeepsPinsWhen(n: Nodes, id: string)
    requires PinsExact(n) && id in n.entries
    ensures PinsExact(Removed(n, id)) <==> !Shared(n, id, n.entries[id].key)
  {
    var m, key := Removed(n, id), n.entries[id].key;
    if Shared(n, id, key) {
      var o :| o in n.entries && o != id && n.entries[o].key == key;
      assert o in m.entries && m.entries[o].key == key;
      assert key.value in KeysOf(m.entries);
    } else {
      forall k | k in m.pins ensures k in KeysOf(m.entries) {
        var o :| o in n.entries && n.entries[o].key == Some(k);
        assert o != id && m.entries[o].key == Some(k);
      }
      forall k | k in KeysOf(m.entries) ensures k in m.pins {
        var o :| o in m.entries && m.entries[o].key == Some(k);
        assert n.entries[o].key == Some(k);
      }
    }
  }

  /** Approving a node leaves the pins exact exactly if it had no other key before,
      or no other has that. */
  lemma UpsertKeepsPinsWhen(n: Nodes, e: Entry)
    requires PinsExact(n)
    ensures PinsExact(Upserted(n, e).0) <==>
            (e.id in n.entries && n.entries[e.id].key != e.key ==> !Shared(n, e.id, n.entries[e.id].key))
  {
    var m := Upserted(n, e).0;
    forall o | o in n.entries && o != e.id ensures o in m.entries && m.entries[o] == n.entries[o] { }
    assert m.entries[e.id].key == e.key;
    if e.id in n.entries && n.entries[e.id].key != e.key && Shared(n, e.id, n.entries[e.id].key) {
      var o :| o in n.entries && o != e.id && n.entries[o].key == n.entries[e.id].key;
      assert n.entries[o].key.value in KeysOf(m.entries);
    } else {
      PinsAfterUpsert(n, e);
    }
  }

  lemma PinsAfterUpsert(n: Nodes, e: Entry)
    requires PinsExact(n)
    requires e.id in n.entries && n.entries[e.id].key != e.key ==> !Shared(n, e.id, n.entries[e.id].key)
    ensures PinsExact(Upserted(n, e).0)
  {
    var m := Upserted(n, e).0;
    forall k | k in m.pins ensures k in KeysOf(m.entries) {
      if e.key == Some(k) {
        assert m.entries[e.id].key == Some(k);
      } else {
        var o :| o in n.entries && n.entries[o].key == Some(k);
        assert o != e.id && m.entries[o].key == Some(k);
      }
    }
    forall k | k in KeysOf(m.entries) ensures k in m.pins {
      var o :| o in m.entries && m.entries[o].key == Some(k);
      if o != e.id { assert n.entries[o].key == Some(k); }
    }
  }

  // ----- the controller -----

  datatype Event = NodeOnline(id: string) | NodeOffline(id: string) | NodeUpdated

  /** The registry, the relays started (by node and token) and the tokens cancelled,
      the events sent, of each node the ones that said it's online or offline since
      it was approved, and the announcements looked up but not acted on yet. */
  datatype Controller = Controller(nodes: Nodes, relays: seq<(string, Token)>, cancelled: set<Token>,
                                   nextToken: Token, events: seq<Event>, lives: map<string, seq<bool>>,
                                   looks: map<nat, Look>)

  function Empty(): Controller { Controller(Nodes(map[], map[], {}, {}), [], {}, 0, [], map[], map[]) }

  /** A node becomes an entry, new or updated; a new one gets a relay. */
  function Enter(c: Controller, e: Entry): Controller {
    var (nodes, isNew) := Upserted(c.nodes, e);
    if isNew then
      c.(nodes := nodes, relays := c.relays + [(e.id, e.relay)], nextToken := c.nextToken + 1,
         lives := c.lives[e.id := []])
    else c.(nodes := nodes)
  }

  /** The approval step: an entry with a relay of its own if there was none, or the old one's
      address and key replaced. */
  function Approved(c: Controller, id: string, name: string, url: string, key: string): Controller {
    var e := if id in c.nodes.entries then c.nodes.entries[id].(url := url, key := Some(key))
             else Entry(id, name, url, Some(key), false, 0, None, None, c.nextToken);
    var d := Enter(c, e);
    d.(events := d.events + [NodeUpdated])
  }

  /** A stored node comes back when the controller starts, its key possibly not known yet. */
  function Load(c: Controller, id: string, name: string, url: string, key: Option<string>): Controller {
    Enter(c, Entry(id, name, url, key, false, 0, None, None, c.nextToken))
  }

  function RemoveNode(c: Controller, id: string): Controller {
    if id !in c.nodes.entries then c
    else
      c.(nodes := Removed(c.nodes, id), cancelled := c.cancelled + {c.nodes.entries[id].relay}, lives := c.lives - {id})
  }

  /** A check's result, under the registry's lock: what it changes and tells. */
  function Checked(c: Controller, id: string, result: Result<NodeStatus, Reason>): Controller {
    match result
    case Success(status) =>
      var r := Answered(c.nodes, status.(id := id));
      if r.1 then Told(c, r.0, id, true) else c.(nodes := r.0, events := c.events + if r.2 then [NodeUpdated] else [])
    case Failure(reason) =>
      var r := Unanswered(c.nodes, id, reason);
      if r.1 == 1 then Told(c, r.0, id, false)
      else c.(nodes := r.0, events := c.events + if r.2 then [NodeUpdated] else [])
  }

  /** A node is said to be online or offline. */
  function Told(c: Controller, nodes: Nodes, id: string, online: bool): Controller {
    c.(nodes := nodes, events := c.events + [if online then NodeOnline(id) else NodeOffline(id)],
       lives := c.lives[id := Life(c, id) + [online]])
  }

  function Life(c: Controller, id: string): seq<bool> { if id in c.lives then c.lives[id] else [] }

  /** `Move` if the entry pins the announced key at another address, `Offer` if there's no
      entry and the key isn't ignored, or else `Nothing`. */
  datatype Decision = Nothing | Move | Offer

  /** An announcement, and what it came to when it was looked up. */
  datatype Look = Look(decision: Decision, dto: Found)

  function Announced(n: Nodes, self: string, id: string, url: string, key: string): Decision {
    if id == self then Nothing
    else if id in n.entries then
      (var e := n.entries[id];
       if e.key.Some? && e.key.value == key && e.url != url then Move else Nothing)
    else if key in n.ignored then Nothing
    else Offer
  }

  datatype Step =
    | Approves(id: string, name: string, url: string, key: string)
    | Loads(id: string, name: string, url: string, stored: Option<string>)
    | Removes(id: string)
    | Finds(dto: Found)
    | Ignores(id: string)
    | Misses(id: string)
    | Checks(id: string, result: Result<NodeStatus, Reason>)
    | Looks(at: nat, self: string, dto: Found)
    | Acts(at: nat)

  function Apply(c: Controller, s: Step): Controller {
    match s
    case Approves(id, name, url, key) => Approved(c, id, name, url, key)
    case Loads(id, name, url, key) => Load(c, id, name, url, key)
    case Removes(id) => RemoveNode(c, id)
    case Finds(dto) => Offered(c, dto)
    case Ignores(id) => c.(nodes := Dismissed(c.nodes, id))
    case Misses(id) =>
      var nodes := Missed(c.nodes, id);
      c.(nodes := nodes, events := c.events + if nodes.found.Keys != c.nodes.found.Keys then [NodeUpdated] else [])
    case Checks(id, result) => Checked(c, id, result)
    case Looks(at, self, dto) =>
      c.(looks := c.looks[at := Look(Announced(c.nodes, self, dto.id, dto.url, dto.key), dto)])
    case Acts(at) => if at in c.looks then Acted(c.(looks := c.looks - {at}), c.looks[at]) else c
  }

  function Offered(c: Controller, dto: Found): Controller {
    var (nodes, changed) := Noted(c.nodes, dto);
    c.(nodes := nodes, events := c.events + if changed then [NodeUpdated] else [])
  }

  /** An announcement acted on, the lock having been free since it was looked up. */
  function Acted(c: Controller, look: Look): Controller {
    match look.decision
    case Nothing => c
    case Move => Approved(c, look.dto.id, look.dto.name, look.dto.url, look.dto.key)
    case Offer => Offered(c, look.dto)
  }

  /** No node is approved with another's key, and only a node not yet known is loaded. */
  predicate Unshared(c: Controller, s: Step) {
    match s
    case Approves(id, _, _, key) => !Shared(c.nodes, id, Some(key))
    case Loads(id, _, _, key) => id !in c.nodes.entries && !Shared(c.nodes, id, key)
    case Acts(at) =>
      at in c.looks && c.looks[at].decision == Move ==> !Shared(c.nodes, c.looks[at].dto.id, Some(c.looks[at].dto.key))
    case _ => true
  }

  // ----- what every run keeps -----

  ghost predicate Keyed(n: Nodes) {
    && PinsExact(n) && n.found.Keys !! n.entries.Keys
    && (forall id :: id in n.entries ==> n.entries[id].id == id && !Shared(n, id, n.entries[id].key))
  }

  predicate Running(c: Controller, i: nat) { i < |c.relays| && c.relays[i].1 !in c.cancelled }

  ghost predicate HasRelay(c: Controller, id: string)
    requires id in c.nodes.entries
  {
    exists i: nat :: Running(c, i) && c.relays[i] == (id, c.nodes.entries[id].relay)
  }

  ghost predicate RelaysAreNodes(c: Controller) {
    forall i: nat :: Running(c, i) ==>
      c.relays[i].0 in c.nodes.entries && c.relays[i].1 == c.nodes.entries[c.relays[i].0].relay
  }

  ghost predicate TokensDiffer(c: Controller) {
    && (forall i, j :: 0 <= i < j < |c.relays| ==> c.relays[i].1 != c.relays[j].1)
    && (forall i :: 0 <= i < |c.relays| ==> c.relays[i].1 < c.nextToken)
    && (forall t :: t in c.cancelled ==> t < c.nextToken)
  }

  /** Each approved node has exactly one relay that isn't cancelled, and no other node has one. */
  ghost predicate OneRelayEach(c: Controller) {
    && (forall id :: id in c.nodes.entries ==> HasRelay(c, id)) && RelaysAreNodes(c) && TokensDiffer(c)
  }

  predicate Alternates(s: seq<bool>) { forall i :: 0 <= i < |s| - 1 ==> s[i] != s[i + 1] }

  /** Online and offline take turns, the last one being how the node is. */
  predicate LifeTrue(e: Entry, life: seq<bool>) {
    && Alternates(life)
    && (if life == [] then !e.healthy && e.failCount == 0
        else life[|life| - 1] == e.healthy && (e.healthy <==> e.failCount == 0))
  }

  ghost predicate LivesTrue(c: Controller) {
    forall id :: id in c.nodes.entries ==> LifeTrue(c.nodes.entries[id], Life(c, id))
  }

  ghost predicate Sound(c: Controller) { Keyed(c.nodes) && OneRelayEach(c) && LivesTrue(c) }

  lemma EnterIsSound(c: Controller, e: Entry)
    requires Sound(c) && !Shared(c.nodes, e.id, e.key)
    requires if e.id in c.nodes.entries
             then e.healthy == c.nodes.entries[e.id].healthy && e.failCount == c.nodes.entries[e.id].failCount
             else !e.healthy && e.failCount == 0 && e.relay == c.nextToken
    ensures Sound(Enter(c, e))
  {
    hide Keyed, OneRelayEach, LivesTrue, Enter;
    assert Enter(c, e).nodes == Upserted(c.nodes, e).0 by { EnterUpserts(c, e); }
    EnterIsKeyed(c.nodes, e);
    EnterHasOneRelay(c, e);
    EnterIsTrue(c, e);
  }

  lemma EnterUpserts(c: Controller, e: Entry)
    ensures var d := Enter(c, e);
            && d.nodes == Upserted(c.nodes, e).0 && d.cancelled == c.cancelled
            && (if e.id in c.nodes.entries
                then d.nodes.entries == c.nodes.entries[e.id := e.(relay := c.nodes.entries[e.id].relay)]
                     && d.relays == c.relays && d.nextToken == c.nextToken
                else d.nodes.entries == c.nodes.entries[e.id := e]
                     && d.relays == c.relays + [(e.id, e.relay)] && d.nextToken == c.nextToken + 1)
  {
  }

  lemma EnterIsTrue(c: Controller, e: Entry)
    requires LivesTrue(c)
    requires if e.id in c.nodes.entries
             then e.healthy == c.nodes.entries[e.id].healthy && e.failCount == c.nodes.entries[e.id].failCount
             else !e.healthy && e.failCount == 0
    ensures LivesTrue(Enter(c, e))
  {
    var d := Enter(c, e);
    forall o | o in d.nodes.entries ensures LifeTrue(d.nodes.entries[o], Life(d, o)) {
      if o in c.nodes.entries { assert LifeTrue(c.nodes.entries[o], Life(c, o)); }
    }
  }

  lemma EnterIsKeyed(n: Nodes, e: Entry)
    requires Keyed(n) && !Shared(n, e.id, e.key)
    ensures Keyed(Upserted(n, e).0)
  {
    UpsertKeepsPinsWhen(n, e);
    var m := Upserted(n, e).0;
    forall id, o | id in m.entries && o in m.entries && o != id && m.entries[o].key == m.entries[id].key
      ensures m.entries[id].key == None
    {
      if id == e.id {
        assert n.entries[o].key == e.key;
      } else if o == e.id {
        assert n.entries[id].key == e.key;
      } else {
        assert !Shared(n, id, n.entries[id].key) && n.entries[o].key == n.entries[id].key;
      }
    }
  }

  lemma EnterHasOneRelay(c: Controller, e: Entry)
    requires OneRelayEach(c)
    requires e.id !in c.nodes.entries ==> e.relay == c.nextToken
    ensures OneRelayEach(Enter(c, e))
  {
    EnterUpserts(c, e);
    var d := Enter(c, e);
    if e.id in c.nodes.entries {
      hide Enter;
      SameRelaysIsOneEach(c, d);
    } else {
      hide Upserted;
      OneMoreRelay(c, d, e);
    }
  }

  lemma OneMoreRelay(c: Controller, d: Controller, e: Entry)
    requires OneRelayEach(c) && e.id !in c.nodes.entries && e.relay == c.nextToken
    requires d.nodes.entries == c.nodes.entries[e.id := e] && d.relays == c.relays + [(e.id, e.relay)]
    requires d.cancelled == c.cancelled && d.nextToken == c.nextToken + 1
    ensures OneRelayEach(d)
  {
    hide HasRelay, RelaysAreNodes;
    forall id | id in d.nodes.entries ensures HasRelay(d, id) {
      if id != e.id { assert HasRelay(c, id); }
      HasStill(c, d, e, id);
    }
    NodesStill(c, d, e);
  }

  lemma HasStill(c: Controller, d: Controller, e: Entry, id: string)
    requires d.nodes.entries == c.nodes.entries[e.id := e] && d.relays == c.relays + [(e.id, e.relay)]
    requires d.cancelled == c.cancelled && e.relay !in c.cancelled && id in d.nodes.entries
    requires id != e.id ==> id in c.nodes.entries && HasRelay(c, id)
    ensures HasRelay(d, id)
  {
    if id == e.id {
      assert Running(d, |c.relays|) && d.relays[|c.relays|] == (id, e.relay);
    } else {
      var i: nat :| Running(c, i) && c.relays[i] == (id, c.nodes.entries[id].relay);
      assert Running(d, i) && d.relays[i] == (id, d.nodes.entries[id].relay);
    }
  }

  lemma NodesStill(c: Controller, d: Controller, e: Entry)
    requires RelaysAreNodes(c) && e.id !in c.nodes.entries && d.nodes.entries == c.nodes.entries[e.id := e]
    requires d.relays == c.relays + [(e.id, e.relay)] && d.cancelled == c.cancelled
    ensures RelaysAreNodes(d)
  {
    forall i: nat | Running(d, i)
      ensures d.relays[i].0 in d.nodes.entries && d.relays[i].1 == d.nodes.entries[d.relays[i].0].relay
    {
      if i < |c.relays| { assert Running(c, i); }
    }
  }

  lemma RemoveIsSound(c: Controller, id: string)
    requires Sound(c)
    ensures Sound(RemoveNode(c, id))
  {
    if id in c.nodes.entries {
      hide Keyed, OneRelayEach, LivesTrue;
      RemoveIsKeyed(c.nodes, id);
      RemoveLeavesOneRelay(c, id);
      RemoveIsTrue(c, id);
    }
  }

  lemma RemoveIsTrue(c: Controller, id: string)
    requires LivesTrue(c)
    ensures LivesTrue(RemoveNode(c, id))
  {
    hide Alternates;
    var d := RemoveNode(c, id);
    forall o | o in d.nodes.entries ensures d.nodes.entries[o] == c.nodes.entries[o] && Life(d, o) == Life(c, o) { }
  }

  lemma RemoveIsKeyed(n: Nodes, id: string)
    requires Keyed(n) && id in n.entries
    ensures Keyed(Removed(n, id))
  {
    RemoveKeepsPinsWhen(n, id);
    var m := Removed(n, id);
    forall o | o in m.entries ensures !Shared(m, o, m.entries[o].key) {
      assert !Shared(n, o, n.entries[o].key);
    }
  }

  lemma RemoveLeavesOneRelay(c: Controller, id: string)
    requires OneRelayEach(c) && id in c.nodes.entries
    ensures OneRelayEach(RemoveNode(c, id))
  {
    OneRelayLess(c, RemoveNode(c, id), id);
  }

  lemma OneRelayLess(c: Controller, d: Controller, id: string)
    requires OneRelayEach(c) && id in c.nodes.entries && d.nodes.entries == c.nodes.entries - {id}
    requires d.relays == c.relays && d.cancelled == c.cancelled + {c.nodes.entries[id].relay}
    requires d.nextToken == c.nextToken
    ensures OneRelayEach(d)
  {
    assert HasRelay(c, id);
    var j: nat :| Running(c, j) && c.relays[j] == (id, c.nodes.entries[id].relay);
    forall i: nat ensures Running(d, i) <==> Running(c, i) && i != j { }
    forall o | o in d.nodes.entries ensures HasRelay(d, o) {
      assert HasRelay(c, o);
      var i: nat :| Running(c, i) && c.relays[i] == (o, c.nodes.entries[o].relay);
      assert i != j && Running(d, i);
    }
    forall i: nat | Running(d, i)
      ensures d.relays[i].0 in d.nodes.entries && d.relays[i].1 == d.nodes.entries[d.relays[i].0].relay
    {
      assert Running(c, i) && i != j;
      assert d.relays[i].0 != id;
    }
  }

  /** The approved nodes are the same, with the same keys and relays. */
  ghost predicate SameNodes(n: Nodes, m: Nodes) {
    && m.entries.Keys == n.entries.Keys && m.pins == n.pins && m.found == n.found && m.ignored == n.ignored
    && (forall o :: o in n.entries ==> m.entries[o].id == n.entries[o].id && m.entries[o].key == n.entries[o].key)
    && (forall o :: o in n.entries ==> m.entries[o].relay == n.entries[o].relay)
  }

  /** An answer changes no key, no relay and no found node. */
  lemma AnswerKeepsTheRest(n: Nodes, status: NodeStatus)
    ensures SameNodes(n, Answered(n, status).0)
  {
  }

  /** Nor does a failure to. */
  lemma FailureKeepsTheRest(n: Nodes, id: string, reason: Reason)
    ensures SameNodes(n, Unanswered(n, id, reason).0)
  {
  }

  lemma CheckedKeepsTheRest(c: Controller, id: string, result: Result<NodeStatus, Reason>)
    ensures var d := Checked(c, id, result);
            && SameNodes(c.nodes, d.nodes)
            && d.relays == c.relays && d.cancelled == c.cancelled && d.nextToken == c.nextToken
  {
    hide Answered, Unanswered, SameNodes;
    match result {
      case Success(status) => AnswerKeepsTheRest(c.nodes, status.(id := id));
      case Failure(reason) => FailureKeepsTheRest(c.nodes, id, reason);
    }
  }

  lemma SameKeysIsKeyed(n: Nodes, m: Nodes)
    requires Keyed(n) && SameNodes(n, m)
    ensures Keyed(m)
  {
    assert KeysOf(m.entries) == KeysOf(n.entries);
    forall o | o in m.entries ensures !Shared(m, o, m.entries[o].key) {
      assert !Shared(n, o, n.entries[o].key);
    }
  }

  lemma SameRelaysIsOneEach(c: Controller, d: Controller)
    requires OneRelayEach(c) && d.nodes.entries.Keys == c.nodes.entries.Keys
    requires forall o :: o in c.nodes.entries ==> d.nodes.entries[o].relay == c.nodes.entries[o].relay
    requires d.relays == c.relays && d.cancelled == c.cancelled && d.nextToken == c.nextToken
    ensures OneRelayEach(d)
  {
    forall i: nat ensures Running(d, i) == Running(c, i) { }
  }

  lemma CheckedIsTrue(c: Controller, id: string, result: Result<NodeStatus, Reason>)
    requires LivesTrue(c)
    ensures LivesTrue(Checked(c, id, result))
  {
    hide LifeTrue, Answered, Unanswered;
    var d := Checked(c, id, result);
    CheckedKeepsTheRest(c, id, result);
    forall o | o in d.nodes.entries ensures LifeTrue(d.nodes.entries[o], Life(d, o)) {
      assert LifeTrue(c.nodes.entries[o], Life(c, o));
      CheckedSaysSo(c, id, result, o);
    }
  }

  lemma CheckedSaysSo(c: Controller, id: string, result: Result<NodeStatus, Reason>, o: string)
    requires o in c.nodes.entries && o in Checked(c, id, result).nodes.entries
    requires LifeTrue(c.nodes.entries[o], Life(c, o))
    ensures LifeTrue(Checked(c, id, result).nodes.entries[o], Life(Checked(c, id, result), o))
  {
    hide LifeTrue;
    if o == id {
      if result.Success? { AnswerSaysSo(c, id, result.value); } else { FailureSaysSo(c, id, result.error); }
    }
  }

  lemma AnswerSaysSo(c: Controller, id: string, status: NodeStatus)
    requires id in c.nodes.entries && LifeTrue(c.nodes.entries[id], Life(c, id))
    ensures var d := Checked(c, id, Success(status)); LifeTrue(d.nodes.entries[id], Life(d, id))
  {
  }

  lemma FailureSaysSo(c: Controller, id: string, reason: Reason)
    requires id in c.nodes.entries && LifeTrue(c.nodes.entries[id], Life(c, id))
    ensures var d := Checked(c, id, Failure(reason)); LifeTrue(d.nodes.entries[id], Life(d, id))
  {
  }

  lemma CheckedIsSound(c: Controller, id: string, result: Result<NodeStatus, Reason>)
    requires Sound(c)
    ensures Sound(Checked(c, id, result))
  {
    hide Keyed, OneRelayEach, LivesTrue, Checked;
    CheckedKeepsTheRest(c, id, result);
    SameKeysIsKeyed(c.nodes, Checked(c, id, result).nodes);
    SameRelaysIsOneEach(c, Checked(c, id, result));
    CheckedIsTrue(c, id, result);
  }

  lemma StepIsSound(c: Controller, s: Step)
    requires Sound(c) && Unshared(c, s)
    ensures Sound(Apply(c, s))
  {
    match s {
      case Approves(id, name, url, key) => ApproveIsSound(c, id, name, url, key);
      case Loads(id, name, url, key) => EnterIsSound(c, Entry(id, name, url, key, false, 0, None, None, c.nextToken));
      case Removes(id) => RemoveIsSound(c, id);
      case Finds(dto) => OfferedIsSound(c, dto);
      case Ignores(id) => SameEntriesIsSound(c, Apply(c, s));
      case Misses(id) => SameEntriesIsSound(c, Apply(c, s));
      case Checks(id, result) => CheckedIsSound(c, id, result);
      case Looks(at, self, dto) => SameEntriesIsSound(c, Apply(c, s));
      case Acts(at) =>
        if at in c.looks {
          var look, d := c.looks[at], c.(looks := c.looks - {at});
          SameEntriesIsSound(c, d);
          match look.decision {
            case Nothing =>
            case Move => ApproveIsSound(d, look.dto.id, look.dto.name, look.dto.url, look.dto.key);
            case Offer => OfferedIsSound(d, look.dto);
          }
        }
    }
  }

  lemma OfferedIsSound(c: Controller, dto: Found)
    requires Sound(c)
    ensures Sound(Offered(c, dto))
  {
    SameEntriesIsSound(c, Offered(c, dto));
  }

  lemma ApproveIsSound(c: Controller, id: string, name: string, url: string, key: string)
    requires Sound(c) && !Shared(c.nodes, id, Some(key))
    ensures Sound(Approved(c, id, name, url, key))
  {
    var e := if id in c.nodes.entries then c.nodes.entries[id].(url := url, key := Some(key))
             else Entry(id, name, url, Some(key), false, 0, None, None, c.nextToken);
    EnterIsSound(c, e);
    SameEntriesIsSound(Enter(c, e), Approved(c, id, name, url, key));
  }

  /** What's found, ignored, looked up and told besides doesn't matter. */
  lemma SameEntriesIsSound(c: Controller, d: Controller)
    requires Sound(c) && d.nodes.entries == c.nodes.entries && d.nodes.pins == c.nodes.pins
    requires d.nodes.found.Keys !! d.nodes.entries.Keys && d.relays == c.relays && d.cancelled == c.cancelled
    requires d.nextToken == c.nextToken && d.lives == c.lives
    ensures Sound(d)
  {
    forall i: nat ensures Running(d, i) == Running(c, i) { }
    forall id | id in d.nodes.entries ensures !Shared(d.nodes, id, d.nodes.entries[id].key) {
      assert !Shared(c.nodes, id, c.nodes.entries[id].key);
    }
  }

  // ----- whole runs -----

  function Run(c: Controller, steps: seq<Step>): Controller {
    if |steps| == 0 then c else Apply(Run(c, steps[..|steps| - 1]), steps[|steps| - 1])
  }

  /** At no step is a node approved with a key that another node has. */
  predicate NeverShared(c: Controller, steps: seq<Step>) {
    |steps| > 0 ==>
      && NeverShared(c, steps[..|steps| - 1])
      && Unshared(Run(c, steps[..|steps| - 1]), steps[|steps| - 1])
  }

  /** What the events said of a node, in order: online or offline. */
  function Heard(events: seq<Event>, id: string): seq<bool> {
    if |events| == 0 then []
    else
      var rest := Heard(events[..|events| - 1], id);
      match events[|events| - 1]
      case NodeOnline(o) => if o == id then rest + [true] else rest
      case NodeOffline(o) => if o == id then rest + [false] else rest
      case NodeUpdated => rest
  }

  /** What was said of a node since it was approved is the last of what was ever said of it. */
  ghost predicate LivesAreHeard(c: Controller) {
    forall id :: EndsWith(Heard(c.events, id), Life(c, id))
  }

  predicate EndsWith(s: seq<bool>, end: seq<bool>) { |end| <= |s| && s[|s| - |end|..] == end }

  lemma HeardOne(events: seq<Event>, e: Event, id: string)
    ensures Heard(events + [e], id) == Heard(events, id) +
            match e case NodeOnline(o) => (if o == id then [true] else [])
                    case NodeOffline(o) => (if o == id then [false] else [])
                    case NodeUpdated => []
  {
    assert (events + [e])[..|events|] == events;
  }

  lemma StepIsHeard(c: Controller, s: Step)
    requires LivesAreHeard(c)
    ensures LivesAreHeard(Apply(c, s))
  {
    hide EndsWith, Heard, Apply;
    forall id ensures EndsWith(Heard(Apply(c, s).events, id), Life(Apply(c, s), id)) {
      assert EndsWith(Heard(c.events, id), Life(c, id));
      if s.Checks? {
        assert Apply(c, s) == Checked(c, s.id, s.result) by { CheckApplied(c, s); }
        CheckIsHeard(c, s.id, s.result, id);
      } else {
        QuietStep(c, s, id);
        HeardOne(c.events, NodeUpdated, id);
        assert Heard(c.events, id) + [] == Heard(c.events, id);
        EndsWithNothing(Heard(c.events, id));
      }
    }
  }

  lemma CheckApplied(c: Controller, s: Step)
    requires s.Checks?
    ensures Apply(c, s) == Checked(c, s.id, s.result)
  {
  }

  lemma EndsWithNothing(s: seq<bool>)
    ensures EndsWith(s, [])
  {
  }

  /** Only a check says that a node is online or offline. */
  lemma QuietStep(c: Controller, s: Step, id: string)
    requires !s.Checks?
    ensures Apply(c, s).events in {c.events, c.events + [NodeUpdated]}
    ensures Life(Apply(c, s), id) in {Life(c, id), []}
  {
    assert c.events + [] == c.events;
  }

  lemma CheckIsHeard(c: Controller, id: string, result: Result<NodeStatus, Reason>, o: string)
    requires EndsWith(Heard(c.events, o), Life(c, o))
    ensures EndsWith(Heard(Checked(c, id, result).events, o), Life(Checked(c, id, result), o))
  {
    hide Answered, Unanswered, EndsWith, Heard;
    var d := Checked(c, id, result);
    if d.events != c.events {
      var e := d.events[|c.events|];
      assert d.events == c.events + [e];
      HeardOne(c.events, e, o);
      if d.lives != c.lives && o == id {
        EndsWithMore(Heard(c.events, o), Life(c, o), e.NodeOnline?);
      }
    }
    assert Heard(c.events, o) + [] == Heard(c.events, o);
  }

  lemma EndsWithMore(s: seq<bool>, end: seq<bool>, b: bool)
    requires EndsWith(s, end)
    ensures EndsWith(s + [b], end + [b])
  {
  }

  /** Whatever approvals, removals, announcements and checks there are: pins are
      just the entries' keys, no node is both approved and found, each approved
      node has one relay, and what's said of it since its approval takes turns and
      ends with how it is. */
  lemma {:induction false} EveryRunIsSound(steps: seq<Step>)
    requires NeverShared(Empty(), steps)
    ensures Sound(Run(Empty(), steps)) && LivesAreHeard(Run(Empty(), steps))
  {
    if |steps| > 0 {
      EveryRunIsSound(steps[..|steps| - 1]);
      StepIsSound(Run(Empty(), steps[..|steps| - 1]), steps[|steps| - 1]);
      StepIsHeard(Run(Empty(), steps[..|steps| - 1]), steps[|steps| - 1]);
    }
  }

  /** A node is approved and checked, removed, approved again and checked again. */
  function TwiceSteps(id: string, name: string, url: string, key: string,
                      result: Result<NodeStatus, Reason>): seq<Step> {
    [Approves(id, name, url, key), Checks(id, result), Removes(id), Approves(id, name, url, key), Checks(id, result)]
  }

  /** Events don't take turns over a removal: a node online (or offline) both times is said
      to be so twice running. */
  lemma SaidTwiceRunning(id: string, name: string, url: string, key: string, result: Result<NodeStatus, Reason>)
    ensures var steps := TwiceSteps(id, name, url, key, result);
            NeverShared(Empty(), steps) && Heard(Run(Empty(), steps).events, id) == [result.Success?, result.Success?]
  {
    var steps := TwiceSteps(id, name, url, key, result);
    hide Run, NeverShared, Heard, Apply, Unshared;
    RunOfFive(Empty(), steps);
    TwiceEvents(id, name, url, key, result);
    HeardTwice(id, result.Success?);
  }

  function Says(id: string, online: bool): Event { if online then NodeOnline(id) else NodeOffline(id) }

  lemma HeardTwice(id: string, online: bool)
    ensures Heard([NodeUpdated] + [Says(id, online)] + [NodeUpdated] + [Says(id, online)], id) == [online, online]
  {
    var e := Says(id, online);
    HeardOne([], NodeUpdated, id);
    HeardOne([NodeUpdated], e, id);
    HeardOne([NodeUpdated] + [e], NodeUpdated, id);
    HeardOne([NodeUpdated] + [e] + [NodeUpdated], e, id);
    assert [] + [NodeUpdated] == [NodeUpdated];
  }

  lemma TwiceEvents(id: string, name: string, url: string, key: string, result: Result<NodeStatus, Reason>)
    ensures var steps, e := TwiceSteps(id, name, url, key, result), Says(id, result.Success?);
            var c1 := Apply(Empty(), steps[0]);
            var c2 := Apply(c1, steps[1]);
            var c3 := Apply(c2, steps[2]);
            var c4 := Apply(c3, steps[3]);
            && Unshared(Empty(), steps[0]) && Unshared(c1, steps[1]) && Unshared(c2, steps[2])
            && Unshared(c3, steps[3]) && Unshared(c4, steps[4])
            && Apply(c4, steps[4]).events == [NodeUpdated] + [e] + [NodeUpdated] + [e]
  {
    var steps, e := TwiceSteps(id, name, url, key, result), Says(id, result.Success?);
    var e1 := Entry(id, name, url, Some(key), false, 0, None, None, 0);
    var c1 := Apply(Empty(), steps[0]);
    assert c1.nodes.entries == map[id := e1] && c1.events == [NodeUpdated];
    var c2 := Apply(c1, steps[1]);
    assert c2.nodes.entries.Keys == {id} && c2.events == c1.events + [e];
    var c3 := Apply(c2, steps[2]);
    assert c3.nodes.entries == map[] && c3.events == c2.events;
    var c4 := Apply(c3, steps[3]);
    assert c4.nodes.entries == map[id := e1.(relay := c3.nextToken)] && c4.events == c3.events + [NodeUpdated];
  }

  lemma RunOfFive(c: Controller, steps: seq<Step>)
    requires |steps| == 5
    ensures var c1 := Apply(c, steps[0]);
            var c2 := Apply(c1, steps[1]);
            var c3 := Apply(c2, steps[2]);
            var c4 := Apply(c3, steps[3]);
            && Run(c, steps) == Apply(c4, steps[4])
            && (NeverShared(c, steps) <==> Unshared(c, steps[0]) && Unshared(c1, steps[1]) && Unshared(c2, steps[2])
                                           && Unshared(c3, steps[3]) && Unshared(c4, steps[4]))
  {
    hide Apply, Unshared;
    var p1 := [] + [steps[0]];
    var p2 := p1 + [steps[1]];
    var p3 := p2 + [steps[2]];
    var p4 := p3 + [steps[3]];
    RunMore(c, [], steps[0]);
    RunMore(c, p1, steps[1]);
    RunMore(c, p2, steps[2]);
    RunMore(c, p3, steps[3]);
    RunMore(c, p4, steps[4]);
    assert steps == p4 + [steps[4]];
  }

  lemma RunMore(c: Controller, steps: seq<Step>, s: Step)
    ensures Run(c, steps + [s]) == Apply(Run(c, steps), s)
    ensures NeverShared(c, steps + [s]) <==> NeverShared(c, steps) && Unshared(Run(c, steps), s)
  {
    assert (steps + [s])[..|steps|] == steps;
  }

  // ----- online and offline in turns -----

  function LastOf(s: seq<bool>): bool
    requires s != []
  {
    s[|s| - 1]
  }

  /** A check repeats what was last said of a node: it's the first since an approval, and
      it comes to what was said before the node was removed. */
  predicate Repeats(c: Controller, s: Step, id: string) {
    && s.Checks? && s.id == id && id in c.nodes.entries && Life(c, id) == []
    && var heard := Heard(c.events, id);
       heard != [] && LastOf(heard) == s.result.Success?
  }

  /** What a step says of a node, if anything. */
  lemma StepSays(c: Controller, s: Step, id: string)
    requires id in c.nodes.entries ==> LifeTrue(c.nodes.entries[id], Life(c, id))
    ensures var heard, after := Heard(c.events, id), Heard(Apply(c, s).events, id);
            && (after == heard || (s.Checks? && s.id == id && after == heard + [s.result.Success?]))
            && (s.Checks? && s.id == id ==>
                  (after != heard <==>
                   (id in c.nodes.entries && (Life(c, id) == [] || LastOf(Life(c, id)) != s.result.Success?))))
  {
    hide Heard, Alternates;
    if s.Checks? {
      CheckSays(c, s.id, s.result, id);
    } else {
      QuietStep(c, s, id);
      HeardOne(c.events, NodeUpdated, id);
      assert Heard(c.events, id) + [] == Heard(c.events, id);
    }
  }

  lemma CheckSays(c: Controller, id: string, result: Result<NodeStatus, Reason>, o: string)
    requires id == o && id in c.nodes.entries ==> LifeTrue(c.nodes.entries[id], Life(c, id))
    ensures var heard, after := Heard(c.events, o), Heard(Checked(c, id, result).events, o);
            && (after == heard || (id == o && after == heard + [result.Success?]))
            && (id == o ==>
                  (after != heard <==>
                   (id in c.nodes.entries && (Life(c, id) == [] || LastOf(Life(c, id)) != result.Success?))))
  {
    hide Heard, Alternates;
    var d := Checked(c, id, result);
    assert Heard(c.events, o) + [] == Heard(c.events, o);
    if d.events == c.events + [] {
      assert d.events == c.events;
    } else {
      HeardOne(c.events, d.events[|c.events|], o);
      assert d.events == c.events + [d.events[|c.events|]];
    }
  }

  /** What's said of a node goes on taking turns, exactly unless a check repeats it. */
  lemma StepAlternatesWhen(c: Controller, s: Step, id: string)
    requires LivesTrue(c) && LivesAreHeard(c) && Alternates(Heard(c.events, id))
    ensures Alternates(Heard(Apply(c, s).events, id)) <==> !Repeats(c, s, id)
  {
    assert EndsWith(Heard(c.events, id), Life(c, id));
    StepSays(c, s, id);
    var heard := Heard(c.events, id);
    hide Heard, Apply, LivesTrue, LivesAreHeard;
    if Heard(Apply(c, s).events, id) != heard { OneMoreAlternates(heard, s.result.Success?); }
    if Life(c, id) != [] { LastOfEnd(heard, Life(c, id)); }
  }

  lemma OneMoreAlternates(s: seq<bool>, b: bool)
    requires Alternates(s)
    ensures Alternates(s + [b]) <==> s == [] || LastOf(s) != b
  {
    var t := s + [b];
    if s != [] { assert t[|s| - 1] == LastOf(s) && t[|s|] == b; }
  }

  lemma LastOfEnd(s: seq<bool>, end: seq<bool>)
    requires EndsWith(s, end) && end != []
    ensures s != [] && LastOf(s) == LastOf(end)
  {
    assert s[|s| - |end|..][|end| - 1] == s[|s| - 1];
  }

  /** Over whole runs: online and offline take turns exactly if no check, the first since a
      node was approved again, says what was said last before it was removed. */
  lemma {:induction false} RunAlternatesWhen(steps: seq<Step>, id: string)
    requires NeverShared(Empty(), steps)
    ensures Alternates(Heard(Run(Empty(), steps).events, id)) <==>
            forall k :: 0 <= k < |steps| ==> !Repeats(Run(Empty(), steps[..k]), steps[k], id)
  {
    hide Sound, Apply, Repeats, Heard, Alternates, LivesTrue, LivesAreHeard, Unshared;
    if steps == [] {
      NothingHeard(id);
    } else {
      var n := |steps| - 1;
      var before := steps[..n];
      RunAlternatesWhen(before, id);
      EveryRunIsSound(before);
      SoundIsTrue(Run(Empty(), before));
      forall k | 0 <= k < n ensures steps[..k] == before[..k] && steps[k] == before[k] { }
      if Alternates(Heard(Run(Empty(), before).events, id)) {
        StepAlternatesWhen(Run(Empty(), before), steps[n], id);
      } else {
        StepsNeverMend(Run(Empty(), before), steps[n], id);
      }
    }
  }

  lemma NothingHeard(id: string)
    ensures Run(Empty(), []).events == [] && Heard([], id) == [] && Alternates(Heard([], id))
  {
  }

  lemma SoundIsTrue(c: Controller)
    requires Sound(c)
    ensures LivesTrue(c)
  {
  }

  lemma StepsNeverMend(c: Controller, s: Step, id: string)
    requires LivesTrue(c) && !Alternates(Heard(c.events, id))
    ensures !Alternates(Heard(Apply(c, s).events, id))
  {
    StepSays(c, s, id);
    var heard, after := Heard(c.events, id), Heard(Apply(c, s).events, id);
    hide Heard, Apply, LivesTrue;
    if after != heard {
      var i :| 0 <= i < |heard| - 1 && heard[i] == heard[i + 1];
      assert after[i] == after[i + 1];
    }
  }

  /** A node that's never removed is said to be online and offline in turns. */
  lemma {:induction false} NeverRemovedTakesTurns(steps: seq<Step>, id: string)
    requires NeverShared(Empty(), steps) && forall k :: 0 <= k < |steps| ==> steps[k] != Removes(id)
    ensures Alternates(Heard(Run(Empty(), steps).events, id))
  {
    forall k | 0 <= k < |steps| ensures !Repeats(Run(Empty(), steps[..k]), steps[k], id) {
      SharedNeverBefore(steps, k);
      AllHeardSinceApproval(steps[..k], id);
    }
    RunAlternatesWhen(steps, id);
  }

  lemma {:induction false} SharedNeverBefore(steps: seq<Step>, k: nat)
    requires k <= |steps| && NeverShared(Empty(), steps)
    ensures NeverShared(Empty(), steps[..k])
    decreases |steps|
  {
    hide Unshared, Run;
    if k < |steps| {
      SharedNeverBefore(steps[..|steps| - 1], k);
      assert steps[..|steps| - 1][..k] == steps[..k];
    } else {
      assert steps[..k] == steps;
    }
  }

  lemma {:induction false} AllHeardSinceApproval(steps: seq<Step>, id: string)
    requires NeverShared(Empty(), steps) && forall k :: 0 <= k < |steps| ==> steps[k] != Removes(id)
    ensures var c := Run(Empty(), steps);
            if id in c.nodes.entries then Heard(c.events, id) == Life(c, id) else Heard(c.events, id) == []
  {
    if steps != [] {
      var n := |steps| - 1;
      assert forall k :: 0 <= k < n ==> steps[..n][k] == steps[k];
      AllHeardSinceApproval(steps[..n], id);
      EveryRunIsSound(steps[..n]);
      HearsLife(Run(Empty(), steps[..n]), steps[n], id);
    }
  }

  lemma HearsLife(c: Controller, s: Step, id: string)
    requires s != Removes(id) && LivesTrue(c) && Unshared(c, s)
    requires if id in c.nodes.entries then Heard(c.events, id) == Life(c, id) else Heard(c.events, id) == []
    ensures var d := Apply(c, s);
            if id in d.nodes.entries then Heard(d.events, id) == Life(d, id) else Heard(d.events, id) == []
  {
    hide Heard, LivesTrue;
    LifeOf(c, id);
    StepSays(c, s, id);
    if s.Checks? {
      CheckLives(c, s.id, s.result, id);
    } else {
      QuietLife(c, s, id);
    }
  }

  lemma LifeOf(c: Controller, id: string)
    requires LivesTrue(c)
    ensures id in c.nodes.entries ==> LifeTrue(c.nodes.entries[id], Life(c, id))
  {
  }

  lemma QuietLife(c: Controller, s: Step, id: string)
    requires !s.Checks? && s != Removes(id) && Unshared(c, s)
    ensures var d := Apply(c, s);
            && (id in c.nodes.entries ==> id in d.nodes.entries && Life(d, id) == Life(c, id))
            && (id !in c.nodes.entries && id in d.nodes.entries ==> Life(d, id) == [])
  {
  }

  lemma CheckLives(c: Controller, id: string, result: Result<NodeStatus, Reason>, o: string)
    requires id == o && id in c.nodes.entries ==> LifeTrue(c.nodes.entries[id], Life(c, id))
    ensures var d := Checked(c, id, result);
            && d.nodes.entries.Keys == c.nodes.entries.Keys
            && Life(d, o) == (if id == o && id in c.nodes.entries
                                 && (Life(c, id) == [] || LastOf(Life(c, id)) != result.Success?)
                              then Life(c, o) + [result.Success?] else Life(c, o))
  {
    hide Alternates;
  }

  /** The last that was said of an approved node is how it is, exactly if it was checked
      since its approval, or was said to be offline before. */
  lemma LastHeardIsTrueWhen(c: Controller, id: string)
    requires LivesTrue(c) && LivesAreHeard(c) && id in c.nodes.entries && Heard(c.events, id) != []
    ensures LastOf(Heard(c.events, id)) == c.nodes.entries[id].healthy <==>
            Life(c, id) != [] || !LastOf(Heard(c.events, id))
  {
    assert EndsWith(Heard(c.events, id), Life(c, id)) && LifeTrue(c.nodes.entries[id], Life(c, id));
    if Life(c, id) != [] { LastOfEnd(Heard(c.events, id), Life(c, id)); }
  }

  // ----- announcements -----

  /** Every approved node is one that was, with the same key. */
  ghost predicate SameKeys(n: Nodes, m: Nodes) {
    && m.entries.Keys == n.entries.Keys && m.pins == n.pins
    && (forall id :: id in n.entries ==> m.entries[id].key == n.entries[id].key)
  }

  /** Looking an announcement up changes nothing, and an offer is only a found node. */
  lemma LooksAndOffersAreHarmless(c: Controller, s: Step)
    requires s.Looks? || (s.Acts? && s.at in c.looks && c.looks[s.at].decision != Move)
    ensures Apply(c, s).nodes == c.nodes.(found := Apply(c, s).nodes.found) && Apply(c, s).relays == c.relays
    ensures s.Looks? ==> Apply(c, s).nodes == c.nodes
  {
  }

  /** An announcement acted on approves no node and changes no key exactly if the node is
      still approved with the key it was looked up with; then it's moved, and that's all. */
  lemma MovesAreHarmlessWhen(c: Controller, at: nat)
    requires Keyed(c.nodes) && at in c.looks && c.looks[at].decision == Move
    ensures var d, dto := Apply(c, Acts(at)), c.looks[at].dto;
            && (SameKeys(c.nodes, d.nodes) <==>
                dto.id in c.nodes.entries && c.nodes.entries[dto.id].key == Some(dto.key))
            && (SameKeys(c.nodes, d.nodes) ==>
                  && d.relays == c.relays
                  && d.nodes.entries == c.nodes.entries[dto.id := c.nodes.entries[dto.id].(url := dto.url)])
  {
    var dto := c.looks[at].dto;
    var d := Apply(c, Acts(at));
    assert dto.id in d.nodes.entries && d.nodes.entries[dto.id].key == Some(dto.key);
    if dto.id in c.nodes.entries && c.nodes.entries[dto.id].key == Some(dto.key) {
      assert dto.key in KeysOf(c.nodes.entries);
      assert c.nodes.pins + {dto.key} == c.nodes.pins;
    }
  }

  /** With nothing between looking up and acting, an announcement is harmless: it approves no
      node and changes no key, and moves one only to where its own key answers. */
  lemma AnnouncementsAreHarmless(c: Controller, at: nat, self: string, dto: Found)
    requires Keyed(c.nodes)
    ensures var d := Apply(Apply(c, Looks(at, self, dto)), Acts(at));
            && SameKeys(c.nodes, d.nodes) && d.nodes.ignored == c.nodes.ignored && d.relays == c.relays
            && (forall o :: o in c.nodes.entries ==>
                  var before, after := c.nodes.entries[o], d.nodes.entries[o];
                  && after.(url := before.url) == before
                  && (after.url == before.url ||
                      (o == dto.id && after.url == dto.url && before.key == Some(dto.key))))
  {
    var e := Apply(c, Looks(at, self, dto));
    if e.looks[at].decision == Move { MovesAreHarmlessWhen(e, at); }
  }

  /** A node is approved, announces that it moved, and is removed before that's acted on. */
  function LateSteps(id: string, name: string, url: string, key: string, at: nat, self: string, dto: Found): seq<Step> {
    [Approves(id, name, url, key), Looks(at, self, dto), Removes(id), Acts(at)]
  }

  /** Then it's approved again by its announcement alone: its key trusted, a relay running. */
  lemma LateMoveApprovesAnew(id: string, name: string, url: string, key: string, at: nat, self: string, dto: Found)
    requires id != self && dto.id == id && dto.key == key && dto.url != url
    ensures var steps := LateSteps(id, name, url, key, at, self, dto);
            var before, after := Run(Empty(), steps[..3]), Run(Empty(), steps);
            && NeverShared(Empty(), steps)
            && before.nodes.entries == map[] && before.nodes.pins == {}
            && id in after.nodes.entries && after.nodes.pins == {key} && Running(after, 1) && after.relays[1].0 == id
  {
    var steps := LateSteps(id, name, url, key, at, self, dto);
    LateStates(id, name, url, key, at, self, dto);
    hide Apply, Unshared, Run, NeverShared;
    var c := Empty();
    RunOfFour(c, steps);
  }

  lemma LateStates(id: string, name: string, url: string, key: string, at: nat, self: string, dto: Found)
    requires id != self && dto.id == id && dto.key == key && dto.url != url
    ensures var steps := LateSteps(id, name, url, key, at, self, dto);
            var c1 := Apply(Empty(), steps[0]);
            var c2 := Apply(c1, steps[1]);
            var c3 := Apply(c2, steps[2]);
            var c4 := Apply(c3, steps[3]);
            && Unshared(Empty(), steps[0]) && Unshared(c1, steps[1]) && Unshared(c2, steps[2]) && Unshared(c3, steps[3])
            && c3.nodes.entries == map[] && c3.nodes.pins == {}
            && id in c4.nodes.entries && c4.nodes.pins == {key} && Running(c4, 1) && c4.relays[1].0 == id
  {
    var steps := LateSteps(id, name, url, key, at, self, dto);
    var e := Entry(id, name, url, Some(key), false, 0, None, None, 0);
    var c1 := Apply(Empty(), steps[0]);
    assert c1.nodes.entries == map[id := e] && c1.relays == [(id, 0)] && c1.nodes.pins == {key};
    var c2 := Apply(c1, steps[1]);
    assert c2.looks[at] == Look(Move, dto) && c2.nodes == c1.nodes;
    var c3 := Apply(c2, steps[2]);
    assert c3.nodes.entries == map[] && c3.nodes.pins == {} && c3.cancelled == {0} && c3.nextToken == 1;
    var c4 := Apply(c3, steps[3]);
    assert c4.relays == [(id, 0)] + [(id, 1)];
  }

  lemma RunOfFour(c: Controller, steps: seq<Step>)
    requires |steps| == 4
    ensures var c1 := Apply(c, steps[0]);
            var c2 := Apply(c1, steps[1]);
            var c3 := Apply(c2, steps[2]);
            && Run(c, steps[..3]) == c3 && Run(c, steps) == Apply(c3, steps[3])
            && (NeverShared(c, steps) <==> Unshared(c, steps[0]) && Unshared(c1, steps[1]) && Unshared(c2, steps[2])
                                           && Unshared(c3, steps[3]))
  {
    hide Apply, Unshared;
    var p1 := [] + [steps[0]];
    var p2 := p1 + [steps[1]];
    var p3 := p2 + [steps[2]];
    RunMore(c, [], steps[0]);
    RunMore(c, p1, steps[1]);
    RunMore(c, p2, steps[2]);
    RunMore(c, p3, steps[3]);
    assert steps == p3 + [steps[3]] && steps[..3] == p3;
  }

  // ----- what a step does -----

  /** The other nodes' entries are as they were. */
  ghost predicate OtherEntries(n: Nodes, m: Nodes, id: string) { n.entries - {id} == m.entries - {id} }

  /** Approved, a node is an entry with this address and key, trusted and no longer found. One known
      keeps the rest and its relay; a new one is yet to answer, and gets a relay of its own. */
  lemma ApprovalMeans(c: Controller, id: string, name: string, url: string, key: string)
    requires Keyed(c.nodes)
    ensures var d := Apply(c, Approves(id, name, url, key));
            && OtherEntries(c.nodes, d.nodes, id) && d.nodes.found == c.nodes.found - {id}
            && d.nodes.ignored == c.nodes.ignored && key in d.nodes.pins && d.cancelled == c.cancelled
            && d.events == c.events + [NodeUpdated] && id in d.nodes.entries
            && (if id in c.nodes.entries then
                  && d.nodes.entries[id].url == url && d.nodes.entries[id].key == Some(key)
                  && d.nodes.entries[id].(url := c.nodes.entries[id].url, key := c.nodes.entries[id].key)
                     == c.nodes.entries[id]
                  && d.relays == c.relays
                else
                  && d.nodes.entries[id] == Entry(id, name, url, Some(key), false, 0, None, None, c.nextToken)
                  && d.relays == c.relays + [(id, c.nextToken)] && d.nextToken == c.nextToken + 1)
  {
  }

  /** Removed, its relay is cancelled, its key ignored and, unless another entry has it, not trusted. */
  lemma RemovalMeans(c: Controller, id: string)
    requires id in c.nodes.entries
    ensures var d, e := Apply(c, Removes(id)), c.nodes.entries[id];
            && OtherEntries(c.nodes, d.nodes, id) && id !in d.nodes.entries && d.nodes.found == c.nodes.found
            && d.cancelled == c.cancelled + {e.relay} && d.relays == c.relays && d.events == c.events
            && d.nodes.ignored == c.nodes.ignored + (if e.key.Some? then {e.key.value} else {})
            && d.nodes.pins == c.nodes.pins - (if e.key.Some? then {e.key.value} else {})
  {
  }

  /** A node that answers is healthy with what it said, and one that doesn't isn't, for this reason.
      It's said to be online when it wasn't healthy before, offline at the first failure running; else
      a change is told of its clock's state, or of the reason. Nothing else changes. */
  lemma CheckMeans(c: Controller, id: string, result: Result<NodeStatus, Reason>)
    requires id in c.nodes.entries
    ensures var d, e := Apply(c, Checks(id, result)), c.nodes.entries[id];
            && d.nodes.(entries := c.nodes.entries) == c.nodes && OtherEntries(c.nodes, d.nodes, id)
            && d.relays == c.relays && d.cancelled == c.cancelled && id in d.nodes.entries
            && (match result
                case Success(status) =>
                  && d.nodes.entries[id] ==
                     e.(healthy := true, failCount := 0, unreachable := None, status := Some(status.(id := id)))
                  && d.events == c.events + (if !e.healthy then [NodeOnline(id)]
                                             else if ClockDiffers(e.status, status) then [NodeUpdated] else [])
                case Failure(reason) =>
                  && d.nodes.entries[id] ==
                     e.(healthy := false, failCount := e.failCount + 1, unreachable := Some(reason))
                  && d.events == c.events + (if e.failCount == 0 then [NodeOffline(id)]
                                             else if e.unreachable != Some(reason) then [NodeUpdated] else []))
  {
  }

  /** Its clock is in another state; how it wobbles doesn't count. */
  predicate ClockDiffers(before: Option<NodeStatus>, now: NodeStatus) {
    match (if before.Some? then before.value.clock else None, now.clock)
    case (Some(a), Some(b)) => a.state != b.state
    case (a, b) => a.Some? || b.Some?
  }

  /** An announcement looked up and acted on at once: a node that's new, and not ignored, is offered;
      one approved that answers elsewhere with its own key is moved; and nothing else comes of it. */
  lemma AnnouncementMeans(c: Controller, at: nat, self: string, dto: Found)
    requires Keyed(c.nodes)
    ensures at !in Apply(Apply(c, Looks(at, self, dto)), Acts(at)).looks
    ensures var d := Apply(Apply(c, Looks(at, self, dto)), Acts(at));
            if dto.id != self && dto.id !in c.nodes.entries && dto.key !in c.nodes.ignored then
              && d.nodes == c.nodes.(found := c.nodes.found[dto.id := FoundNode(dto, 0)])
              && d.events == c.events + (if dto.id in c.nodes.found && c.nodes.found[dto.id].dto == dto then []
                                         else [NodeUpdated])
            else if dto.id != self && dto.id in c.nodes.entries && c.nodes.entries[dto.id].key == Some(dto.key)
                    && c.nodes.entries[dto.id].url != dto.url then
              && d.nodes.entries == c.nodes.entries[dto.id := c.nodes.entries[dto.id].(url := dto.url)]
              && d.nodes.found == c.nodes.found - {dto.id} && d.events == c.events + [NodeUpdated]
            else d.nodes == c.nodes && d.events == c.events
  {
  }

  /** One more miss is noted, and told when it drops the node. */
  lemma MissMeans(c: Controller, id: string)
    requires id in c.nodes.found
    ensures var d, f := Apply(c, Misses(id)), c.nodes.found[id];
            && d.nodes.(found := c.nodes.found) == c.nodes && d.nodes.found - {id} == c.nodes.found - {id}
            && (if f.failCount >= 2 then id !in d.nodes.found && d.events == c.events + [NodeUpdated]
                else
                  && id in d.nodes.found && d.nodes.found[id] == f.(failCount := f.failCount + 1)
                  && d.events == c.events)
  {
    assert id in c.nodes.found.Keys;
  }

  /** A node removed with a key, or dismissed, isn't offered with that key any more, whatever happens:
      only nodes that were found with it before still are. */
  lemma RemovedIsNotOffered(c: Controller, id: string, steps: seq<Step>, key: string)
    requires id in c.nodes.entries && c.nodes.entries[id].key == Some(key)
    ensures NotOffered(Run(Apply(c, Removes(id)), steps).nodes, key, FoundWith(c.nodes, key))
  {
    assert NotOffered(Apply(c, Removes(id)).nodes, key, FoundWith(c.nodes, key));
    hide Run, NotOffered;
    IgnoredIsNotOffered(Apply(c, Removes(id)), steps, key, FoundWith(c.nodes, key));
  }

  lemma DismissedIsNotOffered(c: Controller, id: string, steps: seq<Step>)
    requires id in c.nodes.found
    ensures var key := c.nodes.found[id].dto.key;
            NotOffered(Run(Apply(c, Ignores(id)), steps).nodes, key, FoundWith(c.nodes, key) - {id})
  {
    var key := c.nodes.found[id].dto.key;
    var ids := FoundWith(c.nodes, key) - {id};
    assert NotOffered(Apply(c, Ignores(id)).nodes, key, ids);
    hide Run, NotOffered;
    IgnoredIsNotOffered(Apply(c, Ignores(id)), steps, key, ids);
  }

  function FoundWith(n: Nodes, key: string): set<string> { set id | id in n.found && n.found[id].dto.key == key }

  // ----- found nodes -----

  /** The key is ignored, and of the nodes found only these have it. */
  ghost predicate NotOffered(n: Nodes, key: string, ids: set<string>) {
    key in n.ignored && forall id :: id in n.found && n.found[id].dto.key == key ==> id in ids
  }

  /** A dismissed or removed node's key is never offered again, whatever happens. */
  lemma {:induction false} IgnoredIsNotOffered(c: Controller, steps: seq<Step>, key: string, ids: set<string>)
    requires NotOffered(c.nodes, key, ids)
    ensures NotOffered(Run(c, steps).nodes, key, ids)
  {
    hide NotOffered;
    if steps != [] {
      IgnoredIsNotOffered(c, steps[..|steps| - 1], key, ids);
      StepOffersNoIgnored(Run(c, steps[..|steps| - 1]), steps[|steps| - 1], key, ids);
    }
  }

  lemma StepOffersNoIgnored(c: Controller, s: Step, key: string, ids: set<string>)
    requires NotOffered(c.nodes, key, ids)
    ensures NotOffered(Apply(c, s).nodes, key, ids)
  {
    if s.Checks? {
      CheckedKeepsTheRest(c, s.id, s.result);
      hide Checked;
      assert Apply(c, s) == Checked(c, s.id, s.result);
    } else {
      QuietOffersNoIgnored(c, s, key, ids);
    }
  }

  lemma QuietOffersNoIgnored(c: Controller, s: Step, key: string, ids: set<string>)
    requires NotOffered(c.nodes, key, ids) && !s.Checks?
    ensures NotOffered(Apply(c, s).nodes, key, ids)
  {
    hide Checked;
  }

  /** How often a found node may miss before it's dropped. */
  function MissedOften(n: Nodes, id: string, k: nat): Nodes {
    if k == 0 then n else Missed(MissedOften(n, id, k - 1), id)
  }

  /** A node just found is kept over two misses in a row, and dropped at the third. */
  lemma ThirdMissDrops(n: Nodes, dto: Found)
    requires dto.key !in n.ignored && dto.id !in n.entries
    ensures var found := Noted(n, dto).0;
            && dto.id in MissedOften(found, dto.id, 2).found && dto.id !in MissedOften(found, dto.id, 3).found
            && forall o :: o != dto.id && o in n.found ==>
                 o in MissedOften(found, dto.id, 3).found && MissedOften(found, dto.id, 3).found[o] == n.found[o]
  {
    var found := Noted(n, dto).0;
    assert MissedOften(found, dto.id, 1) == Missed(found, dto.id);
    assert MissedOften(found, dto.id, 2) == Missed(Missed(found, dto.id), dto.id);
    assert MissedOften(found, dto.id, 3) == Missed(Missed(Missed(found, dto.id), dto.id), dto.id);
  }

  // ----- the registry object -----

  class NodeRegistry {
    var entries: map<string, Entry>
    var found: map<string, FoundNode>
    var ignored: set<string>
    var pins: set<string>
    var cancelled: set<Token>

    function State(): Nodes reads this { Nodes(entries, found, ignored, pins) }

    constructor ()
      ensures State() == Empty().nodes && cancelled == {}
    {
      entries, found, ignored, pins, cancelled := map[], map[], {}, {}, {};
    }

    method Upsert(entry: Entry) returns (isNew: bool)
      modifies this
      ensures (State(), isNew) == Upserted(old(State()), entry)
      ensures cancelled == old(cancelled)
    {
      found := found - {entry.id};
      if entry.key.Some? { pins := pins + {entry.key.value}; }
      if entry.id in entries {
        var existing := entries[entry.id];
        if existing.key.Some? && entry.key != existing.key { pins := pins - {existing.key.value}; }
        entries := entries[entry.id := entry.(relay := existing.relay)];
        isNew := false;
      } else {
        entries := entries[entry.id := entry];
        isNew := true;
      }
    }

    method Remove(id: string) returns (removed: Option<Entry>)
      modifies this
      ensures State() == Removed(old(State()), id)
      ensures removed == if id in old(entries) then Some(old(entries)[id]) else None
      ensures cancelled == old(cancelled) + if removed.Some? then {removed.value.relay} else {}
    {
      if id !in entries { return None; }
      var entry := entries[id];
      entries := entries - {id};
      cancelled := cancelled + {entry.relay};
      if entry.key.Some? {
        pins := pins - {entry.key.value};
        ignored := ignored + {entry.key.value};
      }
      removed := Some(entry);
    }

    method SetFound(dto: Found) returns (changed: bool)
      modifies this
      ensures (State(), changed) == Noted(old(State()), dto)
      ensures cancelled == old(cancelled)
    {
      if dto.key in ignored || dto.id in entries { return false; }
      changed := dto.id !in found || found[dto.id].dto != dto;
      found := found[dto.id := FoundNode(dto, 0)];
    }

    method Ignore(id: string) returns (done: bool)
      modifies this
      ensures State() == Dismissed(old(State()), id) && done == (id in old(found))
      ensures cancelled == old(cancelled)
    {
      if id !in found { return false; }
      ignored := ignored + {found[id].dto.key};
      found := found - {id};
      done := true;
    }

    method FoundFailure(id: string) returns (fails: nat)
      modifies this
      ensures id !in old(found) ==> fails == 0 && State() == old(State())
      ensures id in old(found) ==> fails == old(found)[id].failCount + 1
      ensures id in old(found) ==>
                State() == old(State()).(found := old(found)[id := old(found)[id].(failCount := fails)])
      ensures cancelled == old(cancelled)
    {
      if id !in found { return 0; }
      fails := found[id].failCount + 1;
      found := found[id := found[id].(failCount := fails)];
    }

    /** What the poller does of a found node that didn't answer. */
    method FoundMissed(id: string) returns (dropped: bool)
      modifies this
      ensures State() == Missed(old(State()), id)
      ensures dropped <==> id in old(found) && id !in found
      ensures cancelled == old(cancelled)
    {
      var fails := FoundFailure(id);
      dropped := fails >= PRUNE_AFTER_FAILURES;
      if dropped { found := found - {id}; }
    }

    method RecordSuccess(status: NodeStatus) returns (recovered: bool, clockChanged: bool)
      modifies this
      ensures (State(), recovered, clockChanged) == Answered(old(State()), status)
      ensures cancelled == old(cancelled)
    {
      if status.id !in entries { return false, false; }
      var e := entries[status.id];
      recovered := !e.healthy;
      clockChanged := Steady(e.status) != Steady(Some(status));
      entries := entries[status.id := e.(status := Some(status), healthy := true, failCount := 0, unreachable := None)];
    }

    method RecordFailure(id: string, reason: Reason) returns (fails: nat, changed: bool)
      modifies this
      ensures (State(), fails, changed) == Unanswered(old(State()), id, reason)
      ensures cancelled == old(cancelled)
    {
      if id !in entries { return 0, false; }
      var e := entries[id];
      fails, changed := e.failCount + 1, e.unreachable != Some(reason);
      entries := entries[id := e.(healthy := false, failCount := fails, unreachable := Some(reason))];
    }
  }

  /** A round's results as steps. */
  function AsSteps(results: seq<(string, Result<NodeStatus, Reason>)>): seq<Step> {
    seq(|results|, i requires 0 <= i < |results| => Checks(results[i].0, results[i].1))
  }

  /** The discovery's part: what it tells others and which relays it starts. */
  class Discovery {
    const registry: NodeRegistry
    var events: seq<Event>
    var relays: seq<(string, Token)>
    var nextToken: Token
    ghost var lives: map<string, seq<bool>>

    ghost function State(): Controller reads this, registry {
      Controller(registry.State(), relays, registry.cancelled, nextToken, events, lives, map[])
    }

    constructor (registry: NodeRegistry)
      requires registry.State() == Empty().nodes && registry.cancelled == {}
      ensures this.registry == registry && State() == Empty()
    {
      this.registry := registry;
      events, relays, nextToken, lives := [], [], 0, map[];
    }

    method Approve(id: string, name: string, url: string, key: string)
      modifies this, registry
      ensures State() == Approved(old(State()), id, name, url, key)
    {
      var entry := Entry(id, name, url, Some(key), false, 0, None, None, nextToken);
      if id in registry.entries { entry := registry.entries[id].(url := url, key := Some(key)); }
      ghost var e := entry;
      var isNew := registry.Upsert(entry);
      if isNew {
        lives := lives[entry.id := []];
        relays, nextToken := relays + [(entry.id, entry.relay)], nextToken + 1;
      }
      events := events + [NodeUpdated];
    }

    /** The poller's results, in any order, each told as it's recorded. */
    method RecordResults(results: seq<(string, Result<NodeStatus, Reason>)>)
      modifies this, registry
      ensures State() == Run(old(State()), AsSteps(results))
    {
      ghost var steps := AsSteps(results);
      for i := 0 to |results|
        invariant State() == Run(old(State()), steps[..i])
      {
        var (id, result) := results[i];
        RecordResult(id, result);
        assert steps[..i + 1][..i] == steps[..i];
      }
      assert steps[..|results|] == steps;
    }

    method RecordResult(id: string, result: Result<NodeStatus, Reason>)
      modifies this, registry
      ensures State() == Checked(old(State()), id, result)
    {
      match result {
        case Success(status) =>
          var recovered, clockChanged := registry.RecordSuccess(status.(id := id));
          if recovered {
            events := events + [NodeOnline(id)];
            lives := lives[id := (if id in lives then lives[id] else []) + [true]];
          } else if clockChanged {
            events := events + [NodeUpdated];
          }
        case Failure(reason) =>
          var fails, changed := registry.RecordFailure(id, reason);
          if fails == 1 {
            events := events + [NodeOffline(id)];
            lives := lives[id := (if id in lives then lives[id] else []) + [false]];
          } else if changed {
            events := events + [NodeUpdated];
          }
      }
    }
  }
}
