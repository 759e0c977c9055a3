/** The live-data broadcaster sends a topic only when its payload changed or its subscribers
    did. Nobody can tell it from one that sends on every tick. */
module Broadcaster {
  import opened Wrappers
  import opened SubscriptionTable

  type Payload = string
  type Digest = string

  /** The table, every client id ever connected, the payload each client was last sent on each
      topic, and what the broadcaster remembers of its last send per topic. */
  datatype World = World(
    table: Table, used: set<string>, seen: map<(string, string), Payload>, last: map<string, (set<string>, Digest)>)

  predicate IsVehicleTopic(topic: string) {
    "vehicle:" <= topic
  }

  function VehicleTopics(t: Table): set<string> {
    set topic | topic in t.subs && IsVehicleTopic(topic)
  }

  // -- a tick ---------------------------------------------------------------------------------

  function Delivered(seen: map<(string, string), Payload>, clients: set<string>, topic: string, p: Payload)
    : map<(string, string), Payload>
  {
    seen + map c | c in clients :: (c, topic) := p
  }

  function Send(w: World, topic: string, p: Payload, failing: set<string>): World {
    var clients := Subscribers(w.table, topic) * w.table.active;
    w.(table := Disconnected(w.table, clients * failing), seen := Delivered(w.seen, clients - failing, topic, p))
  }

  function TickTopic(
    w: World, topic: string, built: map<string, Payload>, failing: set<string>, digest: Payload -> Digest): World
  {
    var clients := Subscribers(w.table, topic);
    if topic !in built || clients == {} then w
    else
      var entry := (clients, digest(built[topic]));
      if topic in w.last && w.last[topic] == entry then w
      else Send(w.(last := w.last[topic := entry]), topic, built[topic], failing)
  }

  function TickTopics(
    w: World, topics: seq<string>, built: map<string, Payload>, failing: set<string>, digest: Payload -> Digest): World
    decreases |topics|
  {
    if topics == [] then w
    else TickTopics(TickTopic(w, topics[0], built, failing, digest), topics[1..], built, failing, digest)
  }

  function Pruned(w: World): World {
    w.(last := map topic | topic in w.last && topic in w.table.subs :: w.last[topic])
  }

  /** `topics` is the order in which the table lists its vehicle topics, `built` the payloads
      of this tick, or None when building them failed, and `failing` the clients whose sends
      fail. */
  function Tick(
    w: World, topics: seq<string>, built: Option<map<string, Payload>>, failing: set<string>,
    digest: Payload -> Digest): World
  {
    if VehicleTopics(w.table) == {} then w.(last := map[])
    else if built.None? then Pruned(w)
    else TickTopics(Pruned(w), topics, built.value, failing, digest)
  }

  // -- the broadcaster itself ----------------------------------------------------------------------

  class VehicleDataBroadcaster {
    const manager: WebSocketConnectionManager
    var lastSent: map<string, (set<string>, Digest)>
    ghost var used: set<string>
    ghost var seen: map<(string, string), Payload>

    ghost function State(): World
      reads this, manager
    {
      World(manager.State(), used, seen, lastSent)
    }

    constructor (manager: WebSocketConnectionManager)
      ensures this.manager == manager && State() == World(manager.State(), {}, map[], map[])
    {
      this.manager, lastSent, used, seen := manager, map[], {}, map[];
    }

    method RunTick(
      topics: seq<string>, built: Option<map<string, Payload>>, failing: set<string>, digest: Payload -> Digest)
      requires manager.Valid()
      modifies this, manager
      ensures manager.Valid() && State() == Tick(old(State()), topics, built, failing, digest)
    {
      if !exists topic :: topic in manager.subscriptions && IsVehicleTopic(topic) {
        lastSent := map[];
        return;
      }
      ghost var was := State();
      lastSent := map topic | topic in lastSent && topic in manager.subscriptions :: lastSent[topic];
      assert State() == Pruned(was);
      assert VehicleTopics(was.table) != {} by {
        var topic :| topic in manager.subscriptions && IsVehicleTopic(topic);
        assert topic in VehicleTopics(was.table);
      }
      if built.None? {
        return;
      }
      hide TickTopic, Pruned, VehicleTopics;
      for i := 0 to |topics|
        invariant manager.Valid()
        invariant TickTopics(State(), topics[i..], built.value, failing, digest)
               == TickTopics(Pruned(was), topics, built.value, failing, digest)
      {
        assert topics[i..][0] == topics[i] && topics[i..][1..] == topics[i + 1..];
        SendIfChanged(topics[i], built.value, failing, digest);
      }
    }

    method SendIfChanged(topic: string, built: map<string, Payload>, failing: set<string>, digest: Payload -> Digest)
      requires manager.Valid()
      modifies this, manager
      ensures manager.Valid() && State() == TickTopic(old(State()), topic, built, failing, digest)
    {
      if topic !in built {
        return;
      }
      var subscribers := manager.SubscribersOf(topic);
      if subscribers == {} {
        return;
      }
      var entry := (subscribers, digest(built[topic]));
      if topic in lastSent && lastSent[topic] == entry {
        return;
      }
      lastSent := lastSent[topic := entry];
      var sent := manager.BroadcastToTopic(topic, failing);
      assert sent == Subscribers(old(manager.State()), topic) * old(manager.active) - failing;
      seen := Delivered(seen, sent, topic, built[topic]);
    }
  }

  // -- every run ---------------------------------------------------------------------------------

  datatype Event =
    | Connect(client: string, user: Option<nat>)
    | Disconnect(client: string)
    | Subscribe(client: string, topic: string)
    | Unsubscribe(client: string, topic: string)
    | DropTopic(topic: string)
    | WithdrawFromOthers(topic: string, keepUser: nat)
    | TickEvent(topics: seq<string>, built: Option<map<string, Payload>>, failing: set<string>)

  /** Client ids are drawn fresh for every socket, and only sockets subscribe. */
  predicate Possible(w: World, e: Event) {
    match e
    case Connect(client, _) => client !in w.used
    case Subscribe(client, _) => client in w.used
    case TickEvent(topics, _, _) => (set topic | topic in topics) == VehicleTopics(w.table)
    case _ => true
  }

  function Retabled(t: Table, e: Event): Table
    requires !e.TickEvent?
  {
    match e
    case Connect(client, user) => Connected(t, client, user)
    case Disconnect(client) => Disconnected(t, {client})
    case Subscribe(client, topic) => WithTopic(t, topic, Subscribers(t, topic) + {client})
    case Unsubscribe(client, topic) => WithTopic(t, topic, Subscribers(t, topic) - {client})
    case DropTopic(topic) => WithTopic(t, topic, {})
    case WithdrawFromOthers(topic, keep) => WithTopic(t, topic, Subscribers(t, topic) - Others(t, topic, keep))
  }

  function Step(w: World, e: Event, digest: Payload -> Digest): World {
    if e.TickEvent? then Tick(w, e.topics, e.built, e.failing, digest)
    else w.(table := Retabled(w.table, e), used := w.used + if e.Connect? then {e.client} else {})
  }

  // -- what is remembered is true -----------------------------------------------------------------

  ghost predicate Injective(digest: Payload -> Digest) {
    forall p, q :: digest(p) == digest(q) ==> p == q
  }

  predicate HasSeen(w: World, client: string, topic: string, p: Payload) {
    (client, topic) in w.seen && w.seen[(client, topic)] == p
  }

  ghost predicate Known(w: World) {
    && NoEmptyTopic(w.table)
    && w.table.active <= w.used
    && forall topic :: Subscribers(w.table, topic) <= w.used
  }

  /** Whoever was subscribed at the last send and still is connected has that payload. */
  predicate Remembered(w: World, topic: string, client: string, digest: Payload -> Digest) {
    topic in w.last && client in w.last[topic].0 ==>
      && client in w.used
      && (client in w.table.active ==>
          (client, topic) in w.seen && digest(w.seen[(client, topic)]) == w.last[topic].1)
  }

  ghost predicate Invariant(w: World, digest: Payload -> Digest) {
    Known(w) && forall topic, client :: Remembered(w, topic, client, digest)
  }

  lemma SendKeepsKnown(w: World, topic: string, p: Payload, failing: set<string>)
    requires Known(w)
    ensures Known(Send(w, topic, p, failing))
  {
    var gone := Subscribers(w.table, topic) * w.table.active * failing;
    forall other
      ensures Subscribers(Disconnected(w.table, gone), other) == Subscribers(w.table, other) - gone
      ensures NoEmptyTopic(Disconnected(w.table, gone))
    {
      DisconnectedMeans(w.table, gone, other);
    }
  }

  lemma SendIsSeen(w: World, topic: string, p: Payload, failing: set<string>, client: string, other: string)
    ensures var n := Send(w, topic, p, failing);
      && n.table.active <= w.table.active && n.used == w.used && n.last == w.last
      && Subscribers(n.table, other) <= Subscribers(w.table, other)
      && (client in Subscribers(w.table, topic) && client in n.table.active ==> HasSeen(n, client, topic, p))
      && (other != topic || client !in Subscribers(w.table, topic) ==>
          ((client, other) in n.seen <==> (client, other) in w.seen)
          && ((client, other) in w.seen ==> n.seen[(client, other)] == w.seen[(client, other)]))
  {
    var gone := Subscribers(w.table, topic) * w.table.active * failing;
    DisconnectedMeans(w.table, gone, other);
  }

  lemma TickTopicKeepsInvariant(
    w: World, topic: string, built: map<string, Payload>, failing: set<string>, digest: Payload -> Digest)
    requires Invariant(w, digest)
    ensures Invariant(TickTopic(w, topic, built, failing, digest), digest)
  {
    var n := TickTopic(w, topic, built, failing, digest);
    if n != w {
      var clients, p := Subscribers(w.table, topic), built[topic];
      var m := w.(last := w.last[topic := (clients, digest(p))]);
      assert n == Send(m, topic, p, failing);
      SendKeepsKnown(m, topic, p, failing);
      forall t, c ensures Remembered(n, t, c, digest) {
        assert Remembered(w, t, c, digest);
        SendIsSeen(m, topic, p, failing, c, t);
        hide Send, TickTopic, Subscribers, NoEmptyTopic;
      }
    }
  }

  lemma {:induction false} TickTopicsKeepInvariant(
    w: World, topics: seq<string>, built: map<string, Payload>, failing: set<string>, digest: Payload -> Digest)
    requires Invariant(w, digest)
    ensures Invariant(TickTopics(w, topics, built, failing, digest), digest)
    decreases |topics|
  {
    if topics != [] {
      TickTopicKeepsInvariant(w, topics[0], built, failing, digest);
      hide Invariant, TickTopic;
      TickTopicsKeepInvariant(TickTopic(w, topics[0], built, failing, digest), topics[1..], built, failing, digest);
    }
  }

  lemma ForgettingKeepsInvariant(w: World, n: World, digest: Payload -> Digest)
    requires Invariant(w, digest) && n == w.(last := n.last)
    requires forall topic :: topic in n.last ==> topic in w.last && n.last[topic] == w.last[topic]
    ensures Invariant(n, digest)
  {
    forall t, c ensures Remembered(n, t, c, digest) {
      assert Remembered(w, t, c, digest);
    }
  }

  lemma RetabledKeepsKnown(w: World, e: Event, digest: Payload -> Digest)
    requires Known(w) && Possible(w, e) && !e.TickEvent?
    ensures Known(Step(w, e, digest))
    ensures Step(w, e, digest).table.active <= w.table.active + if e.Connect? then {e.client} else {}
  {
    var t := Step(w, e, digest).table;
    forall topic ensures Subscribers(t, topic) <= w.used && NoEmptyTopic(t) {
      match e {
        case Disconnect(client) => DisconnectedMeans(w.table, {client}, topic);
        case Subscribe(client, at) => WithTopicMeans(w.table, at, Subscribers(w.table, at) + {client}, topic);
        case Unsubscribe(client, at) => WithTopicMeans(w.table, at, Subscribers(w.table, at) - {client}, topic);
        case DropTopic(at) => WithTopicMeans(w.table, at, {}, topic);
        case WithdrawFromOthers(at, keep) =>
          WithTopicMeans(w.table, at, Subscribers(w.table, at) - Others(w.table, at, keep), topic);
        case Connect(_, _) => assert Subscribers(t, topic) == Subscribers(w.table, topic);
      }
    }
  }

  lemma StepKeepsInvariant(w: World, e: Event, digest: Payload -> Digest)
    requires Invariant(w, digest) && Possible(w, e)
    ensures Invariant(Step(w, e, digest), digest)
  {
    if e.TickEvent? {
      ForgettingKeepsInvariant(w, w.(last := map[]), digest);
      ForgettingKeepsInvariant(w, Pruned(w), digest);
      if e.built.Some? {
        TickTopicsKeepInvariant(Pruned(w), e.topics, e.built.value, e.failing, digest);
      }
    } else {
      RetabledKeepsKnown(w, e, digest);
      var n := Step(w, e, digest);
      assert n.seen == w.seen && n.last == w.last && w.used <= n.used;
      hide Step, Known;
      forall t, c ensures Remembered(n, t, c, digest) {
        assert Remembered(w, t, c, digest);
      }
    }
  }

  // -- freshness --------------------------------------------------------------------------------

  /** Every connected subscriber of the topic was last sent `p`. */
  ghost predicate Fresh(w: World, topic: string, p: Payload) {
    forall c :: c in Subscribers(w.table, topic) && c in w.table.active ==> HasSeen(w, c, topic, p)
  }

  lemma TickTopicMakesFresh(
    w: World, topic: string, built: map<string, Payload>, failing: set<string>, digest: Payload -> Digest)
    requires Invariant(w, digest) && Injective(digest) && topic in built
    ensures Fresh(TickTopic(w, topic, built, failing, digest), topic, built[topic])
  {
    var n, p := TickTopic(w, topic, built, failing, digest), built[topic];
    forall c | c in Subscribers(n.table, topic) && c in n.table.active ensures HasSeen(n, c, topic, p) {
      assert Remembered(w, topic, c, digest);
      if n != w {
        SendIsSeen(w.(last := w.last[topic := (Subscribers(w.table, topic), digest(p))]), topic, p, failing, c, topic);
      }
    }
  }

  lemma TickTopicKeepsFresh(
    w: World, topic: string, built: map<string, Payload>, failing: set<string>, digest: Payload -> Digest,
    other: string, p: Payload)
    requires Fresh(w, other, p) && (topic == other ==> topic in built && built[topic] == p)
    ensures Fresh(TickTopic(w, topic, built, failing, digest), other, p)
  {
    var n := TickTopic(w, topic, built, failing, digest);
    if n != w {
      var m := w.(last := w.last[topic := (Subscribers(w.table, topic), digest(built[topic]))]);
      forall c | c in Subscribers(n.table, other) && c in n.table.active ensures HasSeen(n, c, other, p) {
        SendIsSeen(m, topic, built[topic], failing, c, other);
      }
    }
  }

  lemma {:induction false} TickTopicsKeepFresh(
    w: World, topics: seq<string>, built: map<string, Payload>, failing: set<string>, digest: Payload -> Digest,
    topic: string)
    requires Invariant(w, digest) && topic in built && Fresh(w, topic, built[topic])
    ensures Fresh(TickTopics(w, topics, built, failing, digest), topic, built[topic])
    decreases |topics|
  {
    if topics != [] {
      TickTopicKeepsInvariant(w, topics[0], built, failing, digest);
      TickTopicKeepsFresh(w, topics[0], built, failing, digest, topic, built[topic]);
      hide Invariant, TickTopic, Fresh;
      TickTopicsKeepFresh(TickTopic(w, topics[0], built, failing, digest), topics[1..], built, failing, digest, topic);
    }
  }

  lemma {:induction false} TickTopicsMakeFresh(
    w: World, topics: seq<string>, built: map<string, Payload>, failing: set<string>, digest: Payload -> Digest,
    topic: string)
    requires Invariant(w, digest) && Injective(digest) && topic in topics && topic in built
    ensures Fresh(TickTopics(w, topics, built, failing, digest), topic, built[topic])
    decreases |topics|
  {
    var n := TickTopic(w, topics[0], built, failing, digest);
    TickTopicKeepsInvariant(w, topics[0], built, failing, digest);
    if topics[0] == topic {
      TickTopicMakesFresh(w, topic, built, failing, digest);
      hide Invariant, Injective, TickTopic, Fresh;
      TickTopicsKeepFresh(n, topics[1..], built, failing, digest, topic);
    } else {
      hide Invariant, Injective, TickTopic, Fresh;
      TickTopicsMakeFresh(n, topics[1..], built, failing, digest, topic);
    }
  }

  lemma {:induction false} TickTopicsOnlyLose(
    w: World, topics: seq<string>, built: map<string, Payload>, failing: set<string>, digest: Payload -> Digest,
    topic: string)
    ensures Subscribers(TickTopics(w, topics, built, failing, digest).table, topic) <= Subscribers(w.table, topic)
    decreases |topics|
  {
    if topics != [] {
      var n := TickTopic(w, topics[0], built, failing, digest);
      if n != w {
        var m := w.(last := w.last[topics[0] := (Subscribers(w.table, topics[0]), digest(built[topics[0]]))]);
        SendIsSeen(m, topics[0], built[topics[0]], failing, "", topic);
      }
      TickTopicsOnlyLose(n, topics[1..], built, failing, digest, topic);
    }
  }

  /** After a tick every connected subscriber of a vehicle topic has been sent exactly the
      current payload, whatever clients did before and whichever sends failed. */
  lemma TickIsFresh(w: World, e: Event, digest: Payload -> Digest, topic: string)
    requires Invariant(w, digest) && Injective(digest) && e.TickEvent? && Possible(w, e) && e.built.Some?
    requires IsVehicleTopic(topic) && topic in e.built.value
    ensures Fresh(Step(w, e, digest), topic, e.built.value[topic])
  {
    ForgettingKeepsInvariant(w, Pruned(w), digest);
    if topic in w.table.subs {
      assert topic in VehicleTopics(w.table);
      TickTopicsMakeFresh(Pruned(w), e.topics, e.built.value, e.failing, digest, topic);
    } else {
      TickTopicsOnlyLose(Pruned(w), e.topics, e.built.value, e.failing, digest, topic);
    }
  }

  // -- runs --------------------------------------------------------------------------------------

  predicate PossibleRun(w: World, events: seq<Event>, digest: Payload -> Digest)
    decreases |events|
  {
    events == [] || (Possible(w, events[0]) && PossibleRun(Step(w, events[0], digest), events[1..], digest))
  }

  function Run(w: World, events: seq<Event>, digest: Payload -> Digest): World
    decreases |events|
  {
    if events == [] then w else Run(Step(w, events[0], digest), events[1..], digest)
  }

  const START: World := World(Table({}, map[], map[]), {}, map[], map[])

  lemma {:induction false} RunKeepsInvariant(w: World, events: seq<Event>, digest: Payload -> Digest)
    requires Invariant(w, digest) && PossibleRun(w, events, digest)
    ensures Invariant(Run(w, events, digest), digest)
    decreases |events|
  {
    if events != [] {
      StepKeepsInvariant(w, events[0], digest);
      hide Invariant, Step, Possible;
      RunKeepsInvariant(Step(w, events[0], digest), events[1..], digest);
    }
  }

  /** In every run: each tick that builds a topic's payload leaves its subscribers with it. */
  lemma EveryTickIsFresh(events: seq<Event>, e: Event, digest: Payload -> Digest, topic: string)
    requires Injective(digest) && PossibleRun(START, events, digest)
    requires e.TickEvent? && e.built.Some? && Possible(Run(START, events, digest), e)
    requires IsVehicleTopic(topic) && topic in e.built.value
    ensures Fresh(Step(Run(START, events, digest), e, digest), topic, e.built.value[topic])
  {
    RunKeepsInvariant(START, events, digest);
    TickIsFresh(Run(START, events, digest), e, digest, topic);
  }

  // -- the broadcaster that always sends ----------------------------------------------------------

  /** The same loop without the memory. */
  function PlainTopics(w: World, topics: seq<string>, built: map<string, Payload>, failing: set<string>): World
    decreases |topics|
  {
    if topics == [] then w
    else
      PlainTopics(
        if topics[0] in built then Send(w, topics[0], built[topics[0]], failing) else w,
        topics[1..], built, failing)
  }

  function PlainStep(w: World, e: Event, digest: Payload -> Digest): World {
    if !e.TickEvent? then Step(w, e, digest)
    else if VehicleTopics(w.table) == {} || e.built.None? then w
    else PlainTopics(w, e.topics, e.built.value, e.failing)
  }

  function PlainRun(w: World, events: seq<Event>, digest: Payload -> Digest): World
    decreases |events|
  {
    if events == [] then w else PlainRun(PlainStep(w, events[0], digest), events[1..], digest)
  }

  /** Everything but the memory: who is connected and subscribed, and what each was last sent. */
  predicate SameToClients(v: World, w: World) {
    v.table == w.table && v.used == w.used && v.seen == w.seen
  }

  lemma SendingAgainChangesNothing(w: World, topic: string, p: Payload)
    requires Known(w) && Fresh(w, topic, p)
    ensures SameToClients(Send(w, topic, p, {}), w)
  {
    var clients := Subscribers(w.table, topic) * w.table.active;
    assert clients * {} == {} && clients - {} == clients;
    DisconnectedNobody(w.table);
    forall c | c in clients ensures HasSeen(w, c, topic, p) {
    }
    assert Delivered(w.seen, clients, topic, p) == w.seen;
  }

  lemma OneTopicAlike(
    v: World, w: World, topic: string, built: map<string, Payload>, digest: Payload -> Digest)
    requires SameToClients(v, w) && Invariant(w, digest) && Injective(digest)
    ensures SameToClients(
      if topic in built then Send(v, topic, built[topic], {}) else v, TickTopic(w, topic, built, {}, digest))
  {
    var n := TickTopic(w, topic, built, {}, digest);
    if topic in built && n == w {
      TickTopicMakesFresh(w, topic, built, {}, digest);
      hide Invariant, Injective, TickTopic, Fresh;
      assert Known(w) by {
        TickTopicKeepsKnown(w, digest);
      }
      SendingAgainChangesNothing(w, topic, built[topic]);
    }
  }

  lemma TickTopicKeepsKnown(w: World, digest: Payload -> Digest)
    requires Invariant(w, digest)
    ensures Known(w)
  {
  }

  lemma {:induction false} TopicsAlike(
    v: World, w: World, topics: seq<string>, built: map<string, Payload>, digest: Payload -> Digest)
    requires SameToClients(v, w) && Invariant(w, digest) && Injective(digest)
    ensures SameToClients(PlainTopics(v, topics, built, {}), TickTopics(w, topics, built, {}, digest))
    decreases |topics|
  {
    if topics != [] {
      OneTopicAlike(v, w, topics[0], built, digest);
      TickTopicKeepsInvariant(w, topics[0], built, {}, digest);
      hide Invariant, Injective, TickTopic, Send, SameToClients;
      TopicsAlike(
        if topics[0] in built then Send(v, topics[0], built[topics[0]], {}) else v,
        TickTopic(w, topics[0], built, {}, digest), topics[1..], built, digest);
    }
  }

  lemma StepAlike(v: World, w: World, e: Event, digest: Payload -> Digest)
    requires SameToClients(v, w) && Invariant(w, digest) && Injective(digest) && Possible(w, e)
    requires e.TickEvent? ==> e.failing == {}
    ensures SameToClients(PlainStep(v, e, digest), Step(w, e, digest))
  {
    if e.TickEvent? && e.built.Some? {
      ForgettingKeepsInvariant(w, Pruned(w), digest);
      TopicsAlike(v, Pruned(w), e.topics, e.built.value, digest);
    }
  }

  predicate NoSendFails(events: seq<Event>) {
    forall i :: 0 <= i < |events| && events[i].TickEvent? ==> events[i].failing == {}
  }

  /** Whatever clients do between the ticks, as long as sends succeed they cannot tell the two
      apart: the same sockets and subscriptions, and each last sent the same payload. */
  lemma {:induction false} RefinesAlwaysSending(v: World, w: World, events: seq<Event>, digest: Payload -> Digest)
    requires SameToClients(v, w) && Invariant(w, digest) && Injective(digest)
    requires PossibleRun(w, events, digest) && NoSendFails(events)
    ensures SameToClients(PlainRun(v, events, digest), Run(w, events, digest))
    decreases |events|
  {
    if events != [] {
      assert events[0].TickEvent? ==> events[0].failing == {};
      StepAlike(v, w, events[0], digest);
      StepKeepsInvariant(w, events[0], digest);
      hide Invariant, Injective, Step, PlainStep, SameToClients, Possible;
      RefinesAlwaysSending(PlainStep(v, events[0], digest), Step(w, events[0], digest), events[1..], digest);
    }
  }
}
