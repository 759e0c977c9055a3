/** Who holds a topic: what each change does to one client and one topic, and that a client
    without a topic is sent nothing of it. */
module TopicAccess {
  import opened Wrappers
  import opened SubscriptionTable
  import opened Broadcaster
  import opened BroadcastSteps

  // -- one client and one topic seen alone -------------------------------------------------------

  /** Whether the client is connected, its account, and whether it holds the topic. */
  datatype Pair = Pair(connected: bool, account: Option<nat>, holds: bool)

  function View(t: Table, client: string, topic: string): Pair {
    Pair(client in t.active, if client in t.users then Some(t.users[client]) else None,
         topic in t.subs && client in t.subs[topic])
  }

  /** What an event that is not a tick makes of it. */
  function PairStep(p: Pair, e: Broadcaster.Event, client: string, topic: string): Pair {
    match e
    case Connect(c, user) =>
      if c == client then p.(connected := true, account := if user.Some? then user else p.account) else p
    case Disconnect(c) => if c == client then Pair(false, None, false) else p
    case Subscribe(c, at) => if c == client && at == topic then p.(holds := true) else p
    case Unsubscribe(c, at) => if c == client && at == topic then p.(holds := false) else p
    case DropTopic(at) => if at == topic then p.(holds := false) else p
    case WithdrawFromOthers(at, keep) =>
      if at == topic && p.account != Some(keep) then p.(holds := false) else p
    case TickEvent(_, _, _) => p
  }

  lemma HoldsMeans(t: Table, client: string, topic: string)
    ensures View(t, client, topic).holds <==> client in Subscribers(t, topic)
  {
  }

  /** Each change reaches exactly the clients and topics that it names. */
  lemma StepOfOnePair(t: Table, e: Broadcaster.Event, client: string, topic: string)
    requires !e.TickEvent?
    ensures View(Retabled(t, e), client, topic) == PairStep(View(t, client, topic), e, client, topic)
  {
    HoldsMeans(t, client, topic);
    HoldsMeans(Retabled(t, e), client, topic);
    match e {
      case Disconnect(c) => DisconnectedMeans(t, {c}, topic);
      case Subscribe(c, at) => WithTopicMeans(t, at, Subscribers(t, at) + {c}, topic);
      case Unsubscribe(c, at) => WithTopicMeans(t, at, Subscribers(t, at) - {c}, topic);
      case DropTopic(at) => WithTopicMeans(t, at, {}, topic);
      case WithdrawFromOthers(at, keep) => WithTopicMeans(t, at, Subscribers(t, at) - Others(t, at, keep), topic);
      case Connect(_, _) =>
      case TickEvent(_, _, _) =>
    }
  }

  /** After a withdrawal exactly the kept account's subscribers are left, and every other topic
      keeps its own. */
  lemma WithdrawalMeans(t: Table, topic: string, keep: nat, client: string, other: string)
    ensures var after := Retabled(t, WithdrawFromOthers(topic, keep));
      && after.active == t.active && after.users == t.users
      && (client in Subscribers(after, topic) <==>
            client in Subscribers(t, topic) && client in t.users && t.users[client] == keep)
      && (other != topic ==> Subscribers(after, other) == Subscribers(t, other))
  {
    WithTopicMeans(t, topic, Subscribers(t, topic) - Others(t, topic, keep), topic);
    WithTopicMeans(t, topic, Subscribers(t, topic) - Others(t, topic, keep), other);
  }

  // -- without a topic, without its payloads -------------------------------------------------------

  /** The client does not hold the topic, and nothing of it is under way to the client. */
  predicate NoAccess(v: Live, client: string, topic: string) {
    client !in Subscribers(v.world.table, topic) && !InFlight(v, topic, client)
  }

  predicate SameSeen(a: World, b: World, client: string, topic: string) {
    && ((client, topic) in a.seen <==> (client, topic) in b.seen)
    && ((client, topic) in a.seen ==> a.seen[(client, topic)] == b.seen[(client, topic)])
  }

  lemma StepKeepsOut(v: Live, e: BroadcastSteps.Step, client: string, topic: string, digest: Payload -> Digest)
    requires Can(v, e) && NoAccess(v, client, topic) && e != ByOthers(Subscribe(client, topic))
    ensures NoAccess(Do(v, e, digest), client, topic) && SameSeen(v.world, Do(v, e, digest).world, client, topic)
  {
    HoldsMeans(v.world.table, client, topic);
    match e {
      case ByOthers(event) =>
        StepOfOnePair(v.world.table, event, client, topic);
        HoldsMeans(Retabled(v.world.table, event), client, topic);
        hide Retabled, View;
      case Reap(c) =>
        DisconnectedMeans(v.world.table, {c}, topic);
        hide Disconnected;
      case _ =>
    }
  }

  predicate NeverSubscribes(steps: seq<BroadcastSteps.Step>, client: string, topic: string) {
    ByOthers(Subscribe(client, topic)) !in steps
  }

  /** In every run, between any two awaits: a client that does not hold a topic, with nothing of
      it under way, is sent no payload of that topic until it subscribes. */
  lemma {:induction false} OutsidersSeeNothing(
    v: Live, steps: seq<BroadcastSteps.Step>, client: string, topic: string, digest: Payload -> Digest)
    requires CanRun(v, steps, digest) && NoAccess(v, client, topic) && NeverSubscribes(steps, client, topic)
    ensures var u := RunOf(v, steps, digest);
      NoAccess(u, client, topic) && SameSeen(v.world, u.world, client, topic)
    decreases |steps|
  {
    if steps != [] {
      StepKeepsOut(v, steps[0], client, topic, digest);
      assert NeverSubscribes(steps[1..], client, topic);
      hide NoAccess, Do, Can;
      OutsidersSeeNothing(Do(v, steps[0], digest), steps[1..], client, topic, digest);
    }
  }

  /** So once a topic has been withdrawn from others, a client of another or unknown account is
      sent nothing more of it than what was under way, until it subscribes again. */
  lemma WithdrawnSeeNothing(
    v: Live, topic: string, keep: nat, steps: seq<BroadcastSteps.Step>, client: string, digest: Payload -> Digest)
    requires !(client in v.world.table.users && v.world.table.users[client] == keep)
    requires !InFlight(v, topic, client)
    requires CanRun(Do(v, ByOthers(WithdrawFromOthers(topic, keep)), digest), steps, digest)
    requires NeverSubscribes(steps, client, topic)
    ensures var u := RunOf(Do(v, ByOthers(WithdrawFromOthers(topic, keep)), digest), steps, digest);
      client !in Subscribers(u.world.table, topic) && SameSeen(v.world, u.world, client, topic)
  {
    var w := Do(v, ByOthers(WithdrawFromOthers(topic, keep)), digest);
    WithdrawalMeans(v.world.table, topic, keep, client, topic);
    assert w.world.seen == v.world.seen && NoAccess(w, client, topic);
    hide Do, RunOf, CanRun;
    OutsidersSeeNothing(w, steps, client, topic, digest);
  }

  // -- what the broadcaster keeps ----------------------------------------------------------------

  /** The same for a tick that nothing interrupts, before it sends. */
  lemma TickPrunes(w: World, topics: seq<string>, failing: set<string>, digest: Payload -> Digest)
    ensures var u := Tick(w, topics, None, failing, digest);
      && (forall topic :: topic in u.last ==> topic in w.table.subs && topic in w.last)
      && ((forall topic :: topic in w.table.subs ==> !("vehicle:" <= topic)) ==> u.last == map[])
  {
    if forall topic :: topic in w.table.subs ==> !("vehicle:" <= topic) {
      assert VehicleTopics(w.table) == {};
    }
  }

  /** After waking, it remembers no topic that nobody holds; and nothing at all if no vehicle
      topic is held. */
  lemma MemoryIsPruned(v: Live, topics: seq<string>, digest: Payload -> Digest)
    requires Can(v, Wake(topics))
    ensures var u := Do(v, Wake(topics), digest);
      && (forall topic :: topic in u.world.last ==> topic in v.world.table.subs && topic in v.world.last)
      && ((forall topic :: topic in v.world.table.subs ==> !("vehicle:" <= topic)) ==> u.world.last == map[])
  {
    if forall topic :: topic in v.world.table.subs ==> !("vehicle:" <= topic) {
      assert VehicleTopics(v.world.table) == {};
    }
  }
}
