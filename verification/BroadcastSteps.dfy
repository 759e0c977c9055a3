/** The broadcaster between its awaits: the build of the payloads, the sends of each topic and
    the closing of each dead socket, with every other task running in between. */
module BroadcastSteps {
  import opened Wrappers
  import opened SubscriptionTable
  import opened Broadcaster

  /** Asleep; waiting for the payloads of the listed topics; or going through them, with the
      clients of the current topic whose sends are under way, and those to be disconnected
      because theirs failed. */
  datatype Phase =
    | Asleep
    | Building(topics: seq<string>)
    | Serving(
        rest: seq<string>, built: map<string, Payload>, topic: string,
        waiting: set<string>, failed: set<string>)

  datatype Live = Live(world: World, phase: Phase)

  datatype Step =
    | ByOthers(event: Event)
    | Wake(topics: seq<string>)
    | Build(built: Option<map<string, Payload>>)
    | Note
    | Sent(client: string)
    | SendFails(client: string)
    | Reap(client: string)
    | Finish

  predicate NoRepeats(q: seq<string>) {
    forall i, j :: 0 <= i < j < |q| ==> q[i] != q[j]
  }

  predicate Settled(p: Phase) {
    p.Serving? ==> p.waiting == {} && p.failed == {}
  }

  predicate Can(v: Live, e: Step) {
    match e
    case ByOthers(event) => !event.TickEvent? && Possible(v.world, event)
    case Wake(topics) =>
      v.phase.Asleep? && NoRepeats(topics) && (set t | t in topics) == VehicleTopics(v.world.table)
    case Build(_) => v.phase.Building?
    case Note => v.phase.Serving? && Settled(v.phase) && v.phase.rest != []
    case Sent(client) => v.phase.Serving? && client in v.phase.waiting && v.phase.topic in v.phase.built
    case SendFails(client) => v.phase.Serving? && client in v.phase.waiting
    case Reap(client) => v.phase.Serving? && v.phase.waiting == {} && client in v.phase.failed
    case Finish => v.phase.Serving? && Settled(v.phase) && v.phase.rest == []
  }

  /** Whether the topic is due, and with which subscribers it is remembered. */
  predicate Due(w: World, topic: string, built: map<string, Payload>, digest: Payload -> Digest) {
    var clients := Subscribers(w.table, topic);
    && topic in built && clients != {}
    && !(topic in w.last && w.last[topic] == (clients, digest(built[topic])))
  }

  /** Noting the subscribers, remembering them and taking the snapshot to send to are one
      stretch without an await: the lock of the table is never held across one. */
  function AfterNote(v: Live, digest: Payload -> Digest): Live
    requires v.phase.Serving? && v.phase.rest != []
  {
    var w, topic, rest, built := v.world, v.phase.rest[0], v.phase.rest[1..], v.phase.built;
    if Due(w, topic, built, digest) then
      var clients := Subscribers(w.table, topic);
      Live(w.(last := w.last[topic := (clients, digest(built[topic]))]),
           Serving(rest, built, topic, clients * w.table.active, {}))
    else Live(w, Serving(rest, built, topic, {}, {}))
  }

  function Do(v: Live, e: Step, digest: Payload -> Digest): Live
    requires Can(v, e)
  {
    var w, p := v.world, v.phase;
    match e
    case ByOthers(event) => v.(world := Broadcaster.Step(w, event, digest))
    case Wake(topics) =>
      if VehicleTopics(w.table) == {} then Live(w.(last := map[]), Asleep)
      else Live(Pruned(w), Building(topics))
    case Build(built) =>
      v.(phase := if built.None? then Asleep else Serving(p.topics, built.value, "", {}, {}))
    case Note => AfterNote(v, digest)
    case Sent(client) =>
      Live(w.(seen := Delivered(w.seen, {client}, p.topic, p.built[p.topic])), p.(waiting := p.waiting - {client}))
    case SendFails(client) =>
      v.(phase := p.(waiting := p.waiting - {client}, failed := p.failed + {client}))
    case Reap(client) =>
      Live(w.(table := Disconnected(w.table, {client})), p.(failed := p.failed - {client}))
    case Finish => v.(phase := Asleep)
  }

  predicate CanRun(v: Live, steps: seq<Step>, digest: Payload -> Digest)
    decreases |steps|
  {
    steps == [] || (Can(v, steps[0]) && CanRun(Do(v, steps[0], digest), steps[1..], digest))
  }

  function RunOf(v: Live, steps: seq<Step>, digest: Payload -> Digest): Live
    requires CanRun(v, steps, digest)
    decreases |steps|
  {
    if steps == [] then v else RunOf(Do(v, steps[0], digest), steps[1..], digest)
  }

  const AT_START: Live := Live(START, Asleep)

  // -- what is remembered is true, or on its way ---------------------------------------------------

  predicate InFlight(v: Live, topic: string, client: string) {
    v.phase.Serving? && v.phase.topic == topic && (client in v.phase.waiting || client in v.phase.failed)
  }

  predicate RememberedOrInFlight(v: Live, topic: string, client: string, digest: Payload -> Digest) {
    var w := v.world;
    topic in w.last && client in w.last[topic].0 ==>
      && client in w.used
      && (client in w.table.active && !InFlight(v, topic, client) ==>
          (client, topic) in w.seen && digest(w.seen[(client, topic)]) == w.last[topic].1)
  }

  /** What is in flight is what was remembered. */
  predicate PhaseFits(v: Live, digest: Payload -> Digest) {
    match v.phase
    case Asleep => true
    case Building(topics) => NoRepeats(topics)
    case Serving(rest, built, topic, waiting, failed) =>
      && NoRepeats(rest)
      && (waiting + failed != {} ==>
          && topic in built && topic in v.world.last && v.world.last[topic].1 == digest(built[topic])
          && waiting + failed <= v.world.last[topic].0)
  }

  ghost predicate Holds(v: Live, digest: Payload -> Digest) {
    && Known(v.world) && PhaseFits(v, digest)
    && forall topic, client :: RememberedOrInFlight(v, topic, client, digest)
  }

  lemma OthersKeepHolds(v: Live, event: Event, digest: Payload -> Digest)
    requires Holds(v, digest) && Can(v, ByOthers(event))
    ensures Holds(Do(v, ByOthers(event), digest), digest)
  {
    var u := Do(v, ByOthers(event), digest);
    RetabledKeepsKnown(v.world, event, digest);
    assert u.world.seen == v.world.seen && u.world.last == v.world.last && v.world.used <= u.world.used;
    assert u.phase == v.phase;
    assert forall c :: c in u.world.table.active ==> c in v.world.table.active || c !in v.world.used;
    hide Broadcaster.Step, Known, Do;
    forall topic, client ensures RememberedOrInFlight(u, topic, client, digest) {
      assert RememberedOrInFlight(v, topic, client, digest);
    }
  }

  lemma NoteKeepsHolds(v: Live, digest: Payload -> Digest)
    requires Holds(v, digest) && Can(v, Note)
    ensures Holds(Do(v, Note, digest), digest)
  {
    var u := Do(v, Note, digest);
    assert Subscribers(v.world.table, v.phase.rest[0]) <= v.world.used;
    forall topic, client ensures RememberedOrInFlight(u, topic, client, digest) {
      assert RememberedOrInFlight(v, topic, client, digest);
    }
  }

  lemma SentKeepsHolds(v: Live, client: string, digest: Payload -> Digest)
    requires Holds(v, digest) && Can(v, Sent(client))
    ensures Holds(Do(v, Sent(client), digest), digest)
  {
    var u := Do(v, Sent(client), digest);
    forall topic, c ensures RememberedOrInFlight(u, topic, c, digest) {
      assert RememberedOrInFlight(v, topic, c, digest);
    }
  }

  lemma ReapKeepsHolds(v: Live, client: string, digest: Payload -> Digest)
    requires Holds(v, digest) && Can(v, Reap(client))
    ensures Holds(Do(v, Reap(client), digest), digest)
  {
    var u := Do(v, Reap(client), digest);
    forall other
      ensures Subscribers(Disconnected(v.world.table, {client}), other) == Subscribers(v.world.table, other) - {client}
      ensures NoEmptyTopic(Disconnected(v.world.table, {client}))
    {
      DisconnectedMeans(v.world.table, {client}, other);
    }
    assert u.world.table.active == v.world.table.active - {client};
    hide Disconnected;
    forall topic, c ensures RememberedOrInFlight(u, topic, c, digest) {
      assert RememberedOrInFlight(v, topic, c, digest);
    }
  }

  lemma RestKeepsHolds(v: Live, e: Step, digest: Payload -> Digest)
    requires Holds(v, digest) && Can(v, e) && (e.Wake? || e.Build? || e.SendFails? || e.Finish?)
    ensures Holds(Do(v, e, digest), digest)
  {
    var u := Do(v, e, digest);
    assert u.world.table == v.world.table && u.world.seen == v.world.seen && u.world.used == v.world.used;
    forall topic, c ensures RememberedOrInFlight(u, topic, c, digest) {
      assert RememberedOrInFlight(v, topic, c, digest);
    }
  }

  lemma DoKeepsHolds(v: Live, e: Step, digest: Payload -> Digest)
    requires Holds(v, digest) && Can(v, e)
    ensures Holds(Do(v, e, digest), digest)
  {
    match e
    case ByOthers(event) => OthersKeepHolds(v, event, digest);
    case Note => NoteKeepsHolds(v, digest);
    case Sent(client) => SentKeepsHolds(v, client, digest);
    case Reap(client) => ReapKeepsHolds(v, client, digest);
    case _ => RestKeepsHolds(v, e, digest);
  }

  lemma {:induction false} RunKeepsHolds(v: Live, steps: seq<Step>, digest: Payload -> Digest)
    requires Holds(v, digest) && CanRun(v, steps, digest)
    ensures Holds(RunOf(v, steps, digest), digest)
    decreases |steps|
  {
    if steps != [] {
      DoKeepsHolds(v, steps[0], digest);
      hide Holds, Do, Can;
      RunKeepsHolds(Do(v, steps[0], digest), steps[1..], digest);
    }
  }

  // -- every snapshot is served ------------------------------------------------------------------

  predicate WithinTick(steps: seq<Step>) {
    forall e :: e in steps ==> !e.Wake?
  }

  /** The topic is behind: noted, and not to be noted again in this tick. */
  predicate Behind(v: Live, topic: string) {
    !v.phase.Building? && (v.phase.Serving? ==> topic !in v.phase.rest)
  }

  lemma {:induction false} MemoryStands(v: Live, steps: seq<Step>, digest: Payload -> Digest, topic: string)
    requires CanRun(v, steps, digest) && WithinTick(steps) && Behind(v, topic) && topic in v.world.last
    ensures var u := RunOf(v, steps, digest);
      Behind(u, topic) && topic in u.world.last && u.world.last[topic] == v.world.last[topic]
    decreases |steps|
  {
    if steps != [] {
      assert !steps[0].Wake?;
      var u := Do(v, steps[0], digest);
      assert Behind(u, topic) && topic in u.world.last && u.world.last[topic] == v.world.last[topic];
      hide Do, Can, Behind;
      MemoryStands(u, steps[1..], digest, topic);
    }
  }

  /** When a topic is noted its subscribers are `clients`. From then to the end of the tick,
      whatever else happens and whichever sends fail: each of them that is still connected has
      been sent exactly the payload built, or its send or its disconnection is under way. */
  lemma SnapshotIsServed(v: Live, steps: seq<Step>, digest: Payload -> Digest, topic: string, client: string)
    requires Holds(v, digest) && Injective(digest)
    requires Can(v, Note) && v.phase.rest[0] == topic && topic in v.phase.built
    requires CanRun(Do(v, Note, digest), steps, digest) && WithinTick(steps)
    requires client in Subscribers(v.world.table, topic)
    ensures var u := RunOf(Do(v, Note, digest), steps, digest);
      client in u.world.table.active && !InFlight(u, topic, client) ==>
        HasSeen(u.world, client, topic, v.phase.built[topic])
  {
    var n := Do(v, Note, digest);
    assert n.world.last[topic] == (Subscribers(v.world.table, topic), digest(v.phase.built[topic]));
    assert Behind(n, topic);
    DoKeepsHolds(v, Note, digest);
    RunKeepsHolds(n, steps, digest);
    MemoryStands(n, steps, digest, topic);
    var u := RunOf(n, steps, digest);
    assert RememberedOrInFlight(u, topic, client, digest);
  }

  lemma StartHolds(digest: Payload -> Digest)
    ensures Holds(AT_START, digest)
  {
  }

  /** The same from the start of the process, and at rest: once the topic's sends are settled
      and the dead sockets gone, exactly its payload. */
  lemma EverySnapshotIsServed(
    before: seq<Step>, steps: seq<Step>, digest: Payload -> Digest, topic: string, client: string)
    requires Injective(digest) && CanRun(AT_START, before, digest)
    requires var v := RunOf(AT_START, before, digest);
      && Can(v, Note) && v.phase.rest[0] == topic && topic in v.phase.built
      && CanRun(Do(v, Note, digest), steps, digest) && WithinTick(steps)
      && client in Subscribers(v.world.table, topic)
    ensures var v := RunOf(AT_START, before, digest);
      var u := RunOf(Do(v, Note, digest), steps, digest);
      Settled(u.phase) && client in u.world.table.active ==> HasSeen(u.world, client, topic, v.phase.built[topic])
  {
    StartHolds(digest);
    RunKeepsHolds(AT_START, before, digest);
    SnapshotIsServed(RunOf(AT_START, before, digest), steps, digest, topic, client);
  }

  // -- the broadcaster that always sends -----------------------------------------------------------

  /** The same machine without the memory: every topic that was built and has subscribers is
      sent. */
  function PlainNote(v: Live): Live
    requires v.phase.Serving? && v.phase.rest != []
  {
    var topic, rest, built := v.phase.rest[0], v.phase.rest[1..], v.phase.built;
    var clients := if topic in built then Subscribers(v.world.table, topic) * v.world.table.active else {};
    v.(phase := Serving(rest, built, topic, clients, {}))
  }

  function PlainDo(v: Live, e: Step, digest: Payload -> Digest): Live
    requires Can(v, e)
  {
    if e.Note? then PlainNote(v) else Do(v, e, digest)
  }

  predicate PlainCanRun(v: Live, steps: seq<Step>, digest: Payload -> Digest)
    decreases |steps|
  {
    steps == [] || (Can(v, steps[0]) && PlainCanRun(PlainDo(v, steps[0], digest), steps[1..], digest))
  }

  function PlainRunOf(v: Live, steps: seq<Step>, digest: Payload -> Digest): Live
    requires PlainCanRun(v, steps, digest)
    decreases |steps|
  {
    if steps == [] then v else PlainRunOf(PlainDo(v, steps[0], digest), steps[1..], digest)
  }

  /** Clients see the same, and both broadcasters are at the same place. */
  predicate Alike(v: Live, w: Live) {
    SameToClients(v.world, w.world) && v.phase == w.phase
  }

  lemma PlainThen(v: Live, e: Step, rest: seq<Step>, digest: Payload -> Digest)
    requires Can(v, e) && PlainCanRun(PlainDo(v, e, digest), rest, digest)
    ensures PlainCanRun(v, [e] + rest, digest)
    ensures PlainRunOf(v, [e] + rest, digest) == PlainRunOf(PlainDo(v, e, digest), rest, digest)
  {
    assert ([e] + rest)[1..] == rest;
  }

  lemma {:induction false} PlainTogether(v: Live, a: seq<Step>, b: seq<Step>, digest: Payload -> Digest)
    requires PlainCanRun(v, a, digest) && PlainCanRun(PlainRunOf(v, a, digest), b, digest)
    ensures PlainCanRun(v, a + b, digest)
    ensures PlainRunOf(v, a + b, digest) == PlainRunOf(PlainRunOf(v, a, digest), b, digest)
    decreases |a|
  {
    if a != [] {
      assert (a + b)[0] == a[0] && (a + b)[1..] == a[1..] + b;
      hide PlainDo, Can;
      PlainTogether(PlainDo(v, a[0], digest), a[1..], b, digest);
    } else {
      assert a + b == b;
    }
  }

  /** Sending once more what everybody waiting has already shows them nothing new. */
  lemma {:induction false} SendingAgain(v: Live, digest: Payload -> Digest) returns (steps: seq<Step>)
    requires v.phase.Serving? && v.phase.failed == {} && (v.phase.waiting != {} ==> v.phase.topic in v.phase.built)
    requires forall c :: c in v.phase.waiting ==> HasSeen(v.world, c, v.phase.topic, v.phase.built[v.phase.topic])
    ensures PlainCanRun(v, steps, digest)
    ensures PlainRunOf(v, steps, digest) == v.(phase := v.phase.(waiting := {}))
    decreases v.phase.waiting
  {
    if v.phase.waiting == {} {
      steps := [];
    } else {
      var c :| c in v.phase.waiting;
      var u := PlainDo(v, Sent(c), digest);
      assert HasSeen(v.world, c, v.phase.topic, v.phase.built[v.phase.topic]);
      assert Delivered(v.world.seen, {c}, v.phase.topic, v.phase.built[v.phase.topic]) == v.world.seen;
      assert u.world == v.world;
      var rest := SendingAgain(u, digest);
      PlainThen(v, Sent(c), rest, digest);
      steps := [Sent(c)] + rest;
    }
  }

  /** One step of the broadcaster, matched by a few of the one that always sends. */
  lemma StepIsMatched(v: Live, w: Live, e: Step, digest: Payload -> Digest) returns (steps: seq<Step>)
    requires Alike(v, w) && Holds(w, digest) && Injective(digest) && Can(w, e)
    ensures PlainCanRun(v, steps, digest) && Alike(PlainRunOf(v, steps, digest), Do(w, e, digest))
  {
    if e.Note? {
      steps := NoteIsMatched(v, w, digest);
    } else {
      assert Can(v, e) && Alike(PlainDo(v, e, digest), Do(w, e, digest));
      steps := [e];
      assert steps[1..] == [];
    }
  }

  lemma NoteIsMatched(v: Live, w: Live, digest: Payload -> Digest) returns (steps: seq<Step>)
    requires Alike(v, w) && Holds(w, digest) && Injective(digest) && Can(w, Note)
    ensures PlainCanRun(v, steps, digest) && Alike(PlainRunOf(v, steps, digest), Do(w, Note, digest))
  {
    var topic, built := w.phase.rest[0], w.phase.built;
    var n := PlainNote(v);
    if Due(w.world, topic, built, digest) {
      steps := [Note];
      assert steps[1..] == [];
    } else {
      forall c | c in n.phase.waiting ensures HasSeen(n.world, c, topic, built[topic]) {
        assert RememberedOrInFlight(w, topic, c, digest);
      }
      var rest := SendingAgain(n, digest);
      PlainThen(v, Note, rest, digest);
      steps := [Note] + rest;
    }
  }

  /** Every run of the broadcaster, in any interleaving and with any sends failing, is one of
      the broadcaster that always sends, as far as clients can tell. */
  lemma {:induction false} RefinesSendingAlways(v: Live, w: Live, steps: seq<Step>, digest: Payload -> Digest)
    returns (plain: seq<Step>)
    requires Alike(v, w) && Holds(w, digest) && Injective(digest) && CanRun(w, steps, digest)
    ensures PlainCanRun(v, plain, digest) && Alike(PlainRunOf(v, plain, digest), RunOf(w, steps, digest))
    decreases |steps|
  {
    if steps == [] {
      plain := [];
    } else {
      DoKeepsHolds(w, steps[0], digest);
      hide Holds, Injective, Alike, Do, PlainDo, Can;
      var first := StepIsMatched(v, w, steps[0], digest);
      var rest := RefinesSendingAlways(PlainRunOf(v, first, digest), Do(w, steps[0], digest), steps[1..], digest);
      PlainTogether(v, first, rest, digest);
      plain := first + rest;
    }
  }

  // -- the undisturbed tick -------------------------------------------------------------------------

  lemma Then(v: Live, e: Step, rest: seq<Step>, digest: Payload -> Digest)
    requires Can(v, e) && CanRun(Do(v, e, digest), rest, digest)
    ensures CanRun(v, [e] + rest, digest)
    ensures RunOf(v, [e] + rest, digest) == RunOf(Do(v, e, digest), rest, digest)
  {
    assert ([e] + rest)[1..] == rest;
  }

  lemma {:induction false} Together(v: Live, a: seq<Step>, b: seq<Step>, digest: Payload -> Digest)
    requires CanRun(v, a, digest) && CanRun(RunOf(v, a, digest), b, digest)
    ensures CanRun(v, a + b, digest)
    ensures RunOf(v, a + b, digest) == RunOf(RunOf(v, a, digest), b, digest)
    decreases |a|
  {
    if a != [] {
      assert (a + b)[0] == a[0] && (a + b)[1..] == a[1..] + b;
      hide Do, Can;
      Together(Do(v, a[0], digest), a[1..], b, digest);
    } else {
      assert a + b == b;
    }
  }

  /** Settling the sends of a topic: those in `failing` fail, the others succeed. */
  lemma {:induction false} SettleSends(v: Live, failing: set<string>, digest: Payload -> Digest)
    returns (steps: seq<Step>)
    requires v.phase.Serving? && (v.phase.waiting != {} ==> v.phase.topic in v.phase.built)
    ensures CanRun(v, steps, digest)
    ensures var p := v.phase;
      RunOf(v, steps, digest) == Live(
        if p.waiting == {} then v.world
        else v.world.(seen := Delivered(v.world.seen, p.waiting - failing, p.topic, p.built[p.topic])),
        p.(waiting := {}, failed := p.failed + p.waiting * failing))
    decreases v.phase.waiting
  {
    if v.phase.waiting == {} {
      steps := [];
      assert v.phase.failed + {} * failing == v.phase.failed;
    } else {
      var c :| c in v.phase.waiting;
      var e := if c in failing then SendFails(c) else Sent(c);
      var u := Do(v, e, digest);
      var rest := SettleSends(u, failing, digest);
      Then(v, e, rest, digest);
      steps := [e] + rest;
      SettledOne(v, u, c, failing);
    }
  }

  lemma SettledOne(v: Live, u: Live, c: string, failing: set<string>)
    requires v.phase.Serving? && c in v.phase.waiting && v.phase.topic in v.phase.built
    requires var p := v.phase;
      u == if c in failing then v.(phase := p.(waiting := p.waiting - {c}, failed := p.failed + {c}))
           else Live(v.world.(seen := Delivered(v.world.seen, {c}, p.topic, p.built[p.topic])),
                     p.(waiting := p.waiting - {c}))
    ensures var p := v.phase;
      && Delivered(u.world.seen, u.phase.waiting - failing, p.topic, p.built[p.topic])
         == Delivered(v.world.seen, p.waiting - failing, p.topic, p.built[p.topic])
      && u.phase.failed + u.phase.waiting * failing == p.failed + p.waiting * failing
  {
    var p := v.phase;
    if c in failing {
      assert p.waiting - {c} - failing == p.waiting - failing;
    } else {
      assert p.waiting - failing == {c} + (p.waiting - {c} - failing);
    }
  }

  lemma {:induction false} ReapAll(v: Live, digest: Payload -> Digest) returns (steps: seq<Step>)
    requires v.phase.Serving? && v.phase.waiting == {} && NoEmptyTopic(v.world.table)
    ensures CanRun(v, steps, digest)
    ensures RunOf(v, steps, digest)
         == Live(v.world.(table := Disconnected(v.world.table, v.phase.failed)), v.phase.(failed := {}))
    decreases v.phase.failed
  {
    if v.phase.failed == {} {
      steps := [];
      DisconnectedNobody(v.world.table);
    } else {
      var c :| c in v.phase.failed;
      var u := Do(v, Reap(c), digest);
      DisconnectedMeans(v.world.table, {c}, "");
      DisconnectedTwice(v.world.table, {c}, v.phase.failed - {c});
      assert {c} + (v.phase.failed - {c}) == v.phase.failed;
      var rest := ReapAll(u, digest);
      Then(v, Reap(c), rest, digest);
      steps := [Reap(c)] + rest;
    }
  }

  /** The loop body of the broadcaster's method is one way to go through these steps: with
      nothing in between. */
  lemma LoopBodyIsARun(v: Live, failing: set<string>, digest: Payload -> Digest) returns (steps: seq<Step>)
    requires Can(v, Note) && NoEmptyTopic(v.world.table)
    ensures CanRun(v, steps, digest)
    ensures RunOf(v, steps, digest)
         == Live(TickTopic(v.world, v.phase.rest[0], v.phase.built, failing, digest),
                 Serving(v.phase.rest[1..], v.phase.built, v.phase.rest[0], {}, {}))
  {
    var n := Do(v, Note, digest);
    var sends := SettleSends(n, failing, digest);
    var m := RunOf(n, sends, digest);
    var reaps := ReapAll(m, digest);
    Together(n, sends, reaps, digest);
    Then(v, Note, sends + reaps, digest);
    steps := [Note] + (sends + reaps);
    LoopBodyEnds(v, n, m, failing, digest);
  }

  lemma LoopBodyEnds(v: Live, n: Live, m: Live, failing: set<string>, digest: Payload -> Digest)
    requires Can(v, Note) && NoEmptyTopic(v.world.table) && n == AfterNote(v, digest)
    requires var p := n.phase;
      m == Live(
        if p.waiting == {} then n.world
        else n.world.(seen := Delivered(n.world.seen, p.waiting - failing, p.topic, p.built[p.topic])),
        p.(waiting := {}, failed := p.failed + p.waiting * failing))
    ensures m.world.(table := Disconnected(m.world.table, m.phase.failed))
         == TickTopic(v.world, v.phase.rest[0], v.phase.built, failing, digest)
  {
    DisconnectedNobody(v.world.table);
    var topic, built := v.phase.rest[0], v.phase.built;
    if Due(v.world, topic, built, digest) {
      var clients := Subscribers(v.world.table, topic) * v.world.table.active;
      var noted := v.world.(last := v.world.last[topic := (Subscribers(v.world.table, topic), digest(built[topic]))]);
      assert n.world == noted && m.phase.failed == {} + clients * failing == clients * failing;
      assert TickTopic(v.world, topic, built, failing, digest) == Send(noted, topic, built[topic], failing);
      if clients == {} {
        assert clients - failing == {} && clients * failing == {};
        assert Delivered(noted.seen, {}, topic, built[topic]) == noted.seen;
      }
    } else {
      assert {} * failing == {} && m.phase.failed == {};
    }
  }
}
