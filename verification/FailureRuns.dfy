/** Runs of failures: calls of an address one after the other, where only the edges of the
    windows can separate the two counts; two runs that do separate them; and the manager's own
    method as a run. */
module FailureRuns {
  import opened Wrappers
  import opened Counting
  import opened FailureWindows
  import opened FailureSteps

  // -- one call of an address after the other ----------------------------------------------------

  /** A call of the address begins only when the last has ended, the table answers, and nobody
      else has a hand in the address. */
  predicate Alone(w: World, e: Event, ip: string) {
    && NoHand(e, ip)
    && (e.Look? && e.ip == ip ==> forall id :: id in w.calls && w.calls[id].ip == ip ==> w.calls[id].stage == Over)
    && (e.NoAnswer? ==> e.id in w.calls && w.calls[e.id].ip != ip)
    && (e.Elsewhere? ==> e.ip != ip)
  }

  predicate AloneRun(w: World, events: seq<Event>, from: real, ip: string)
    requires CanRun(w, events, from)
    decreases |events|
  {
    events == [] ||
    (Alone(w, events[0], ip) && AloneRun(Step(w, events[0]), events[1..], events[0].now, ip))
  }

  predicate Undecided(c: Call) {
    c.stage == Looked || c.stage == Written || c.stage.Tallied?
  }

  /** A call alone: it has written its row unless it has just looked, memory has seen it once it
      is past the locked section, and its own readings are in order. */
  predicate Orderly(c: Call) {
    && (c.stage == Looked <==> c.row.None?)
    && (Undecided(c) <==> c.mark.Unseen?)
    && (c.stage == Blocking || c.stage == Extending ==> c.mark.Dropped?)
    && (c.row.Some? ==> c.looked <= c.row.value)
    && (c.stage.Tallied? ==> c.row.Some? && c.row.value <= c.since && c.key < c.upTo)
  }

  /** Two calls of one address: one has ended, and is behind the other. */
  predicate Behind(f: Call, c: Call) {
    && (f.stage == Over || c.stage == Over)
    && (Undecided(c) ==> (f.mark.Dropped? ==> f.row.Some? && f.row.value + WINDOW < c.looked))
    && (c.stage.Tallied? ==> WrittenBefore(c, f))
    && (c.stage == Blocking || c.stage == Extending ==> !f.mark.Held?)
  }

  /** A failure forgotten by a block leaves the window before the block ends. */
  predicate GoneInTime(s: State, c: Call, now: real) {
    c.mark.Dropped? ==> c.row.Some? && c.row.value + WINDOW < (if c.ip in s.blocked then s.blocked[c.ip] else now)
  }

  predicate ShutOut(s: State, c: Call) {
    c.ip in s.blocked ==> !c.mark.Held? && !Undecided(c)
  }

  ghost predicate Tidy(w: World, ip: string, now: real) {
    && (forall id :: id in w.calls && w.calls[id].ip == ip ==>
          Orderly(w.calls[id]) && GoneInTime(w.s, w.calls[id], now) && ShutOut(w.s, w.calls[id]))
    && (forall f, id :: f in w.calls && id in w.calls && f != id && w.calls[f].ip == ip && w.calls[id].ip == ip ==>
          Behind(w.calls[f], w.calls[id]))
  }

  predicate Concerns(w: World, e: Event, ip: string)
    requires Ready(w, e)
  {
    match e
    case Look(_, i, _, _, _) => i == ip
    case Write(id, _, _) => w.calls[id].ip == ip
    case Tally(id, _, _) => w.calls[id].ip == ip
    case Mirror(id, _) => w.calls[id].ip == ip
    case CountDay(id, _, _, _) => w.calls[id].ip == ip
    case Extend(id, _, _) => w.calls[id].ip == ip
    case _ => false
  }

  lemma CallsOfOthers(w: World, e: Event, ip: string, id: nat)
    requires Ready(w, e) && Alone(w, e, ip) && !Concerns(w, e, ip)
    requires id in Step(w, e).calls && Step(w, e).calls[id].ip == ip
    ensures id in w.calls && Step(w, e).calls[id] == w.calls[id]
  {
    hide Fills, Mirrored, Repeats, DbCount, Swept, StillBlocked;
  }

  lemma BlocksOfOthers(w: World, e: Event, ip: string)
    requires Ready(w, e) && Alone(w, e, ip) && !Concerns(w, e, ip)
    ensures BlockRunsOut(w.s.blocked, Step(w, e).s.blocked, ip, e.now)
  {
    if e.Mirror? {
      MirrorMoves(w, e);
      hide Step, Fills;
    } else {
      hide Fills, Repeats, DbCount, Mirrored, DropAll;
    }
  }

  predicate BlockRunsOut(a: map<string, real>, b: map<string, real>, ip: string, now: real) {
    if ip in b then ip in a && b[ip] == a[ip] else ip in a ==> a[ip] <= now
  }

  lemma OneOfOthers(s: State, t: State, c: Call, from: real, now: real)
    requires BlockRunsOut(s.blocked, t.blocked, c.ip, now) && from <= now
    requires GoneInTime(s, c, from) && ShutOut(s, c)
    ensures GoneInTime(t, c, now) && ShutOut(t, c)
  {
  }

  lemma OthersKeepTidy(w: World, e: Event, ip: string, from: real)
    requires Tidy(w, ip, from) && Ready(w, e) && Alone(w, e, ip) && !Concerns(w, e, ip) && from <= e.now
    ensures Tidy(Step(w, e), ip, e.now)
  {
    var u := Step(w, e);
    BlocksOfOthers(w, e, ip);
    forall id | id in u.calls && u.calls[id].ip == ip ensures id in w.calls && u.calls[id] == w.calls[id] {
      CallsOfOthers(w, e, ip, id);
    }
    hide Step, Ready, Concerns, Alone, Behind, Orderly, GoneInTime, ShutOut, BlockRunsOut;
    forall id | id in u.calls && u.calls[id].ip == ip
      ensures GoneInTime(u.s, u.calls[id], e.now) && ShutOut(u.s, u.calls[id])
    {
      OneOfOthers(w.s, u.s, w.calls[id], from, e.now);
    }
  }

  lemma LookKeepsTidy(w: World, e: Event, ip: string, from: real)
    requires Tidy(w, ip, from) && Ready(w, e) && e.Look? && e.ip == ip && Alone(w, e, ip) && from <= e.now
    ensures Tidy(Step(w, e), ip, e.now)
  {
  }

  lemma WriteKeepsTidy(w: World, e: Event, ip: string, from: real)
    requires Tidy(w, ip, from) && Ready(w, e) && e.Write? && w.calls[e.id].ip == ip && from <= e.now
    ensures Tidy(Step(w, e), ip, e.now)
  {
  }

  lemma TallyKeepsTidy(w: World, e: Event, ip: string, from: real)
    requires Tidy(w, ip, from) && Ready(w, e) && e.Tally? && w.calls[e.id].ip == ip && from <= e.now
    requires Ledger(w, from)
    ensures Tidy(Step(w, e), ip, e.now)
  {
    forall id | id in w.calls ensures w.calls[id].row.Some? ==> w.calls[id].key < w.written {
      assert CallFits(w, w.calls[id], from);
    }
    hide Ledger, DbCount;
  }

  lemma MirrorKeepsTidy(w: World, e: Event, ip: string, from: real)
    requires Tidy(w, ip, from) && Ready(w, e) && e.Mirror? && w.calls[e.id].ip == ip && from <= e.now
    requires Ledger(w, from)
    ensures Tidy(Step(w, e), ip, e.now)
  {
    forall id | id in w.calls ensures w.calls[id].row.Some? ==> w.calls[id].row.value <= from {
      assert CallFits(w, w.calls[id], from);
    }
    MirrorMoves(w, e);
    hide Ledger, Step;
    var c := w.calls[e.id];
    assert Orderly(c) && ShutOut(w.s, c) && c.stage.Tallied?;
    if Forgets(w, e, ip) {
      FilledKeepsTidy(w, Step(w, e), e.id, from, e.now);
    } else {
      HeldKeepsTidy(w, Step(w, e), e.id, from, e.now);
    }
  }

  lemma FilledKeepsTidy(w: World, u: World, m: nat, from: real, now: real)
    requires m in w.calls && Tidy(w, w.calls[m].ip, from) && w.calls[m].stage.Tallied? && from <= now
    requires forall id :: id in w.calls && w.calls[id].row.Some? ==> w.calls[id].row.value <= from
    requires var c := w.calls[m];
      && u.s.blocked == w.s.blocked[c.ip := now + BLOCK] && u.calls.Keys == w.calls.Keys
      && u.calls[m] == c.(stage := Blocking, mark := Dropped(now))
      && forall id :: id in w.calls && id != m ==> u.calls[id] == Drop(w.calls[id], c.ip)
    ensures Tidy(u, w.calls[m].ip, now)
  {
    var ip := w.calls[m].ip;
    forall id | id in u.calls && u.calls[id].ip == ip
      ensures Orderly(u.calls[id]) && GoneInTime(u.s, u.calls[id], now) && ShutOut(u.s, u.calls[id])
    {
      assert Orderly(w.calls[id]);
      assert id != m ==> Behind(w.calls[id], w.calls[m]);
    }
    forall f, id | f in u.calls && id in u.calls && f != id && u.calls[f].ip == ip && u.calls[id].ip == ip
      ensures Behind(u.calls[f], u.calls[id])
    {
      assert Behind(w.calls[f], w.calls[id]);
      assert id != m ==> Behind(w.calls[m], w.calls[id]);
    }
  }

  lemma HeldKeepsTidy(w: World, u: World, m: nat, from: real, now: real)
    requires m in w.calls && Tidy(w, w.calls[m].ip, from) && w.calls[m].stage.Tallied? && from <= now
    requires u.s.blocked == w.s.blocked
    requires u.calls == w.calls[m := w.calls[m].(stage := Over, mark := Held(now))]
    ensures Tidy(u, w.calls[m].ip, now)
  {
    var ip := w.calls[m].ip;
    forall id | id in u.calls && u.calls[id].ip == ip
      ensures Orderly(u.calls[id]) && GoneInTime(u.s, u.calls[id], now) && ShutOut(u.s, u.calls[id])
    {
      assert Orderly(w.calls[id]) && GoneInTime(w.s, w.calls[id], from) && ShutOut(w.s, w.calls[id]);
    }
    forall f, id | f in u.calls && id in u.calls && f != id && u.calls[f].ip == ip && u.calls[id].ip == ip
      ensures Behind(u.calls[f], u.calls[id])
    {
      assert Behind(w.calls[f], w.calls[id]);
      assert id != m ==> Behind(w.calls[m], w.calls[id]);
    }
  }

  lemma CountDayKeepsTidy(w: World, e: Event, ip: string, from: real)
    requires Tidy(w, ip, from) && Ready(w, e) && e.CountDay? && w.calls[e.id].ip == ip && from <= e.now
    ensures Tidy(Step(w, e), ip, e.now)
  {
    hide Repeats;
  }

  lemma ExtendKeepsTidy(w: World, e: Event, ip: string, from: real)
    requires Tidy(w, ip, from) && Ready(w, e) && e.Extend? && w.calls[e.id].ip == ip
    requires from <= e.now && Ledger(w, from)
    ensures Tidy(Step(w, e), ip, e.now)
  {
    var u := Step(w, e);
    forall id | id in w.calls && w.calls[id].ip == ip
      ensures GoneInTime(u.s, w.calls[id], e.now) && ShutOut(u.s, w.calls[id])
    {
      assert CallFits(w, w.calls[id], from) && Orderly(w.calls[id]) && GoneInTime(w.s, w.calls[id], from);
      assert id != e.id ==> Behind(w.calls[id], w.calls[e.id]);
    }
    hide Ledger;
    assert forall id :: id in u.calls && id != e.id ==> u.calls[id] == w.calls[id];
    assert u.calls[e.id] == w.calls[e.id].(stage := Over);
  }

  lemma StepKeepsTidy(w: World, e: Event, ip: string, from: real)
    requires Tidy(w, ip, from) && Ready(w, e) && Alone(w, e, ip) && from <= e.now && Ledger(w, from)
    ensures Tidy(Step(w, e), ip, e.now)
  {
    if !Concerns(w, e, ip) {
      OthersKeepTidy(w, e, ip, from);
    } else if e.Look? {
      LookKeepsTidy(w, e, ip, from);
    } else if e.Write? {
      WriteKeepsTidy(w, e, ip, from);
    } else if e.Tally? {
      TallyKeepsTidy(w, e, ip, from);
    } else if e.Mirror? {
      MirrorKeepsTidy(w, e, ip, from);
    } else if e.CountDay? {
      CountDayKeepsTidy(w, e, ip, from);
    } else {
      ExtendKeepsTidy(w, e, ip, from);
    }
  }

  lemma {:induction false} RunKeepsTidy(w: World, events: seq<Event>, from: real, ip: string)
    requires Tidy(w, ip, from) && Ledger(w, from) && CanRun(w, events, from) && AloneRun(w, events, from, ip)
    ensures Tidy(Run(w, events, from), ip, EndTime(events, from))
    decreases |events|
  {
    if events != [] {
      StepKeepsTidy(w, events[0], ip, from);
      StepKeepsLedger(w, events[0], from);
      hide Tidy, Ledger, Step, Ready, Alone;
      RunKeepsTidy(Step(w, events[0]), events[1..], events[0].now, ip);
    }
  }

  lemma StartIsTidy(ip: string, now: real)
    ensures Tidy(START, ip, now)
  {
  }

  /** The other failure has both stamps on the same side of the two edges, or memory no longer
      has it. */
  predicate OnOneSide(c: Call, f: Call, now: real) {
    f.mark.Held? ==> (RowWithin(f, c.since) <==> HeldWithin(f, now))
  }

  /** While the calls of an address come one after the other, whatever else goes on, the two
      counts of a call have the same failures exactly if its row is still in the window it
      counts, and no other failure has its two stamps on different sides of the edges. */
  lemma OnlyEdgesSeparate(events: seq<Event>, from: real, id: nat, now: real)
    requires CanRun(START, events, from) && EndTime(events, from) <= now
    requires Ready(Run(START, events, from), Mirror(id, now))
    requires AloneRun(START, events, from, Run(START, events, from).calls[id].ip)
    ensures var w := Run(START, events, from);
      var c := w.calls[id];
      CountedBy(w.calls, c) == Remembered(w, id, now) <==>
        && RowWithin(c, c.since)
        && forall f :: f in w.calls && f != id && Of(w.calls[f], c.ip, c.kind) ==> OnOneSide(c, w.calls[f], now)
  {
    var w := Run(START, events, from);
    var c := w.calls[id];
    StartIsTidy(c.ip, from);
    StartHasLedger(from);
    RunKeepsTidy(START, events, from, c.ip);
    RunKeepsLedger(START, events, from);
    assert CallFits(w, c, EndTime(events, from)) && Orderly(c);
    SameFailuresIff(w, id, now);
    forall f | f in w.calls && f != id && Of(w.calls[f], c.ip, c.kind)
      ensures SeenAlike(c, w.calls[f], now) <==> OnOneSide(c, w.calls[f], now)
    {
      assert Behind(w.calls[f], c) && Orderly(w.calls[f]);
    }
    hide Run, CanRun, AloneRun, SeenAlike, OnOneSide, Tidy, Ledger, CountedBy, Remembered, CallFits;
  }

  /** Then a block finds memory empty of the address until it ends, which is what
      `UnblockAgreesIff` asks for. */
  lemma BlockedIsForgotten(events: seq<Event>, from: real, ip: string, kind: AuthType)
    requires CanRun(START, events, from) && AloneRun(START, events, from, ip)
    requires ip in Run(START, events, from).s.blocked
    ensures Forgotten(Run(START, events, from).s, ip, kind, EndTime(events, from))
  {
    var w, now := Run(START, events, from), EndTime(events, from);
    StartIsTidy(ip, from);
    StartHasLedger(from);
    RunKeepsTidy(START, events, from, ip);
    RunKeepsLedger(START, events, from);
    assert MemoryTold(w, ip, kind, now);
    assert InMemory(w.calls, ip, kind, now) == {};
  }

  // -- two runs that separate the counts ----------------------------------------------------------------

  lemma {:induction false} RunAppend(w: World, a: seq<Event>, b: seq<Event>, from: real)
    requires CanRun(w, a, from) && CanRun(Run(w, a, from), b, EndTime(a, from))
    ensures CanRun(w, a + b, from) && EndTime(a + b, from) == EndTime(b, EndTime(a, from))
    ensures Run(w, a + b, from) == Run(Run(w, a, from), b, EndTime(a, from))
    decreases |a|
  {
    if a == [] {
      assert a + b == b;
    } else {
      assert (a + b)[1..] == a[1..] + b;
      hide Step, Ready;
      RunAppend(Step(w, a[0]), a[1..], b, a[0].now);
    }
  }

  lemma OneMoreEvent(w: World, a: seq<Event>, e: Event, from: real)
    requires CanRun(w, a, from) && EndTime(a, from) <= e.now && Ready(Run(w, a, from), e)
    ensures CanRun(w, a + [e], from) && EndTime(a + [e], from) == e.now
    ensures Run(w, a + [e], from) == Step(Run(w, a, from), e)
  {
    assert [e][1..] == [];
    hide Step, Ready;
    RunAppend(w, a, [e], from);
  }

  /** Calls 0 to n - 1 have looked, those below `k` have written their rows, all at time 0. */
  function Parallel(n: nat, k: nat, ip: string, kind: AuthType): World
    requires k <= n
  {
    World(START.s.(rows := seq(k, i => Row(ip, kind, None, 0.0))),
      map i: nat | i < n :: if i < k then Call(ip, kind, None, Written, 0.0, Some(0.0), i, 0, 0.0, Unseen)
                            else Call(ip, kind, None, Looked, 0.0, None, 0, 0, 0.0, Unseen), k)
  }

  function Looks(n: nat, ip: string, kind: AuthType): seq<Event> {
    if n == 0 then [] else Looks(n - 1, ip, kind) + [Look(n - 1, ip, kind, None, 0.0)]
  }

  function Writes(k: nat): seq<Event> {
    if k == 0 then [] else Writes(k - 1) + [Write(k - 1, 0.0, 0.0)]
  }

  lemma {:induction false} LooksRun(n: nat, ip: string, kind: AuthType)
    ensures CanRun(START, Looks(n, ip, kind), 0.0) && EndTime(Looks(n, ip, kind), 0.0) == 0.0
    ensures Run(START, Looks(n, ip, kind), 0.0) == Parallel(n, 0, ip, kind)
  {
    if n > 0 {
      LooksRun(n - 1, ip, kind);
      var w, e := Parallel(n - 1, 0, ip, kind), Look(n - 1, ip, kind, None, 0.0);
      OneMoreEvent(START, Looks(n - 1, ip, kind), e, 0.0);
      assert Step(w, e).calls == Parallel(n, 0, ip, kind).calls;
    } else {
      assert Parallel(0, 0, ip, kind).calls == map[];
      assert Parallel(0, 0, ip, kind).s.rows == [];
    }
  }

  lemma {:induction false} WritesRun(n: nat, k: nat, ip: string, kind: AuthType)
    requires k <= n
    ensures CanRun(Parallel(n, 0, ip, kind), Writes(k), 0.0) && EndTime(Writes(k), 0.0) == 0.0
    ensures Run(Parallel(n, 0, ip, kind), Writes(k), 0.0) == Parallel(n, k, ip, kind)
  {
    if k > 0 {
      WritesRun(n, k - 1, ip, kind);
      var w, e := Parallel(n, k - 1, ip, kind), Write(k - 1, 0.0, 0.0);
      OneMoreEvent(Parallel(n, 0, ip, kind), Writes(k - 1), e, 0.0);
      assert Step(w, e).calls == Parallel(n, k, ip, kind).calls;
      assert Step(w, e).s.rows == Parallel(n, k, ip, kind).s.rows;
    }
  }

  function ParallelCalls(n: nat, ip: string, kind: AuthType): seq<Event> {
    Looks(n, ip, kind) + Writes(n) + [Tally(0, 0.0, 0.0)]
  }

  /** Failures that overlap: when n calls have written their rows before the first of them gets
      to the locked section, the table counts n for it and memory one. With as many as the
      threshold the address is blocked on the table's count alone. */
  lemma OverlapSeparatesTheCounts(n: nat, ip: string, kind: AuthType)
    requires n >= 1
    ensures CanRun(START, ParallelCalls(n, ip, kind), 0.0)
    ensures var w := Run(START, ParallelCalls(n, ip, kind), 0.0);
      && Ready(w, Mirror(0, 0.0)) && w.calls[0].stage == Tallied(n)
      && |Mine(w.s, ip, kind, 0.0)| == 1
      && (Fills(w.s, ip, kind, n, 0.0) <==> n >= Threshold(kind))
  {
    var a, b, e := Looks(n, ip, kind), Writes(n), Tally(0, 0.0, 0.0);
    LooksRun(n, ip, kind);
    WritesRun(n, n, ip, kind);
    hide Run, CanRun, Looks, Writes;
    RunAppend(START, a, b, 0.0);
    var w := Parallel(n, n, ip, kind);
    assert Ready(w, e);
    OneMoreEvent(START, a + b, e, 0.0);
    StartHasLedger(0.0);
    RunKeepsLedger(START, a + b, 0.0);
    ParallelRows(n, ip, kind);
    hide DbCount, Ledger, Threshold;
    assert Local(Step(w, e).s, ip, kind) == [];
  }

  lemma ParallelRows(n: nat, ip: string, kind: AuthType)
    requires Ledger(Parallel(n, n, ip, kind), 0.0)
    ensures DbCount(Parallel(n, n, ip, kind).s.rows, ip, kind, 0.0) == n
  {
    var w := Parallel(n, n, ip, kind);
    assert TableTold(w, ip, kind, 0.0);
    RangeMeans(0, n);
    assert InTable(w.calls, ip, kind, 0.0) == Range(0, n);
  }

  lemma AloneOneMore(w: World, a: seq<Event>, e: Event, from: real, ip: string)
    requires CanRun(w, a, from) && AloneRun(w, a, from, ip)
    requires EndTime(a, from) <= e.now && Ready(Run(w, a, from), e) && Alone(Run(w, a, from), e, ip)
    ensures CanRun(w, a + [e], from) && AloneRun(w, a + [e], from, ip)
    decreases |a|
  {
    OneMoreEvent(w, a, e, from);
    if a == [] {
      assert a + [e] == [e] && [e][1..] == [];
    } else {
      assert (a + [e])[1..] == a[1..] + [e];
      AloneOneMore(Step(w, a[0]), a[1..], e, a[0].now, ip);
    }
  }

  /** Two calls one after the other at the far ends of a window, with delays of milliseconds
      between row, count and memory. */
  const EDGE: seq<Event> := [
    Look(0, "a", Login, None, 0.0), Write(0, 0.0, 0.0), Tally(0, 0.01, 0.01), Mirror(0, 0.025),
    Look(1, "a", Login, None, 59.9), Write(1, 59.99, 60.0), Tally(1, 60.01, 60.01)]

  /** The world after the first `k` of them. */
  function AtEdge(k: nat): World
    requires k <= |EDGE|
  {
    var first := Call("a", Login, None, Looked, 0.0, None, 0, 0, 0.0, Unseen);
    var written := first.(stage := Written, row := Some(0.0));
    var tallied := written.(stage := Tallied(1), upTo := 1, since := 0.01);
    var over := tallied.(stage := Over, mark := Held(0.025));
    var second := Call("a", Login, None, Looked, 59.9, None, 0, 0, 59.9, Unseen);
    var also := second.(stage := Written, row := Some(59.99), key := 1);
    var rows := [Row("a", Login, None, 0.0)];
    var s := START.s.(rows := rows, failed := map[("a", Login) := [0.025]]);
    match k
    case 0 => START
    case 1 => World(START.s, map[0 := first], 0)
    case 2 => World(START.s.(rows := rows), map[0 := written], 1)
    case 3 => World(START.s.(rows := rows), map[0 := tallied], 1)
    case 4 => World(s, map[0 := over], 1)
    case 5 => World(s, map[0 := over, 1 := second], 1)
    case 6 => World(s.(rows := rows + [Row("a", Login, None, 59.99)]), map[0 := over, 1 := also], 2)
    case _ =>
      World(s.(rows := rows + [Row("a", Login, None, 59.99)]),
        map[0 := over, 1 := also.(stage := Tallied(1), upTo := 2, since := 60.01)], 2)
  }

  lemma RowsAtEdge()
    ensures DbCount([Row("a", Login, None, 0.0)], "a", Login, 0.01) == 1
    ensures DbCount([Row("a", Login, None, 0.0), Row("a", Login, None, 59.99)], "a", Login, 60.01) == 1
    ensures Recent([0.025], 60.015, WINDOW) == [0.025]
  {
    var q, r := [Row("a", Login, None, 0.0)], Row("a", Login, None, 59.99);
    assert Times(q[..0], "a", Login) == [];
    assert Times(q, "a", Login) == [0.0];
    TimesAppend(q, r, "a", Login);
    RecentAppend([], 0.0, 0.01, WINDOW);
    RecentAppend([], 0.0, 60.01, WINDOW);
    RecentAppend([0.0], 59.99, 60.01, WINDOW);
    RecentAppend([], 0.025, 60.015, WINDOW);
    assert [] + [0.0] == [0.0] && [] + [0.025] == [0.025] && q + [r] == [q[0], r];
  }

  predicate Follows(k: nat)
    requires k < |EDGE|
  {
    Ready(AtEdge(k), EDGE[k]) && Step(AtEdge(k), EDGE[k]) == AtEdge(k + 1) && Alone(AtEdge(k), EDGE[k], "a")
  }

  lemma EdgeLooksAndWrites(k: nat)
    requires k == 0 || k == 1 || k == 4 || k == 5
    ensures Follows(k)
  {
    hide DbCount, Times, Recent;
    assert k == 1 ==> [] + [Row("a", Login, None, 0.0)] == [Row("a", Login, None, 0.0)];
  }

  lemma EdgeTallies(k: nat)
    requires k == 2 || k == 6
    ensures Follows(k)
  {
    RowsAtEdge();
    hide DbCount;
    assert k == 6 ==> AtEdge(6).s.rows == [Row("a", Login, None, 0.0), Row("a", Login, None, 59.99)];
  }

  lemma EdgeMirrors()
    ensures Follows(3)
  {
    var w := AtEdge(3);
    assert Mine(w.s, "a", Login, 0.025) == [0.025];
    hide DbCount, Times, Recent, Mine;
    assert !Fills(w.s, "a", Login, 1, 0.025);
    hide Fills;
  }

  lemma EdgeFollows(k: nat)
    requires k < |EDGE|
    ensures Follows(k)
  {
    if k == 3 {
      EdgeMirrors();
    } else if k == 2 || k == 6 {
      EdgeTallies(k);
    } else {
      EdgeLooksAndWrites(k);
    }
  }

  function EdgeTime(k: nat): real
    requires k <= |EDGE|
  {
    if k == 0 then 0.0 else EDGE[k - 1].now
  }

  lemma EdgeTimesGrow(k: nat)
    requires k < |EDGE|
    ensures EdgeTime(k) <= EDGE[k].now
  {
  }

  lemma {:induction false} EdgeRun(k: nat)
    requires k <= |EDGE|
    ensures CanRun(START, EDGE[..k], 0.0) && Run(START, EDGE[..k], 0.0) == AtEdge(k)
    ensures AloneRun(START, EDGE[..k], 0.0, "a") && EndTime(EDGE[..k], 0.0) == EdgeTime(k)
  {
    if k == 0 {
      assert EDGE[..k] == [];
      return;
    }
    EdgeFollows(k - 1);
    EdgeTimesGrow(k - 1);
    hide Step, Ready, Alone, AtEdge, CanRun, Run, AloneRun, EDGE;
    EdgeRun(k - 1);
    assert EDGE[..k] == EDGE[..k - 1] + [EDGE[k - 1]];
    OneMoreEvent(START, EDGE[..k - 1], EDGE[k - 1], 0.0);
    AloneOneMore(START, EDGE[..k - 1], EDGE[k - 1], 0.0, "a");
  }

  /** The first row has left the table's window, the first time in memory has not left its own. */
  lemma EdgeSeparatesTheCounts()
    ensures CanRun(START, EDGE, 0.0) && AloneRun(START, EDGE, 0.0, "a")
    ensures var w := Run(START, EDGE, 0.0);
      && Ready(w, Mirror(1, 60.015)) && w.calls[1].stage == Tallied(1)
      && |Mine(w.s, "a", Login, 60.015)| == 2
  {
    EdgeRun(7);
    assert EDGE[..7] == EDGE;
    hide Run, CanRun, AloneRun;
    LastAtEdge();
    hide AtEdge, Mine, Ready;
  }

  lemma LastAtEdge()
    ensures var w := AtEdge(7);
      && Ready(w, Mirror(1, 60.015)) && w.calls[1].stage == Tallied(1)
      && |Mine(w.s, "a", Login, 60.015)| == 2
  {
    RowsAtEdge();
    hide Recent;
    assert Local(AtEdge(7).s, "a", Login) == [0.025];
  }

  // -- the manager's method is a run -------------------------------------------------------------------

  predicate InOrder(at: Readings) {
    at.look <= at.row <= at.since <= at.cleanup <= at.mirror <= at.day <= at.extend
  }

  /** The call is under way, and the state is `s`. */
  predicate Stands(
    u: World, s: State, id: nat, ip: string, kind: AuthType, user: Option<string>, stage: Stage, at: real)
  {
    && u.s == s && id in u.calls && Of(u.calls[id], ip, kind) && u.calls[id].user == user
    && u.calls[id].stage == stage
    && u.calls[id].looked <= at && (u.calls[id].row.Some? ==> u.calls[id].row.value <= at)
    && (stage == Written ==> u.calls[id].row.Some?)
  }

  lemma LookStands(w: World, id: nat, ip: string, kind: AuthType, user: Option<string>, now: real)
    requires id !in w.calls && !StillBlocked(w.s, ip, now)
    ensures var u := Step(w, Look(id, ip, kind, user, now));
      Stands(u, AfterLook(w.s, ip, now), id, ip, kind, StoredUser(user), Looked, now)
  {
    hide StoredUser;
  }

  lemma WriteStands(
    w: World, s: State, id: nat, ip: string, kind: AuthType, user: Option<string>, at: real, now: real)
    requires Stands(w, s, id, ip, kind, user, Looked, at) && at <= now
    ensures Ready(w, Write(id, now, now))
    ensures var u := Step(w, Write(id, now, now));
      Stands(u, s.(rows := s.rows + [Row(ip, kind, user, now)]), id, ip, kind, user, Written, now)
  {
  }

  lemma TallyStands(
    w: World, s: State, id: nat, ip: string, kind: AuthType, user: Option<string>, at: real, now: real)
    requires Stands(w, s, id, ip, kind, user, Written, at) && at <= now
    ensures Ready(w, Tally(id, now, now))
    ensures var u := Step(w, Tally(id, now, now));
      Stands(u, s, id, ip, kind, user, Tallied(DbCount(s.rows, ip, kind, now)), now)
  {
    hide DbCount;
  }

  lemma NoAnswerStands(
    w: World, s: State, id: nat, ip: string, kind: AuthType, user: Option<string>, stage: Stage, at: real, now: real)
    requires Stands(w, s, id, ip, kind, user, stage, at) && at <= now && (stage == Looked || stage == Written)
    ensures Ready(w, NoAnswer(id, now))
    ensures Stands(Step(w, NoAnswer(id, now)), s, id, ip, kind, user, Tallied(0), now)
  {
  }

  lemma MirrorStands(
    w: World, s: State, id: nat, ip: string, kind: AuthType, user: Option<string>, count: nat, at: real, now: real)
    requires Stands(w, s, id, ip, kind, user, Tallied(count), at) && at <= now
    ensures Ready(w, Mirror(id, now))
    ensures var u, t := Step(w, Mirror(id, now)), Mirrored(s, ip, kind, user, count, now);
      Stands(u, t, id, ip, kind, user, if Fills(s, ip, kind, count, now) then Blocking else Over, now)
  {
    hide Fills, Mirrored;
  }

  lemma CountDayStands(
    w: World, s: State, id: nat, ip: string, kind: AuthType, user: Option<string>, at: real, up: bool, now: real)
    requires Stands(w, s, id, ip, kind, user, Blocking, at) && at <= now
    ensures Ready(w, CountDay(id, now, up, now))
    ensures var u := Step(w, CountDay(id, now, up, now));
      Stands(u, s, id, ip, kind, user, if up && Repeats(s, ip, kind, now) then Extending else Over, now)
  {
    hide Repeats;
  }

  lemma ExtendStands(
    w: World, s: State, id: nat, ip: string, kind: AuthType, user: Option<string>, at: real, now: real)
    requires Stands(w, s, id, ip, kind, user, Extending, at) && at <= now
    ensures Ready(w, Extend(id, now, now))
    ensures Stands(Step(w, Extend(id, now, now)), Extended(s, ip, now), id, ip, kind, user, Over, now)
  {
  }

  lemma CleanUpStands(
    w: World, s: State, id: nat, ip: string, kind: AuthType, user: Option<string>, stage: Stage, at: real, now: real)
    requires Stands(w, s, id, ip, kind, user, stage, at) && at <= now
    ensures Stands(Step(w, CleanUp(now, now)), s.(rows := Kept(s.rows, now)), id, ip, kind, user, stage, now)
  {
    hide Kept;
  }

  /** The table's part of a call. */
  lemma TablePart(
    w: World, s: State, events: seq<Event>, from: real, id: nat, ip: string, kind: AuthType, user: Option<string>,
    at: Readings, answer: Answer)
    returns (more: seq<Event>)
    requires CanRun(w, events, from) && EndTime(events, from) <= at.look && InOrder(at)
    requires Stands(Run(w, events, from), s, id, ip, kind, user, Looked, at.look)
    ensures CanRun(w, more, from) && EndTime(more, from) <= at.cleanup
    ensures var (rows, count) := DbRecorded(s.rows, Row(ip, kind, user, at.row), at, answer);
      Stands(Run(w, more, from), s.(rows := rows), id, ip, kind, user, Tallied(count), at.cleanup)
  {
    hide CanRun, Run, Ready, Step, DbCount, Kept;
    var u := Run(w, events, from);
    if answer.Nothing? {
      NoAnswerStands(u, s, id, ip, kind, user, Looked, at.look, at.row);
      OneMoreEvent(w, events, NoAnswer(id, at.row), from);
      return events + [NoAnswer(id, at.row)];
    }
    WriteStands(u, s, id, ip, kind, user, at.look, at.row);
    OneMoreEvent(w, events, Write(id, at.row, at.row), from);
    more := events + [Write(id, at.row, at.row)];
    var t := s.(rows := s.rows + [Row(ip, kind, user, at.row)]);
    u := Run(w, more, from);
    if answer.RowOnly? {
      NoAnswerStands(u, t, id, ip, kind, user, Written, at.row, at.since);
      OneMoreEvent(w, more, NoAnswer(id, at.since), from);
      return more + [NoAnswer(id, at.since)];
    }
    TallyStands(u, t, id, ip, kind, user, at.row, at.since);
    OneMoreEvent(w, more, Tally(id, at.since, at.since), from);
    more := more + [Tally(id, at.since, at.since)];
    if answer.cleanup {
      var stage := Tallied(DbCount(t.rows, ip, kind, at.since));
      CleanUpStands(Run(w, more, from), t, id, ip, kind, user, stage, at.since, at.cleanup);
      CleanUpIsReady(Run(w, more, from), at.cleanup);
      OneMoreEvent(w, more, CleanUp(at.cleanup, at.cleanup), from);
      more := more + [CleanUp(at.cleanup, at.cleanup)];
    }
  }

  lemma CleanUpIsReady(w: World, now: real)
    ensures Ready(w, CleanUp(now, now))
  {
  }

  /** The locked section and what follows it. */
  lemma MemoryPart(
    w: World, s: State, events: seq<Event>, from: real, id: nat, ip: string, kind: AuthType, user: Option<string>,
    count: nat, at: Readings, dayUp: bool)
    returns (more: seq<Event>)
    requires CanRun(w, events, from) && EndTime(events, from) <= at.cleanup && InOrder(at)
    requires Stands(Run(w, events, from), s, id, ip, kind, user, Tallied(count), at.cleanup)
    ensures CanRun(w, more, from)
    ensures Stands(Run(w, more, from), Noted(s, ip, kind, user, count, at, dayUp), id, ip, kind, user, Over, at.extend)
  {
    hide CanRun, Run, Ready, Step, Fills, Mirrored, Repeats;
    var t := Mirrored(s, ip, kind, user, count, at.mirror);
    MirrorStands(Run(w, events, from), s, id, ip, kind, user, count, at.cleanup, at.mirror);
    OneMoreEvent(w, events, Mirror(id, at.mirror), from);
    more := events + [Mirror(id, at.mirror)];
    if Fills(s, ip, kind, count, at.mirror) {
      CountDayStands(Run(w, more, from), t, id, ip, kind, user, at.mirror, dayUp, at.day);
      OneMoreEvent(w, more, CountDay(id, at.day, dayUp, at.day), from);
      more := more + [CountDay(id, at.day, dayUp, at.day)];
      if dayUp && Repeats(t, ip, kind, at.day) {
        ExtendStands(Run(w, more, from), t, id, ip, kind, user, at.day, at.extend);
        OneMoreEvent(w, more, Extend(id, at.extend, at.extend), from);
        more := more + [Extend(id, at.extend, at.extend)];
      }
    }
  }

  /** The manager's record_failure, with nothing in between, is one way through these steps,
      whatever the table answers. */
  lemma OneCallIsARun(
    w: World, from: real, id: nat, ip: string, kind: AuthType, user: Option<string>,
    at: Readings, answer: Answer, dayUp: bool)
    returns (events: seq<Event>)
    requires id !in w.calls && from <= at.look && InOrder(at)
    ensures CanRun(w, events, from)
    ensures Run(w, events, from).s == Recorded(w.s, ip, kind, user, at, answer, dayUp)
  {
    var look := Look(id, ip, kind, user, at.look);
    assert CanRun(w, [], from) && Run(w, [], from) == w;
    OneMoreEvent(w, [], look, from);
    events := [] + [look];
    if !StillBlocked(w.s, ip, at.look) {
      LookStands(w, id, ip, kind, user, at.look);
      hide CanRun, Run, Ready, Step, StoredUser, DbRecorded, Noted;
      var s, stored := AfterLook(w.s, ip, at.look), StoredUser(user);
      var (rows, count) := DbRecorded(s.rows, Row(ip, kind, stored, at.row), at, answer);
      events := TablePart(w, s, events, from, id, ip, kind, stored, at, answer);
      events := MemoryPart(w, s.(rows := rows), events, from, id, ip, kind, stored, count, at, dayUp);
    }
  }
}
