/** Failures between their sections: each call looks, writes its row, counts, mirrors and
    perhaps extends, with its own clock readings, and any number of calls overlap. */
module FailureSteps {
  import opened Wrappers
  import opened FailureWindows

  /** Where a call stands: past its look; with its row written; with its count; past the locked
      section, having filled the window; found a repeated offender; ended. */
  datatype Stage = Looked | Written | Tallied(count: nat) | Blocking | Extending | Over

  /** What memory holds of a call's failure: not yet anything, its time, or no longer. */
  datatype Mark = Unseen | Held(at: real) | Dropped(at: real)

  /** A call, and what becomes of its failure: when it looked, when it stamped its row and the
      row's number, the rows it counted among (those below `upTo`) and when. */
  datatype Call = Call(
    ip: string, kind: AuthType, user: Option<string>, stage: Stage,
    looked: real, row: Option<real>, key: nat, upTo: nat, since: real, mark: Mark)

  datatype World = World(s: State, calls: map<nat, Call>, written: nat)

  /** Events carry the instant they happen, and the clock reading they use where the source
      takes it earlier. The two queries of is_username_blocked and its look into memory are
      events of their own, and so are the rows that other workers write. */
  datatype Event =
    | Look(id: nat, ip: string, kind: AuthType, user: Option<string>, now: real)
    | Write(id: nat, at: real, now: real)
    | Tally(id: nat, at: real, now: real)
    | NoAnswer(id: nat, now: real)
    | CleanUp(at: real, now: real)
    | Mirror(id: nat, now: real)
    | CountDay(id: nat, at: real, up: bool, now: real)
    | Extend(id: nat, at: real, now: real)
    | Elsewhere(id: nat, ip: string, kind: AuthType, user: Option<string>, at: real, now: real)
    | Ask(ip: string, now: real)
    | AskTable(username: string, kind: AuthType, at: real, now: real)
    | AskMemory(username: string, now: real)
    | Sweep(at: real, now: real)
    | Lift(ip: string, now: real)
    | HandBlock(ip: string, minutes: nat, at: real, now: real)
    | Restart(loaded: map<string, real>, now: real)

  /** No thread rests for this long between reading the clock and using what it read. */
  const LAG := DAY - BLOCK

  predicate Ready(w: World, e: Event) {
    match e
    case Look(id, _, _, _, _) => id !in w.calls
    case Write(id, at, now) => id in w.calls && w.calls[id].stage == Looked && w.calls[id].looked <= at <= now
    case Tally(id, at, now) =>
      && id in w.calls && w.calls[id].stage == Written && w.calls[id].row.Some?
      && w.calls[id].row.value <= at <= now < at + LAG
    case NoAnswer(id, _) =>
      id in w.calls && (w.calls[id].stage == Looked || w.calls[id].stage == Written || w.calls[id].stage.Tallied?)
    case CleanUp(at, now) => at <= now
    case Mirror(id, _) => id in w.calls && w.calls[id].stage.Tallied?
    case CountDay(id, at, _, now) => id in w.calls && w.calls[id].stage == Blocking && at <= now
    case Extend(id, at, now) => id in w.calls && w.calls[id].stage == Extending && at <= now < at + LAG
    case Elsewhere(id, _, _, _, at, now) => id !in w.calls && at <= now
    case Sweep(at, now) => at <= now
    case HandBlock(_, _, at, now) => at <= now
    case _ => true
  }

  function Moved(w: World, id: nat, c: Call): World {
    w.(calls := w.calls[id := c])
  }

  /** The failures of an address are forgotten. */
  function Drop(c: Call, ip: string): Call {
    if c.ip == ip && c.mark.Held? then c.(mark := Dropped(c.mark.at)) else c
  }

  function DropAll(calls: map<nat, Call>, ip: string): map<nat, Call> {
    map id | id in calls :: Drop(calls[id], ip)
  }

  /** A call's own failure, when the locked section is over. */
  function Marked(w: World, id: nat, now: real): World
    requires id in w.calls && w.calls[id].stage.Tallied?
  {
    var c := w.calls[id];
    var s := Mirrored(w.s, c.ip, c.kind, c.user, c.stage.count, now);
    if Fills(w.s, c.ip, c.kind, c.stage.count, now) then
      World(s, DropAll(w.calls, c.ip)[id := c.(stage := Blocking, mark := Dropped(now))], w.written)
    else World(s, w.calls[id := c.(stage := Over, mark := Held(now))], w.written)
  }

  /** The process ends: its calls, its memory. */
  function Ended(c: Call): Call {
    c.(stage := Over, mark := if c.mark.Held? then Dropped(c.mark.at) else c.mark)
  }

  function Step(w: World, e: Event): World
    requires Ready(w, e)
  {
    match e
    case Look(id, ip, kind, user, now) =>
      if StillBlocked(w.s, ip, now) then w
      else
        var c := Call(ip, kind, StoredUser(user), Looked, now, None, 0, 0, now, Unseen);
        Moved(w.(s := AfterLook(w.s, ip, now)), id, c)
    case Write(id, at, _) =>
      var c := w.calls[id];
      var s := w.s.(rows := w.s.rows + [Row(c.ip, c.kind, c.user, at)]);
      World(s, w.calls[id := c.(stage := Written, row := Some(at), key := w.written)], w.written + 1)
    case Tally(id, at, _) =>
      var c := w.calls[id];
      Moved(w, id, c.(stage := Tallied(DbCount(w.s.rows, c.ip, c.kind, at)), upTo := w.written, since := at))
    case NoAnswer(id, _) => Moved(w, id, w.calls[id].(stage := Tallied(0), upTo := 0))
    case CleanUp(at, _) => w.(s := w.s.(rows := Kept(w.s.rows, at)))
    case Mirror(id, now) => Marked(w, id, now)
    case CountDay(id, at, up, _) =>
      var c := w.calls[id];
      Moved(w, id, c.(stage := if up && Repeats(w.s, c.ip, c.kind, at) then Extending else Over))
    case Extend(id, at, _) =>
      var c := w.calls[id];
      Moved(w.(s := Extended(w.s, c.ip, at)), id, c.(stage := Over))
    case Elsewhere(id, ip, kind, user, at, _) =>
      var s := w.s.(rows := w.s.rows + [Row(ip, kind, user, at)]);
      World(s, w.calls[id := Call(ip, kind, user, Over, at, Some(at), w.written, 0, at, Unseen)], w.written + 1)
    case Ask(ip, now) => w.(s := AfterLook(w.s, ip, now))
    case AskTable(_, _, _, _) => w
    case AskMemory(user, now) => w.(s := AfterMemoryLook(w.s, Lower(user), now))
    case Sweep(at, _) => w.(s := Swept(w.s, at))
    case Lift(ip, _) => w.(s := Unblocked(w.s, ip))
    case HandBlock(ip, minutes, at, _) => World(BlockedByHand(w.s, ip, minutes, at), DropAll(w.calls, ip), w.written)
    case Restart(loaded, _) =>
      World(Restarted(w.s, loaded), map id | id in w.calls :: Ended(w.calls[id]), w.written)
  }

  predicate CanRun(w: World, events: seq<Event>, from: real)
    decreases |events|
  {
    events == [] ||
    (from <= events[0].now && Ready(w, events[0]) && CanRun(Step(w, events[0]), events[1..], events[0].now))
  }

  function Run(w: World, events: seq<Event>, from: real): World
    requires CanRun(w, events, from)
    decreases |events|
  {
    if events == [] then w else Run(Step(w, events[0]), events[1..], events[0].now)
  }

  function EndTime(events: seq<Event>, from: real): real {
    if events == [] then from else EndTime(events[1..], events[0].now)
  }

  const START: World := World(State([], map[], map[], map[], map[]), map[], 0)

  // -- the ledger -----------------------------------------------------------------------------------

  predicate Of(c: Call, ip: string, kind: AuthType) {
    c.ip == ip && c.kind == kind
  }

  predicate RowWithin(c: Call, now: real) {
    c.row.Some? && now - c.row.value <= WINDOW
  }

  predicate HeldWithin(c: Call, now: real) {
    c.mark.Held? && now - c.mark.at <= WINDOW
  }

  /** The failures that the table shows in a window that ends at `t`. */
  function InTable(calls: map<nat, Call>, ip: string, kind: AuthType, t: real): set<nat> {
    set id | id in calls && Of(calls[id], ip, kind) && RowWithin(calls[id], t)
  }

  /** The failures that memory holds in a window that ends at `t`. */
  function InMemory(calls: map<nat, Call>, ip: string, kind: AuthType, t: real): set<nat> {
    set id | id in calls && Of(calls[id], ip, kind) && HeldWithin(calls[id], t)
  }

  /** The failures a call's count was made of. */
  function CountedBy(calls: map<nat, Call>, c: Call): set<nat> {
    set id | id in calls && Of(calls[id], c.ip, c.kind) && RowWithin(calls[id], c.since) && calls[id].key < c.upTo
  }

  predicate TableTold(w: World, ip: string, kind: AuthType, t: real) {
    DbCount(w.s.rows, ip, kind, t) == |InTable(w.calls, ip, kind, t)|
  }

  predicate MemoryTold(w: World, ip: string, kind: AuthType, t: real) {
    |Recent(Local(w.s, ip, kind), t, WINDOW)| == |InMemory(w.calls, ip, kind, t)|
  }

  predicate CallFits(w: World, c: Call, now: real) {
    && (c.row.Some? ==> c.key < w.written && c.row.value <= now)
    && (!c.mark.Unseen? ==> c.mark.at <= now)
    && c.upTo <= w.written
    && (c.stage == Looked || c.stage == Written || c.stage.Tallied? ==> c.mark.Unseen?)
    && (c.stage == Looked ==> c.row.None?)
    && (c.stage.Tallied? ==> c.stage.count == |CountedBy(w.calls, c)|)
  }

  /** The numbers kept by table, memory and calls are numbers of failures, as far as any reading
      from now on can tell; and memory is never full. */
  ghost predicate Ledger(w: World, now: real) {
    && (forall ip, kind, t :: now <= t + LAG ==> TableTold(w, ip, kind, t))
    && (forall ip, kind, t :: now <= t ==> MemoryTold(w, ip, kind, t))
    && (forall ip, kind :: |Local(w.s, ip, kind)| < Threshold(kind))
    && (forall id :: id in w.calls ==> CallFits(w, w.calls[id], now))
  }

  /** What the table has of a call, and what memory has of it. */
  function RowOf(calls: map<nat, Call>, id: nat): Option<(string, AuthType, real, nat)> {
    if id in calls && calls[id].row.Some? then
      Some((calls[id].ip, calls[id].kind, calls[id].row.value, calls[id].key))
    else None
  }

  function MarkOf(calls: map<nat, Call>, id: nat): Option<(string, AuthType, real)> {
    if id in calls && calls[id].mark.Held? then Some((calls[id].ip, calls[id].kind, calls[id].mark.at)) else None
  }

  lemma SameRows(a: map<nat, Call>, b: map<nat, Call>, ip: string, kind: AuthType, t: real)
    requires forall id :: RowOf(a, id) == RowOf(b, id)
    ensures InTable(a, ip, kind, t) == InTable(b, ip, kind, t)
  {
    forall id ensures id in InTable(a, ip, kind, t) <==> id in InTable(b, ip, kind, t) {
      assert RowOf(a, id) == RowOf(b, id);
    }
  }

  // -- the table's side ---------------------------------------------------------------------------

  /** What an event writes to the table. */
  function Addition(w: World, e: Event): Option<(nat, Row)>
    requires Ready(w, e)
  {
    match e
    case Write(id, at, _) => Some((id, Row(w.calls[id].ip, w.calls[id].kind, w.calls[id].user, at)))
    case Elsewhere(id, ip, kind, user, at, _) => Some((id, Row(ip, kind, user, at)))
    case _ => None
  }

  lemma RowsOfStep(w: World, e: Event, id: nat)
    requires Ready(w, e)
    ensures var add := Addition(w, e);
      RowOf(Step(w, e).calls, id) ==
        if add.Some? && id == add.value.0 then
          Some((add.value.1.ip, add.value.1.kind, add.value.1.at, w.written))
        else RowOf(w.calls, id)
  {
    hide Fills, Mirrored, Repeats, DbCount, Swept, StillBlocked;
  }

  lemma TableOfStep(w: World, e: Event)
    requires Ready(w, e)
    ensures var t, add := Step(w, e), Addition(w, e);
      && t.s.rows == (if add.Some? then w.s.rows + [add.value.1]
                      else if e.CleanUp? then Kept(w.s.rows, e.at) else w.s.rows)
      && t.written == w.written + (if add.Some? then 1 else 0)
  {
    hide Fills, Repeats, DbCount, Recent;
  }

  lemma TableStep(w: World, e: Event, from: real, ip: string, kind: AuthType, t: real)
    requires Ledger(w, from) && Ready(w, e) && from <= e.now <= t + LAG
    ensures TableTold(Step(w, e), ip, kind, t)
  {
    var u, add := Step(w, e), Addition(w, e);
    assert TableTold(w, ip, kind, t);
    TableOfStep(w, e);
    forall id ensures RowOf(u.calls, id) == if add.Some? && id == add.value.0 then
      Some((add.value.1.ip, add.value.1.kind, add.value.1.at, w.written)) else RowOf(w.calls, id)
    {
      RowsOfStep(w, e, id);
    }
    if add.Some? {
      assert RowOf(w.calls, add.value.0).None? by {
        assert e.Write? ==> CallFits(w, w.calls[e.id], from);
      }
      hide Step, Ready, Ledger, Addition;
      RowAdded(w, u, add.value.0, add.value.1, ip, kind, t);
    } else if e.CleanUp? {
      var q := Times(w.s.rows, ip, kind);
      assert e.at - DAY <= t - WINDOW;
      hide Step, Ledger;
      KeptTimes(w.s.rows, e.at, ip, kind);
      RecentInside(q, e.at, DAY, t, WINDOW);
      SameRows(w.calls, u.calls, ip, kind, t);
    } else {
      hide Step, Ready, Ledger;
      SameRows(w.calls, u.calls, ip, kind, t);
    }
  }

  lemma OneMore(was: set<nat>, all: set<nat>, id: nat, more: bool)
    requires id !in was && forall i :: i in all <==> i in was || (more && i == id)
    ensures |all| == |was| + if more then 1 else 0
  {
    assert all == if more then was + {id} else was;
  }

  predicate RowShows(row: Option<(string, AuthType, real, nat)>, ip: string, kind: AuthType, t: real) {
    row.Some? && row.value.0 == ip && row.value.1 == kind && t - row.value.2 <= WINDOW
  }

  lemma TableShows(calls: map<nat, Call>, ip: string, kind: AuthType, t: real, id: nat)
    ensures id in InTable(calls, ip, kind, t) <==> RowShows(RowOf(calls, id), ip, kind, t)
  {
  }

  lemma RowAdded(w: World, u: World, id: nat, r: Row, ip: string, kind: AuthType, t: real)
    requires TableTold(w, ip, kind, t) && u.s.rows == w.s.rows + [r] && RowOf(w.calls, id).None?
    requires RowOf(u.calls, id) == Some((r.ip, r.kind, r.at, w.written))
    requires forall i :: i != id ==> RowOf(u.calls, i) == RowOf(w.calls, i)
    ensures TableTold(u, ip, kind, t)
  {
    hide DbCount, InTable, RowOf;
    OneMoreRow(w.s.rows, r, ip, kind, t);
    var was, now := InTable(w.calls, ip, kind, t), InTable(u.calls, ip, kind, t);
    var more := r.ip == ip && r.kind == kind && t - r.at <= WINDOW;
    forall i ensures i in now <==> i in was || (more && i == id) {
      TableShows(u.calls, ip, kind, t, i);
      TableShows(w.calls, ip, kind, t, i);
    }
    TableShows(w.calls, ip, kind, t, id);
    OneMore(was, now, id, more);
  }

  // -- the memory's side ----------------------------------------------------------------------------

  /** The addresses whose failures an event forgets. */
  predicate Forgets(w: World, e: Event, ip: string)
    requires Ready(w, e)
  {
    match e
    case Mirror(id, now) =>
      var c := w.calls[id];
      c.ip == ip && Fills(w.s, c.ip, c.kind, c.stage.count, now)
    case HandBlock(i, _, _, _) => i == ip
    case Restart(_, _) => true
    case _ => false
  }

  /** The failure that an event puts into memory. */
  predicate Remembers(w: World, e: Event)
    requires Ready(w, e)
  {
    e.Mirror? && !Forgets(w, e, w.calls[e.id].ip)
  }

  predicate Shows(mark: Option<(string, AuthType, real)>, ip: string, kind: AuthType, t: real) {
    mark.Some? && mark.value.0 == ip && mark.value.1 == kind && t - mark.value.2 <= WINDOW
  }

  lemma MemoryShows(calls: map<nat, Call>, ip: string, kind: AuthType, t: real, id: nat)
    ensures id in InMemory(calls, ip, kind, t) <==> Shows(MarkOf(calls, id), ip, kind, t)
  {
  }

  lemma MarksOfStep(w: World, e: Event, id: nat)
    requires Ready(w, e)
    ensures MarkOf(Step(w, e).calls, id) ==
      if Remembers(w, e) && id == e.id then Some((w.calls[id].ip, w.calls[id].kind, e.now))
      else if id in w.calls && Forgets(w, e, w.calls[id].ip) then None
      else MarkOf(w.calls, id)
  {
    hide Fills, Mirrored, Repeats, DbCount, Swept, StillBlocked;
  }

  lemma SweptLocal(s: State, now: real, ip: string, kind: AuthType)
    ensures Local(Swept(s, now), ip, kind) == Recent(Local(s, ip, kind), now, WINDOW)
  {
  }

  lemma MirroredLocal(
    s: State, i: string, k: AuthType, user: Option<string>, count: nat, now: real, ip: string, kind: AuthType)
    ensures Local(Mirrored(s, i, k, user, count, now), ip, kind) ==
      if Fills(s, i, k, count, now) then if i == ip then [] else Local(s, ip, kind)
      else if i == ip && k == kind then Mine(s, ip, kind, now) else Local(s, ip, kind)
  {
    hide Fills, Recent, UserThreshold, UserMine;
  }

  lemma LocalOfStep(w: World, e: Event, ip: string, kind: AuthType)
    requires Ready(w, e)
    ensures Local(Step(w, e).s, ip, kind) ==
      if Remembers(w, e) && Of(w.calls[e.id], ip, kind) then Mine(w.s, ip, kind, e.now)
      else if Forgets(w, e, ip) then []
      else if e.Sweep? then Recent(Local(w.s, ip, kind), e.at, WINDOW)
      else Local(w.s, ip, kind)
  {
    if e.Mirror? {
      var c := w.calls[e.id];
      MirroredLocal(w.s, c.ip, c.kind, c.user, c.stage.count, e.now, ip, kind);
    } else if e.Sweep? {
      SweptLocal(w.s, e.at, ip, kind);
    }
    hide Fills, Repeats, DbCount, Recent, Mirrored, Swept, Mine;
  }

  lemma MemoryStep(w: World, e: Event, from: real, ip: string, kind: AuthType, t: real)
    requires Ledger(w, from) && Ready(w, e) && from <= e.now <= t
    ensures MemoryTold(Step(w, e), ip, kind, t)
  {
    var u, q := Step(w, e), Local(w.s, ip, kind);
    assert MemoryTold(w, ip, kind, t);
    LocalOfStep(w, e, ip, kind);
    assert e.Mirror? ==> MarkOf(w.calls, e.id).None? by {
      assert e.Mirror? ==> CallFits(w, w.calls[e.id], from);
    }
    hide Ledger, Forgets, Fills;
    if Remembers(w, e) && Of(w.calls[e.id], ip, kind) {
      forall i | i != e.id ensures MarkOf(u.calls, i) == MarkOf(w.calls, i) {
      }
      hide Step;
      MarkAdded(w, u, e.id, ip, kind, e.now, t);
    } else {
      hide Step;
      OthersMarks(w, e, ip, kind, t);
      if e.Sweep? {
        RecentInside(q, e.at, WINDOW, t, WINDOW);
      }
    }
  }

  lemma OthersMarks(w: World, e: Event, ip: string, kind: AuthType, t: real)
    requires Ready(w, e) && !(Remembers(w, e) && Of(w.calls[e.id], ip, kind))
    requires e.Mirror? ==> MarkOf(w.calls, e.id).None?
    ensures InMemory(Step(w, e).calls, ip, kind, t) ==
      if Forgets(w, e, ip) then {} else InMemory(w.calls, ip, kind, t)
  {
    var u := Step(w, e);
    hide Step;
    forall id ensures id in InMemory(u.calls, ip, kind, t)
      <==> id in InMemory(w.calls, ip, kind, t) && !Forgets(w, e, ip)
    {
      MarksOfStep(w, e, id);
      hide Ready, Forgets;
      MemoryShows(u.calls, ip, kind, t, id);
      MemoryShows(w.calls, ip, kind, t, id);
    }
  }

  lemma MarkAdded(w: World, u: World, id: nat, ip: string, kind: AuthType, now: real, t: real)
    requires MemoryTold(w, ip, kind, t) && MarkOf(w.calls, id).None? && now <= t
    requires Local(u.s, ip, kind) == Mine(w.s, ip, kind, now)
    requires MarkOf(u.calls, id) == Some((ip, kind, now))
    requires forall i :: i != id ==> MarkOf(u.calls, i) == MarkOf(w.calls, i)
    ensures MemoryTold(u, ip, kind, t)
  {
    var q, more := Local(w.s, ip, kind), t - now <= WINDOW;
    RecentInside(q, now, WINDOW, t, WINDOW);
    RecentAppend(Recent(q, now, WINDOW), now, t, WINDOW);
    hide Recent, InMemory, MarkOf;
    forall i
      ensures i in InMemory(u.calls, ip, kind, t) <==> i in InMemory(w.calls, ip, kind, t) || (more && i == id)
    {
      MemoryShows(u.calls, ip, kind, t, i);
      MemoryShows(w.calls, ip, kind, t, i);
    }
    MemoryShows(w.calls, ip, kind, t, id);
    OneMore(InMemory(w.calls, ip, kind, t), InMemory(u.calls, ip, kind, t), id, more);
  }

  lemma MemoryStaysBelow(w: World, e: Event, from: real, ip: string, kind: AuthType)
    requires Ledger(w, from) && Ready(w, e)
    ensures |Local(Step(w, e).s, ip, kind)| < Threshold(kind)
  {
    LocalOfStep(w, e, ip, kind);
    RecentShrinks(Local(w.s, ip, kind), e.now, WINDOW);
    if e.Sweep? {
      RecentShrinks(Local(w.s, ip, kind), e.at, WINDOW);
    }
    hide Step, Recent;
  }

  // -- the calls --------------------------------------------------------------------------------------

  predicate CountShows(row: Option<(string, AuthType, real, nat)>, c: Call) {
    RowShows(row, c.ip, c.kind, c.since) && row.value.3 < c.upTo
  }

  lemma CountedShows(calls: map<nat, Call>, c: Call, id: nat)
    ensures id in CountedBy(calls, c) <==> CountShows(RowOf(calls, id), c)
  {
  }

  /** Rows written later do not change what a call has counted. */
  lemma CountStands(w: World, e: Event, c: Call)
    requires Ready(w, e) && c.upTo <= w.written
    requires forall i :: i in w.calls && w.calls[i].stage == Looked ==> w.calls[i].row.None?
    ensures CountedBy(Step(w, e).calls, c) == CountedBy(w.calls, c)
  {
    var u := Step(w, e);
    forall id ensures id in CountedBy(u.calls, c) <==> id in CountedBy(w.calls, c) {
      RowsOfStep(w, e, id);
      CountedShows(u.calls, c, id);
      CountedShows(w.calls, c, id);
      assert Addition(w, e).Some? && Addition(w, e).value.0 == id ==> RowOf(w.calls, id).None?;
      hide Step, Ready, Addition;
    }
  }

  lemma TalliedRight(w: World, id: nat, at: real, now: real, from: real)
    requires Ledger(w, from) && Ready(w, Tally(id, at, now)) && from <= now
    ensures var u := Step(w, Tally(id, at, now));
      u.calls[id].stage.count == |CountedBy(u.calls, u.calls[id])|
  {
    var u, c := Step(w, Tally(id, at, now)), w.calls[id];
    assert TableTold(w, c.ip, c.kind, at);
    forall i ensures i in CountedBy(u.calls, u.calls[id]) <==> i in InTable(w.calls, c.ip, c.kind, at) {
      assert i in w.calls ==> CallFits(w, w.calls[i], from);
      RowsOfStep(w, Tally(id, at, now), i);
      hide Ledger, CallFits;
      CountedShows(u.calls, u.calls[id], i);
      TableShows(w.calls, c.ip, c.kind, at, i);
    }
    assert CountedBy(u.calls, u.calls[id]) == InTable(w.calls, c.ip, c.kind, at);
  }

  /** All of a call but its count. */
  predicate Placed(c: Call, written: nat, now: real) {
    && (c.row.Some? ==> c.key < written && c.row.value <= now)
    && (!c.mark.Unseen? ==> c.mark.at <= now)
    && c.upTo <= written
    && (c.stage == Looked || c.stage == Written || c.stage.Tallied? ==> c.mark.Unseen?)
    && (c.stage == Looked ==> c.row.None?)
  }

  lemma MirrorMoves(w: World, e: Event)
    requires Ready(w, e) && e.Mirror?
    ensures var u, c := Step(w, e), w.calls[e.id];
      && u.calls.Keys == w.calls.Keys
      && (if Forgets(w, e, c.ip) then
            && u.s.blocked == w.s.blocked[c.ip := e.now + BLOCK]
            && u.calls[e.id] == c.(stage := Blocking, mark := Dropped(e.now))
            && (forall id :: id in w.calls && id != e.id ==> u.calls[id] == Drop(w.calls[id], c.ip))
          else
            u.s.blocked == w.s.blocked && u.calls == w.calls[e.id := c.(stage := Over, mark := Held(e.now))])
  {
    hide Fills, Recent, UserThreshold, UserMine, Drop;
  }

  /** The call whose event it is. */
  function Own(e: Event): Option<nat> {
    if e.Look? || e.Write? || e.Tally? || e.NoAnswer? || e.Mirror? || e.CountDay? || e.Extend? || e.Elsewhere?
    then Some(e.id) else None
  }

  /** Other calls keep all but what memory may forget, or end with the process. */
  lemma OtherCall(w: World, e: Event, id: nat)
    requires Ready(w, e) && id in Step(w, e).calls && Own(e) != Some(id)
    ensures id in w.calls
    ensures var c, d := w.calls[id], Step(w, e).calls[id]; d == c || d == Drop(c, c.ip) || d == Ended(c)
  {
    if e.Mirror? {
      MirrorMoves(w, e);
      hide Step, Fills;
    } else {
      hide Fills, Mirrored, Repeats, DbCount, Swept, StillBlocked, StoredUser;
    }
  }

  lemma PlacedOwn(w: World, e: Event, from: real)
    requires Ready(w, e) && from <= e.now && Own(e).Some? && e.id in Step(w, e).calls
    requires e.id in w.calls ==> Placed(w.calls[e.id], w.written, from)
    ensures Placed(Step(w, e).calls[e.id], Step(w, e).written, e.now)
  {
    if e.Mirror? {
      MirrorMoves(w, e);
      TableOfStep(w, e);
      hide Step, Fills;
    } else {
      hide Fills, Mirrored, Repeats, DbCount, StillBlocked, StoredUser, AfterLook, Extended;
    }
  }

  lemma StillPlaced(c: Call, d: Call, written: nat, more: nat, from: real, now: real)
    requires Placed(c, written, from) && written <= more && from <= now
    requires d == c || d == Drop(c, c.ip) || d == Ended(c)
    ensures Placed(d, more, now)
  {
  }

  lemma PlacedStep(w: World, e: Event, from: real, id: nat)
    requires Ready(w, e) && from <= e.now && id in Step(w, e).calls
    requires forall i :: i in w.calls ==> Placed(w.calls[i], w.written, from)
    ensures Placed(Step(w, e).calls[id], Step(w, e).written, e.now)
  {
    if Own(e) == Some(id) {
      PlacedOwn(w, e, from);
    } else {
      OtherCall(w, e, id);
      TableOfStep(w, e);
      hide Step, Ready, Placed, Addition, Drop, Ended;
      StillPlaced(w.calls[id], Step(w, e).calls[id], w.written, Step(w, e).written, from, e.now);
    }
  }

  lemma TallyFrame(w: World, e: Event, id: nat)
    requires Ready(w, e) && id in Step(w, e).calls && Step(w, e).calls[id].stage.Tallied?
    requires id in w.calls && w.calls[id].stage.Tallied? ==> w.calls[id].mark.Unseen?
    ensures id in w.calls
    ensures (e.Tally? && e.id == id) || (e.NoAnswer? && e.id == id && Step(w, e).calls[id].upTo == 0
      && Step(w, e).calls[id].stage.count == 0) || Step(w, e).calls[id] == w.calls[id]
  {
    hide Fills, Mirrored, Repeats, DbCount, Swept, StillBlocked;
  }

  lemma CallStep(w: World, e: Event, from: real, id: nat)
    requires Ledger(w, from) && Ready(w, e) && from <= e.now && id in Step(w, e).calls
    ensures CallFits(Step(w, e), Step(w, e).calls[id], e.now)
  {
    var u := Step(w, e);
    forall i | i in w.calls ensures Placed(w.calls[i], w.written, from) && CallFits(w, w.calls[i], from) {
    }
    PlacedStep(w, e, from, id);
    if u.calls[id].stage.Tallied? {
      var c := u.calls[id];
      TallyFrame(w, e, id);
      if e.Tally? && e.id == id {
        TalliedRight(w, id, e.at, e.now, from);
      } else if e.NoAnswer? && e.id == id {
        assert CountedBy(u.calls, c) == {};
      } else {
        CountStands(w, e, c);
      }
    }
    hide Step, Ready, Ledger;
  }

  lemma StepKeepsLedger(w: World, e: Event, from: real)
    requires Ledger(w, from) && Ready(w, e) && from <= e.now
    ensures Ledger(Step(w, e), e.now)
  {
    var u := Step(w, e);
    forall ip, kind, t | e.now <= t + LAG ensures TableTold(u, ip, kind, t) {
      TableStep(w, e, from, ip, kind, t);
    }
    forall ip, kind, t | e.now <= t ensures MemoryTold(u, ip, kind, t) {
      MemoryStep(w, e, from, ip, kind, t);
    }
    forall ip, kind ensures |Local(u.s, ip, kind)| < Threshold(kind) {
      MemoryStaysBelow(w, e, from, ip, kind);
    }
    forall id | id in u.calls ensures CallFits(u, u.calls[id], e.now) {
      CallStep(w, e, from, id);
    }
    hide Step, Ready, TableTold, MemoryTold, CallFits, Local;
  }

  lemma {:induction false} RunKeepsLedger(w: World, events: seq<Event>, from: real)
    requires Ledger(w, from) && CanRun(w, events, from)
    ensures Ledger(Run(w, events, from), EndTime(events, from))
    decreases |events|
  {
    if events != [] {
      StepKeepsLedger(w, events[0], from);
      hide Ledger, Step, Ready;
      RunKeepsLedger(Step(w, events[0]), events[1..], events[0].now);
    }
  }

  lemma StartHasLedger(now: real)
    ensures Ledger(START, now)
  {
    forall ip, kind, t ensures TableTold(START, ip, kind, t) && MemoryTold(START, ip, kind, t) {
      assert InTable(START.calls, ip, kind, t) == {} && InMemory(START.calls, ip, kind, t) == {};
    }
  }

  // -- when the two counts agree --------------------------------------------------------------------

  /** The other failure's row was written before this call counted. */
  predicate WrittenBefore(c: Call, f: Call) {
    f.row.Some? && f.key < c.upTo
  }

  /** One of the two counts has the other failure and the other could not: its row was there
      for the count and memory has not seen it yet, or memory has it and its row came too late
      for the count, or never. */
  predicate BetweenRowAndMirror(c: Call, f: Call, now: real) {
    || (f.mark.Unseen? && WrittenBefore(c, f) && RowWithin(f, c.since))
    || (HeldWithin(f, now) && !WrittenBefore(c, f))
  }

  /** Its row is in the table's window, but memory has forgotten it. */
  predicate ForgottenTooSoon(c: Call, f: Call) {
    f.mark.Dropped? && WrittenBefore(c, f) && RowWithin(f, c.since)
  }

  /** Its two stamps are on different sides of the edges of the two windows. */
  predicate OnTwoSides(c: Call, f: Call, now: real) {
    f.mark.Held? && WrittenBefore(c, f) && RowWithin(f, c.since) != HeldWithin(f, now)
  }

  predicate SeenAlike(c: Call, f: Call, now: real) {
    !BetweenRowAndMirror(c, f, now) && !ForgottenTooSoon(c, f) && !OnTwoSides(c, f, now)
  }

  /** The failures in memory's count, this one included. */
  function Remembered(w: World, id: nat, now: real): set<nat>
    requires id in w.calls
  {
    InMemory(w.calls, w.calls[id].ip, w.calls[id].kind, now) + {id}
  }

  /** The numbers that a call compares with the threshold are sizes of sets of failures of its
      address and kind, each of them in a window of the length that is meant. */
  lemma CountsAreFailures(w: World, id: nat, now: real, from: real)
    requires Ledger(w, from) && from <= now && Ready(w, Mirror(id, now))
    ensures var c := w.calls[id];
      && c.stage.count == |CountedBy(w.calls, c)|
      && |Mine(w.s, c.ip, c.kind, now)| == |Remembered(w, id, now)| <= Threshold(c.kind)
  {
    var c := w.calls[id];
    assert CallFits(w, c, from) && MemoryTold(w, c.ip, c.kind, now);
    assert id !in InMemory(w.calls, c.ip, c.kind, now);
    RecentShrinks(Local(w.s, c.ip, c.kind), now, WINDOW);
    assert |Local(w.s, c.ip, c.kind)| < Threshold(c.kind);
  }

  /** In every interleaving, with any queries failing, other workers writing, blocks lifted or
      set by hand and restarts: a failure blocks its address exactly if the table showed this
      many failures of its kind in the window of the count, or memory holds as many in the
      window of the locked section. */
  lemma BlocksIff(w: World, id: nat, now: real, from: real)
    requires Ledger(w, from) && from <= now && Ready(w, Mirror(id, now))
    ensures var c := w.calls[id];
      Fills(w.s, c.ip, c.kind, c.stage.count, now) <==>
        || |CountedBy(w.calls, c)| >= Threshold(c.kind)
        || |Remembered(w, id, now)| == Threshold(c.kind)
  {
    CountsAreFailures(w, id, now, from);
  }

  lemma SetsDiffer(a: set<nat>, b: set<nat>)
    ensures |a| - |b| == |a - b| - |b - a|
  {
    assert a == (a - b) + (a * b) && b == (b - a) + (a * b);
    assert |a| == |a - b| + |a * b| && |b| == |b - a| + |a * b|;
  }

  lemma SeenAlikeMeans(w: World, id: nat, f: nat, now: real)
    requires id in w.calls && w.calls[id].mark.Unseen? && f in w.calls && f != id
    requires Of(w.calls[f], w.calls[id].ip, w.calls[id].kind)
    ensures SeenAlike(w.calls[id], w.calls[f], now)
       <==> (f in CountedBy(w.calls, w.calls[id]) <==> f in Remembered(w, id, now))
  {
  }

  lemma OnlyOwnKind(w: World, id: nat, f: nat, now: real)
    requires id in w.calls && w.calls[id].mark.Unseen? && f != id
    requires f in CountedBy(w.calls, w.calls[id]) || f in Remembered(w, id, now)
    ensures f in w.calls && Of(w.calls[f], w.calls[id].ip, w.calls[id].kind)
  {
  }

  /** The two counts have the same failures exactly if the call's own row counted, and no other
      failure of its address and kind was between its row and its mirror, forgotten too soon or
      on two sides of the edges. */
  ghost predicate AllSeenAlike(w: World, id: nat, now: real)
    requires id in w.calls
  {
    var c := w.calls[id];
    && WrittenBefore(c, c) && RowWithin(c, c.since)
    && forall f :: f in w.calls && f != id && Of(w.calls[f], c.ip, c.kind) ==> SeenAlike(c, w.calls[f], now)
  }

  lemma SameFailuresIff(w: World, id: nat, now: real)
    requires id in w.calls && w.calls[id].mark.Unseen?
    ensures CountedBy(w.calls, w.calls[id]) == Remembered(w, id, now) <==> AllSeenAlike(w, id, now)
  {
    var c, table, memory := w.calls[id], CountedBy(w.calls, w.calls[id]), Remembered(w, id, now);
    assert id in table <==> WrittenBefore(c, c) && RowWithin(c, c.since);
    assert id in memory;
    forall f | f in w.calls && f != id && Of(w.calls[f], c.ip, c.kind)
      ensures SeenAlike(c, w.calls[f], now) <==> (f in table <==> f in memory)
    {
      SeenAlikeMeans(w, id, f, now);
    }
    forall f | f != id && (f in table || f in memory)
      ensures f in w.calls && Of(w.calls[f], c.ip, c.kind)
    {
      OnlyOwnKind(w, id, f, now);
    }
    hide CountedBy, Remembered, SeenAlike, Of;
    if AllSeenAlike(w, id, now) {
      assert table == memory;
    }
  }

  /** In every interleaving the two counts differ by the failures that only one of them has,
      and it is known when there are none. Then either counter alone decides, and the failure
      that fills the window is the one that blocks. */
  lemma CountsAgreeIff(w: World, id: nat, now: real, from: real)
    requires Ledger(w, from) && from <= now && Ready(w, Mirror(id, now))
    ensures var c := w.calls[id];
      var table, memory, count := CountedBy(w.calls, c), Remembered(w, id, now), c.stage.count;
      && count - |Mine(w.s, c.ip, c.kind, now)| == |table - memory| - |memory - table|
      && (table == memory <==> AllSeenAlike(w, id, now))
      && (table == memory ==>
            && count == |Mine(w.s, c.ip, c.kind, now)| <= Threshold(c.kind)
            && (Fills(w.s, c.ip, c.kind, count, now) <==> count == Threshold(c.kind)))
  {
    var c := w.calls[id];
    var table, memory := CountedBy(w.calls, c), Remembered(w, id, now);
    CountsAreFailures(w, id, now, from);
    SetsDiffer(table, memory);
    assert CallFits(w, c, from);
    SameFailuresIff(w, id, now);
    hide Ledger, Mine, CountedBy, Remembered, AllSeenAlike, CallFits;
  }

  // -- a full window blocks ---------------------------------------------------------------------------

  /** No administrator touches the address, and the process goes on. */
  predicate NoHand(e: Event, ip: string) {
    match e
    case Lift(i, _) => i != ip
    case HandBlock(i, _, _, _) => i != ip
    case Restart(_, _) => false
    case _ => true
  }

  predicate NoHands(events: seq<Event>, ip: string) {
    forall e :: e in events ==> NoHand(e, ip)
  }

  predicate Shut(w: World, ip: string, until: real) {
    ip in w.s.blocked && until <= w.s.blocked[ip]
  }

  lemma StaysShut(w: World, e: Event, ip: string, until: real)
    requires Ready(w, e) && NoHand(e, ip) && e.now < until <= e.now + BLOCK
    requires Shut(w, ip, until) || Forgets(w, e, ip)
    ensures Shut(Step(w, e), ip, until)
  {
    if e.Mirror? {
      MirrorMoves(w, e);
      hide Step, Fills;
    } else {
      hide Fills, Repeats, DbCount, Mirrored, DropAll;
    }
  }

  lemma {:induction false} TimePasses(w: World, events: seq<Event>, from: real)
    requires CanRun(w, events, from)
    ensures from <= EndTime(events, from)
    decreases |events|
  {
    if events != [] {
      hide Step, Ready;
      TimePasses(Step(w, events[0]), events[1..], events[0].now);
    }
  }

  lemma {:induction false} RunStaysShut(w: World, events: seq<Event>, from: real, ip: string, until: real)
    requires CanRun(w, events, from) && NoHands(events, ip) && Shut(w, ip, until)
    requires EndTime(events, from) < until <= from + BLOCK
    ensures Shut(Run(w, events, from), ip, until)
    decreases |events|
  {
    if events != [] {
      var e := events[0];
      TimePasses(Step(w, e), events[1..], e.now);
      StaysShut(w, e, ip, until);
      assert forall x :: x in events[1..] ==> x in events;
      hide Step, Ready, Shut, NoHand;
      RunStaysShut(Step(w, e), events[1..], e.now, ip, until);
    }
  }

  /** How many calls of the address and kind go through the locked section. */
  function MirrorsOf(w: World, events: seq<Event>, from: real, ip: string, kind: AuthType): nat
    requires CanRun(w, events, from)
    decreases |events|
  {
    if events == [] then 0
    else
      (if events[0].Mirror? && Of(w.calls[events[0].id], ip, kind) then 1 else 0)
      + MirrorsOf(Step(w, events[0]), events[1..], events[0].now, ip, kind)
  }

  /** What memory holds since `start`. */
  function Since(w: World, ip: string, kind: AuthType, start: real): nat {
    |Recent(Local(w.s, ip, kind), start + WINDOW, WINDOW)|
  }

  lemma SinceStep(w: World, e: Event, ip: string, kind: AuthType, start: real)
    requires Ready(w, e) && start <= e.now <= start + WINDOW && !Forgets(w, e, ip)
    ensures Since(Step(w, e), ip, kind, start)
         == Since(w, ip, kind, start) + if e.Mirror? && Of(w.calls[e.id], ip, kind) then 1 else 0
  {
    var q, l := Local(w.s, ip, kind), Local(Step(w, e).s, ip, kind);
    LocalOfStep(w, e, ip, kind);
    if e.Mirror? && Of(w.calls[e.id], ip, kind) {
      assert l == Recent(q, e.now, WINDOW) + [e.now];
      hide *;
      RecentInside(q, e.now, WINDOW, start + WINDOW, WINDOW);
      RecentAppend(Recent(q, e.now, WINDOW), e.now, start + WINDOW, WINDOW);
      assert e.now >= start;
    } else if e.Sweep? {
      assert l == Recent(q, e.at, WINDOW) && e.at <= e.now;
      hide Step, Recent, Fills, Local;
      RecentInside(q, e.at, WINDOW, start + WINDOW, WINDOW);
    } else {
      assert l == q;
    }
  }

  lemma {:induction false} ShutOrHeld(
    w: World, events: seq<Event>, from: real, ip: string, kind: AuthType, start: real)
    requires CanRun(w, events, from) && NoHands(events, ip)
    requires start <= from && EndTime(events, from) <= start + WINDOW
    ensures var u := Run(w, events, from);
      || Shut(u, ip, start + BLOCK)
      || Since(u, ip, kind, start) >= Since(w, ip, kind, start) + MirrorsOf(w, events, from, ip, kind)
    decreases |events|
  {
    if events != [] {
      var e, u := events[0], Step(w, events[0]);
      TimePasses(u, events[1..], e.now);
      assert forall x :: x in events[1..] ==> x in events;
      if Forgets(w, e, ip) {
        ForgettingShuts(w, e, ip);
        hide Step, Ready, NoHand, Forgets, Since;
        RunStaysShut(u, events[1..], e.now, ip, start + BLOCK);
      } else {
        SinceStep(w, e, ip, kind, start);
        hide Step, Ready, NoHand, Forgets, Since;
        ShutOrHeld(u, events[1..], e.now, ip, kind, start);
      }
    }
  }

  /** Without a hand, an address is forgotten only when it is blocked, for the hour. */
  lemma ForgettingShuts(w: World, e: Event, ip: string)
    requires Ready(w, e) && NoHand(e, ip) && Forgets(w, e, ip)
    ensures Shut(Step(w, e), ip, e.now + BLOCK)
  {
    MirrorMoves(w, e);
    hide Step, Fills;
  }

  /** Whatever the interleaving and whatever the table answers: once as many calls of an address
      and kind as its threshold have gone through the locked section within one window, the
      address is blocked. */
  lemma ThresholdBlocks(w: World, events: seq<Event>, from: real, ip: string, kind: AuthType)
    requires Ledger(w, from) && CanRun(w, events, from) && NoHands(events, ip)
    requires EndTime(events, from) <= from + WINDOW
    requires MirrorsOf(w, events, from, ip, kind) >= Threshold(kind)
    ensures StillBlocked(Run(w, events, from).s, ip, EndTime(events, from))
    ensures Shut(Run(w, events, from), ip, from + BLOCK)
  {
    var u := Run(w, events, from);
    ShutOrHeld(w, events, from, ip, kind, from);
    RunKeepsLedger(w, events, from);
    RecentShrinks(Local(u.s, ip, kind), from + WINDOW, WINDOW);
    assert |Local(u.s, ip, kind)| < Threshold(kind);
  }

  /** And a block lasts its hour: until then every look finds it, whatever calls under way when
      it began still do. */
  lemma BlockLasts(w: World, e: Event, events: seq<Event>, ip: string)
    requires Ready(w, e) && NoHand(e, ip) && Forgets(w, e, ip)
    requires CanRun(Step(w, e), events, e.now) && NoHands(events, ip) && EndTime(events, e.now) < e.now + BLOCK
    ensures StillBlocked(Run(Step(w, e), events, e.now).s, ip, EndTime(events, e.now))
  {
    ForgettingShuts(w, e, ip);
    hide Step, Ready, NoHand, Forgets;
    RunStaysShut(Step(w, e), events, e.now, ip, e.now + BLOCK);
  }

  /** In numbers: five failed logins or codes, ten failed keys or connections, a hundred of any
      other kind within a minute block their address for an hour. */
  lemma ThresholdsInNumbers(w: World, events: seq<Event>, from: real, ip: string, kind: AuthType)
    requires Ledger(w, from) && CanRun(w, events, from) && NoHands(events, ip)
    requires EndTime(events, from) <= from + 60.0
    requires MirrorsOf(w, events, from, ip, kind) >=
      if kind == Login || kind == Totp then 5 else if kind == General then 100 else 10
    ensures Shut(Run(w, events, from), ip, from + 3600.0)
  {
    hide Run, CanRun, MirrorsOf, Shut, Ledger;
    ThresholdBlocks(w, events, from, ip, kind);
  }
}
