/** When an account is blocked, in the table and in memory; when an address's block is extended
    and when it ends; and what the sweep leaves. */
module AccountBlocks {
  import opened Wrappers
  import opened FailureWindows
  import opened FailureSteps

  // -- names ------------------------------------------------------------------------------------

  /** Two spellings of a name that differ in case are one account, for what is recorded and for
      what is looked up; no name and the empty name are none. */
  lemma NamesAreFolded(name: string, other: string)
    ensures StoredUser(None) == None && StoredUser(Some("")) == None
    ensures name != "" ==> StoredUser(Some(name)) == Some(Lower(name))
    ensures |name| == |other|
      && (forall i :: 0 <= i < |name| ==>
            name[i] == other[i] || ('A' <= name[i] <= 'Z' && other[i] as int == name[i] as int + 32))
      ==> Lower(name) == Lower(other)
  {
  }

  // -- the table's answer ----------------------------------------------------------------------------

  /** No query rests for this long between reading the clock and being answered. */
  const QUERY_LAG := DAY - USER_BLOCK

  predicate CountsFor(c: Call, user: string, kind: AuthType, t: real) {
    c.user == Some(user) && c.kind == kind && c.row.Some? && t - c.row.value <= USER_BLOCK
  }

  /** The failures of an account, from every address and worker, of the last quarter of an hour. */
  function FailuresOf(calls: map<nat, Call>, user: string, kind: AuthType, t: real): set<nat> {
    set id | id in calls && CountsFor(calls[id], user, kind, t)
  }

  predicate AccountTold(w: World, user: string, kind: AuthType, t: real) {
    |Recent(UserTimes(w.s.rows, user, kind), t, USER_BLOCK)| == |FailuresOf(w.calls, user, kind, t)|
  }

  ghost predicate AccountsTold(w: World, now: real) {
    && (forall user, kind, t :: now <= t + QUERY_LAG ==> AccountTold(w, user, kind, t))
    && (forall id :: id in w.calls && w.calls[id].stage == Looked ==> w.calls[id].row.None?)
  }

  lemma UserTimesAppend(rows: seq<Row>, r: Row, user: string, kind: AuthType)
    ensures UserTimes(rows + [r], user, kind)
         == UserTimes(rows, user, kind) + if r.user == Some(user) && r.kind == kind then [r.at] else []
  {
    assert (rows + [r])[..|rows|] == rows;
  }

  lemma {:induction false} KeptUserTimes(rows: seq<Row>, now: real, user: string, kind: AuthType)
    ensures UserTimes(Kept(rows, now), user, kind) == Recent(UserTimes(rows, user, kind), now, DAY)
    decreases |rows|
  {
    if rows != [] {
      var front, r := rows[..|rows| - 1], rows[|rows| - 1];
      KeptUserTimes(front, now, user, kind);
      UserTimesAppend(Kept(front, now), r, user, kind);
      RecentAppend(UserTimes(front, user, kind), r.at, now, DAY);
      assert Kept(front, now) + [] == Kept(front, now);
      assert UserTimes(front, user, kind) + [] == UserTimes(front, user, kind);
      assert Recent(UserTimes(front, user, kind), now, DAY) + [] == Recent(UserTimes(front, user, kind), now, DAY);
    }
  }

  /** What the table has of a call, as far as accounts are concerned. */
  function AccountRow(calls: map<nat, Call>, id: nat): Option<(Option<string>, AuthType, real)> {
    if id in calls && calls[id].row.Some? then Some((calls[id].user, calls[id].kind, calls[id].row.value)) else None
  }

  predicate AccountShows(row: Option<(Option<string>, AuthType, real)>, user: string, kind: AuthType, t: real) {
    row.Some? && row.value.0 == Some(user) && row.value.1 == kind && t - row.value.2 <= USER_BLOCK
  }

  lemma FailuresShow(calls: map<nat, Call>, user: string, kind: AuthType, t: real, id: nat)
    ensures id in FailuresOf(calls, user, kind, t) <==> AccountShows(AccountRow(calls, id), user, kind, t)
  {
  }

  lemma AccountRowsOfStep(w: World, e: Event, id: nat)
    requires Ready(w, e)
    ensures var add := Addition(w, e);
      AccountRow(Step(w, e).calls, id) ==
        if add.Some? && id == add.value.0 then Some((add.value.1.user, add.value.1.kind, add.value.1.at))
        else AccountRow(w.calls, id)
  {
    hide Fills, Mirrored, Repeats, DbCount, Swept, StillBlocked, StoredUser;
  }

  lemma AccountRowAdded(w: World, u: World, id: nat, r: Row, user: string, kind: AuthType, t: real)
    requires AccountTold(w, user, kind, t) && u.s.rows == w.s.rows + [r] && AccountRow(w.calls, id).None?
    requires AccountRow(u.calls, id) == Some((r.user, r.kind, r.at))
    requires forall i :: i != id ==> AccountRow(u.calls, i) == AccountRow(w.calls, i)
    ensures AccountTold(u, user, kind, t)
  {
    var more := r.user == Some(user) && r.kind == kind && t - r.at <= USER_BLOCK;
    var q := UserTimes(w.s.rows, user, kind);
    assert |Recent(UserTimes(u.s.rows, user, kind), t, USER_BLOCK)|
        == |Recent(q, t, USER_BLOCK)| + if more then 1 else 0 by {
      UserTimesAppend(w.s.rows, r, user, kind);
      if r.user == Some(user) && r.kind == kind {
        RecentAppend(q, r.at, t, USER_BLOCK);
      } else {
        assert q + [] == q;
      }
      hide Recent, UserTimes;
    }
    hide Recent, UserTimes, FailuresOf, AccountRow;
    var was, now := FailuresOf(w.calls, user, kind, t), FailuresOf(u.calls, user, kind, t);
    forall i ensures i in now <==> i in was || (more && i == id) {
      FailuresShow(u.calls, user, kind, t, i);
      FailuresShow(w.calls, user, kind, t, i);
    }
    FailuresShow(w.calls, user, kind, t, id);
    OneMore(was, now, id, more);
  }

  lemma SameAccountRows(a: map<nat, Call>, b: map<nat, Call>, user: string, kind: AuthType, t: real)
    requires forall id :: AccountRow(a, id) == AccountRow(b, id)
    ensures FailuresOf(a, user, kind, t) == FailuresOf(b, user, kind, t)
  {
    forall id ensures id in FailuresOf(a, user, kind, t) <==> id in FailuresOf(b, user, kind, t) {
      FailuresShow(a, user, kind, t, id);
      FailuresShow(b, user, kind, t, id);
    }
  }

  lemma CleanedAccount(rows: seq<Row>, at: real, user: string, kind: AuthType, t: real)
    requires at - DAY <= t - USER_BLOCK
    ensures Recent(UserTimes(Kept(rows, at), user, kind), t, USER_BLOCK)
         == Recent(UserTimes(rows, user, kind), t, USER_BLOCK)
  {
    KeptUserTimes(rows, at, user, kind);
    RecentInside(UserTimes(rows, user, kind), at, DAY, t, USER_BLOCK);
  }

  lemma AccountStep(w: World, e: Event, from: real, user: string, kind: AuthType, t: real)
    requires AccountsTold(w, from) && Ready(w, e) && from <= e.now <= t + QUERY_LAG
    ensures AccountTold(Step(w, e), user, kind, t)
  {
    var u, add := Step(w, e), Addition(w, e);
    assert AccountTold(w, user, kind, t);
    assert e.CleanUp? ==> e.at - DAY <= t - USER_BLOCK;
    assert add.Some? ==> AccountRow(w.calls, add.value.0).None?;
    hide Step, Ready, AccountsTold, Addition, Recent, UserTimes, FailuresOf;
    TableOfStep(w, e);
    forall id ensures AccountRow(u.calls, id) == if add.Some? && id == add.value.0 then
      Some((add.value.1.user, add.value.1.kind, add.value.1.at)) else AccountRow(w.calls, id)
    {
      AccountRowsOfStep(w, e, id);
    }
    hide AccountRow;
    if add.Some? {
      AccountRowAdded(w, u, add.value.0, add.value.1, user, kind, t);
    } else {
      if e.CleanUp? {
        CleanedAccount(w.s.rows, e.at, user, kind, t);
      }
      SameAccountRows(u.calls, w.calls, user, kind, t);
    }
  }

  lemma LookedHaveNoRow(w: World, e: Event, id: nat)
    requires Ready(w, e) && id in Step(w, e).calls && Step(w, e).calls[id].stage == Looked
    requires forall i :: i in w.calls && w.calls[i].stage == Looked ==> w.calls[i].row.None?
    ensures Step(w, e).calls[id].row.None?
  {
    if Own(e) != Some(id) {
      OtherCall(w, e, id);
    } else if e.Mirror? {
      MirrorMoves(w, e);
    }
    hide Fills, Mirrored, Repeats, DbCount, Swept, StillBlocked, StoredUser;
  }

  lemma StepKeepsAccountsTold(w: World, e: Event, from: real)
    requires AccountsTold(w, from) && Ready(w, e) && from <= e.now
    ensures AccountsTold(Step(w, e), e.now)
  {
    var u := Step(w, e);
    forall user, kind, t | e.now <= t + QUERY_LAG ensures AccountTold(u, user, kind, t) {
      AccountStep(w, e, from, user, kind, t);
    }
    forall id | id in u.calls && u.calls[id].stage == Looked ensures u.calls[id].row.None? {
      LookedHaveNoRow(w, e, id);
    }
  }

  lemma {:induction false} RunKeepsAccountsTold(w: World, events: seq<Event>, from: real)
    requires AccountsTold(w, from) && CanRun(w, events, from)
    ensures AccountsTold(Run(w, events, from), EndTime(events, from))
    decreases |events|
  {
    if events != [] {
      StepKeepsAccountsTold(w, events[0], from);
      hide AccountsTold, Step, Ready;
      RunKeepsAccountsTold(Step(w, events[0]), events[1..], events[0].now);
    }
  }

  lemma StartIsTold(now: real)
    ensures AccountsTold(START, now)
  {
    forall user, kind, t ensures AccountTold(START, user, kind, t) {
      assert FailuresOf(START.calls, user, kind, t) == {};
    }
  }

  /** In every run, with calls from any address and rows of any worker, a query of the table finds
      an account blocked exactly if in the last quarter of an hour there were fifteen failed
      logins, or ten failed codes, of it. */
  lemma TableBlocksIff(events: seq<Event>, from: real, user: string, kind: AuthType, at: real)
    requires CanRun(START, events, from) && EndTime(events, from) <= at + QUERY_LAG
    requires kind == Login || kind == Totp
    ensures var w := Run(START, events, from);
      TableBlocks(w.s.rows, user, kind, at) <==>
        |FailuresOf(w.calls, user, kind, at)| >= if kind == Login then 15 else 10
  {
    StartIsTold(from);
    RunKeepsAccountsTold(START, events, from);
    assert AccountTold(Run(START, events, from), user, kind, at);
  }

  // -- the memory's answer --------------------------------------------------------------------------

  /** The process goes on. */
  predicate NoRestart(events: seq<Event>) {
    forall e :: e in events ==> !e.Restart?
  }

  predicate AccountShut(w: World, user: string, until: real) {
    user in w.s.userBlocked && until <= w.s.userBlocked[user]
  }

  predicate MirrorsFor(w: World, e: Event, kind: AuthType, user: string)
    requires Ready(w, e)
  {
    e.Mirror? && w.calls[e.id].kind == kind && w.calls[e.id].user == Some(user)
  }

  /** How many failures of the account and kind go through the locked section. */
  function MirrorsOfAccount(w: World, events: seq<Event>, from: real, kind: AuthType, user: string): nat
    requires CanRun(w, events, from)
    decreases |events|
  {
    if events == [] then 0
    else
      (if MirrorsFor(w, events[0], kind, user) then 1 else 0)
      + MirrorsOfAccount(Step(w, events[0]), events[1..], events[0].now, kind, user)
  }

  /** What memory holds of the account since `start`. */
  function AccountSince(s: State, kind: AuthType, user: string, start: real): nat {
    |Recent(LocalUser(s, kind, user), start + UserWindow(kind), UserWindow(kind))|
  }

  predicate FillsAccount(s: State, kind: AuthType, user: string, now: real) {
    |UserMine(s, kind, user, now)| >= UserThreshold(kind)
  }

  lemma NotedKeepsUsers(s: State, ip: string, kind: AuthType, count: nat, now: real)
    ensures var t := NotedIp(s, ip, kind, count, now);
      t.userFailed == s.userFailed && t.userBlocked == s.userBlocked
  {
    hide Fills, Mine;
  }

  /** A failure of the account in memory: counted, or the one that blocks it for a quarter of an
      hour. */
  lemma AccountMirrored(s: State, ip: string, kind: AuthType, user: string, count: nat, now: real)
    requires kind == Login || kind == Totp
    ensures var t := Mirrored(s, ip, kind, Some(user), count, now);
      if FillsAccount(s, kind, user, now) then user in t.userBlocked && t.userBlocked[user] == now + 900.0
      else t.userBlocked == s.userBlocked && LocalUser(t, kind, user) == UserMine(s, kind, user, now)
  {
    var n := NotedIp(s, ip, kind, count, now);
    NotedKeepsUsers(s, ip, kind, count, now);
    assert UserMine(n, kind, user, now) == UserMine(s, kind, user, now);
    hide NotedIp, UserMine, UserThreshold;
  }

  lemma OtherMirrored(
    s: State, ip: string, k: AuthType, u: Option<string>, count: nat, now: real, kind: AuthType, user: string)
    requires k != kind || u != Some(user)
    ensures var t := Mirrored(s, ip, k, u, count, now);
      && LocalUser(t, kind, user) == LocalUser(s, kind, user)
      && (user in s.userBlocked ==>
            && user in t.userBlocked
            && (t.userBlocked[user] == s.userBlocked[user] || t.userBlocked[user] == now + 900.0))
  {
    NotedKeepsUsers(s, ip, k, count, now);
    hide NotedIp, UserMine, UserThreshold, Recent;
  }

  lemma OtherEvents(w: World, e: Event, kind: AuthType, user: string)
    requires Ready(w, e) && !e.Mirror? && !e.Restart?
    ensures var t := Step(w, e).s;
      && (e.Sweep? || LocalUser(t, kind, user) == LocalUser(w.s, kind, user))
      && (user in w.s.userBlocked && e.now < w.s.userBlocked[user] ==>
            user in t.userBlocked && t.userBlocked[user] == w.s.userBlocked[user])
  {
    hide Repeats, DbCount, Kept, StoredUser, StillBlocked, Recent;
  }

  lemma StaysAccountShut(w: World, e: Event, user: string, until: real)
    requires Ready(w, e) && !e.Restart? && e.now < until <= e.now + 900.0 && AccountShut(w, user, until)
    ensures AccountShut(Step(w, e), user, until)
  {
    if e.Mirror? {
      var c := w.calls[e.id];
      if c.user == Some(user) && PerUser(c.kind) {
        AccountMirrored(w.s, c.ip, c.kind, user, c.stage.count, e.now);
      } else if c.user == Some(user) {
        assert WithUserFailure(NotedIp(w.s, c.ip, c.kind, c.stage.count, e.now), c.kind, c.user, e.now)
            == NotedIp(w.s, c.ip, c.kind, c.stage.count, e.now);
        NotedKeepsUsers(w.s, c.ip, c.kind, c.stage.count, e.now);
      } else {
        OtherMirrored(w.s, c.ip, c.kind, c.user, c.stage.count, e.now, Login, user);
      }
      hide Mirrored, Fills, DropAll;
    } else {
      OtherEvents(w, e, Login, user);
      hide Step;
    }
  }

  lemma {:induction false} RunStaysAccountShut(
    w: World, events: seq<Event>, from: real, user: string, until: real)
    requires CanRun(w, events, from) && NoRestart(events) && AccountShut(w, user, until)
    requires EndTime(events, from) < until <= from + 900.0
    ensures AccountShut(Run(w, events, from), user, until)
    decreases |events|
  {
    if events != [] {
      var e := events[0];
      TimePasses(Step(w, e), events[1..], e.now);
      StaysAccountShut(w, e, user, until);
      assert forall x :: x in events[1..] ==> x in events;
      hide Step, Ready, AccountShut;
      RunStaysAccountShut(Step(w, e), events[1..], e.now, user, until);
    }
  }

  lemma SweptAccount(s: State, at: real, kind: AuthType, user: string, start: real)
    requires at - UserWindow(kind) <= start
    ensures AccountSince(Swept(s, at), kind, user, start) == AccountSince(s, kind, user, start)
  {
    var q := LocalUser(s, kind, user);
    RecentInside(q, at, UserWindow(kind), start + UserWindow(kind), UserWindow(kind));
    assert LocalUser(Swept(s, at), kind, user) == if Recent(q, at, UserWindow(kind)) == [] then [] else q;
  }

  lemma AccountListStep(w: World, e: Event, kind: AuthType, user: string)
    requires Ready(w, e) && !e.Restart? && PerUser(kind)
    requires MirrorsFor(w, e, kind, user) ==> !FillsAccount(w.s, kind, user, e.now)
    ensures var q := LocalUser(w.s, kind, user);
      LocalUser(Step(w, e).s, kind, user) ==
        if MirrorsFor(w, e, kind, user) then Recent(q, e.now, UserWindow(kind)) + [e.now]
        else if e.Sweep? then LocalUser(Swept(w.s, e.at), kind, user) else q
  {
    if e.Mirror? {
      var c := w.calls[e.id];
      assert Step(w, e).s == Mirrored(w.s, c.ip, c.kind, c.user, c.stage.count, e.now);
      hide Step, Mirrored, Recent, Fills;
      if MirrorsFor(w, e, kind, user) {
        AccountMirrored(w.s, c.ip, kind, user, c.stage.count, e.now);
      } else {
        OtherMirrored(w.s, c.ip, c.kind, c.user, c.stage.count, e.now, kind, user);
      }
    } else if !e.Sweep? {
      hide Step;
      OtherEvents(w, e, kind, user);
    }
  }

  lemma OneMoreSince(q: seq<real>, now: real, window: real, start: real)
    requires start <= now <= start + window
    ensures |Recent(Recent(q, now, window) + [now], start + window, window)| == |Recent(q, start + window, window)| + 1
  {
    RecentInside(q, now, window, start + window, window);
    RecentAppend(Recent(q, now, window), now, start + window, window);
    hide Recent;
  }

  lemma AccountSinceStep(w: World, e: Event, kind: AuthType, user: string, start: real)
    requires Ready(w, e) && !e.Restart? && start <= e.now <= start + UserWindow(kind) && PerUser(kind)
    requires MirrorsFor(w, e, kind, user) ==> !FillsAccount(w.s, kind, user, e.now)
    ensures AccountSince(Step(w, e).s, kind, user, start)
         == AccountSince(w.s, kind, user, start) + if MirrorsFor(w, e, kind, user) then 1 else 0
  {
    AccountListStep(w, e, kind, user);
    assert e.Sweep? ==> e.at - UserWindow(kind) <= start;
    assert MirrorsFor(w, e, kind, user) ==> !e.Sweep?;
    hide Step, Ready, MirrorsFor, Recent, LocalUser, Swept, UserWindow, FillsAccount;
    if MirrorsFor(w, e, kind, user) {
      OneMoreSince(LocalUser(w.s, kind, user), e.now, UserWindow(kind), start);
    } else if e.Sweep? {
      SweptAccount(w.s, e.at, kind, user, start);
    }
  }

  lemma {:induction false} AccountShutOrHeld(
    w: World, events: seq<Event>, from: real, kind: AuthType, user: string, start: real)
    requires CanRun(w, events, from) && NoRestart(events) && (kind == Login || kind == Totp)
    requires start <= from && EndTime(events, from) <= start + UserWindow(kind)
    requires EndTime(events, from) < start + 900.0
    ensures var u := Run(w, events, from);
      || AccountShut(u, user, start + 900.0)
      || AccountSince(u.s, kind, user, start)
         >= AccountSince(w.s, kind, user, start) + MirrorsOfAccount(w, events, from, kind, user)
    decreases |events|
  {
    if events != [] {
      var e, u := events[0], Step(w, events[0]);
      TimePasses(u, events[1..], e.now);
      assert !e.Restart? && forall x :: x in events[1..] ==> x in events;
      if MirrorsFor(w, e, kind, user) && FillsAccount(w.s, kind, user, e.now) {
        var c := w.calls[e.id];
        AccountMirrored(w.s, c.ip, kind, user, c.stage.count, e.now);
        assert u.s == Mirrored(w.s, c.ip, c.kind, c.user, c.stage.count, e.now);
        hide Step, Ready, AccountSince, Mirrored;
        RunStaysAccountShut(u, events[1..], e.now, user, start + 900.0);
      } else {
        AccountSinceStep(w, e, kind, user, start);
        hide Step, Ready, AccountSince, MirrorsFor;
        AccountShutOrHeld(u, events[1..], e.now, kind, user, start);
      }
    }
  }

  predicate AccountBelow(s: State, kind: AuthType, user: string) {
    |LocalUser(s, kind, user)| < UserThreshold(kind)
  }

  lemma StepKeepsBelow(w: World, e: Event, kind: AuthType, user: string)
    requires Ready(w, e) && AccountBelow(w.s, kind, user)
    ensures AccountBelow(Step(w, e).s, kind, user)
  {
    if e.Mirror? {
      var c := w.calls[e.id];
      if c.kind == kind && c.user == Some(user) && PerUser(kind) {
        AccountMirroredBelow(w.s, c.ip, kind, user, c.stage.count, e.now);
      } else if c.user.None? || !PerUser(c.kind) {
        NotedKeepsUsers(w.s, c.ip, c.kind, c.stage.count, e.now);
        assert WithUserFailure(NotedIp(w.s, c.ip, c.kind, c.stage.count, e.now), c.kind, c.user, e.now)
            == NotedIp(w.s, c.ip, c.kind, c.stage.count, e.now);
      } else {
        OtherMirrored(w.s, c.ip, c.kind, c.user, c.stage.count, e.now, kind, user);
      }
      hide Mirrored, Fills, DropAll, NotedIp, UserThreshold;
    } else if e.Restart? {
      assert LocalUser(Step(w, e).s, kind, user) == [];
    } else if !e.Sweep? {
      OtherEvents(w, e, kind, user);
    }
  }

  lemma AccountMirroredBelow(s: State, ip: string, kind: AuthType, user: string, count: nat, now: real)
    requires PerUser(kind)
    ensures AccountBelow(Mirrored(s, ip, kind, Some(user), count, now), kind, user)
  {
    var n := NotedIp(s, ip, kind, count, now);
    NotedKeepsUsers(s, ip, kind, count, now);
    assert UserMine(n, kind, user, now) == UserMine(s, kind, user, now);
    hide NotedIp, UserMine;
  }

  lemma {:induction false} RunKeepsBelow(w: World, events: seq<Event>, from: real, kind: AuthType, user: string)
    requires CanRun(w, events, from) && AccountBelow(w.s, kind, user)
    ensures AccountBelow(Run(w, events, from).s, kind, user)
    decreases |events|
  {
    if events != [] {
      StepKeepsBelow(w, events[0], kind, user);
      hide AccountBelow, Step, Ready;
      RunKeepsBelow(Step(w, events[0]), events[1..], events[0].now, kind, user);
    }
  }

  /** In every interleaving of one process: once fifteen failed logins of an account within five
      minutes, or ten failed codes within a quarter of an hour, have gone through the locked
      section, from whatever addresses, memory has the account blocked. */
  lemma AccountThresholdBlocks(w: World, events: seq<Event>, from: real, kind: AuthType, user: string)
    requires CanRun(w, events, from) && NoRestart(events) && AccountBelow(w.s, kind, user)
    requires kind == Login || kind == Totp
    requires EndTime(events, from) <= from + (if kind == Login then 300.0 else 900.0)
    requires EndTime(events, from) < from + 900.0
    requires MirrorsOfAccount(w, events, from, kind, user) >= if kind == Login then 15 else 10
    ensures MemoryBlocks(Run(w, events, from).s, user, EndTime(events, from))
  {
    hide Run, CanRun, MirrorsOfAccount;
    var u := Run(w, events, from);
    AccountShutOrHeld(w, events, from, kind, user, from);
    RunKeepsBelow(w, events, from, kind, user);
    BelowSinceToo(u.s, kind, user, from);
    hide AccountSince, AccountBelow;
  }

  lemma BelowSinceToo(s: State, kind: AuthType, user: string, start: real)
    requires AccountBelow(s, kind, user)
    ensures AccountSince(s, kind, user, start) < UserThreshold(kind)
  {
    RecentShrinks(LocalUser(s, kind, user), start + UserWindow(kind), UserWindow(kind));
  }

  // -- the end of a block, and a longer one -----------------------------------------------------------

  /** Once its block is over, the first look at an address lets it through and forgets the block,
      whichever look it is. */
  lemma BlockEnds(w: World, ip: string, now: real)
    requires ip in w.s.blocked
    ensures StillBlocked(w.s, ip, now) <==> now < w.s.blocked[ip]
    ensures ip in Step(w, Ask(ip, now)).s.blocked <==> now < w.s.blocked[ip]
    ensures forall other :: other != ip ==>
      (other in Step(w, Ask(ip, now)).s.blocked <==> other in w.s.blocked)
  {
  }

  /** And of an account: memory answers that it is blocked until then, and forgets it after. */
  lemma AccountBlockEnds(w: World, username: string, now: real)
    requires Lower(username) in w.s.userBlocked
    ensures var user := Lower(username);
      && (MemoryBlocks(w.s, user, now) <==> now < w.s.userBlocked[user])
      && (user in Step(w, AskMemory(username, now)).s.userBlocked <==> now < w.s.userBlocked[user])
      && forall other :: other != user ==>
           (other in Step(w, AskMemory(username, now)).s.userBlocked <==> other in w.s.userBlocked)
  {
  }

  /** The rows of failed codes of an address that the table shows in a day. */
  function CodesOfTheDay(rows: seq<Row>, ip: string, now: real): nat {
    if rows == [] then 0
    else
      var r := rows[|rows| - 1];
      CodesOfTheDay(rows[..|rows| - 1], ip, now)
      + if r.ip == ip && r.kind == Totp && now - r.at <= 86400.0 then 1 else 0
  }

  lemma {:induction false} CodesAreRecent(rows: seq<Row>, ip: string, now: real)
    ensures |Recent(Times(rows, ip, Totp), now, DAY)| == CodesOfTheDay(rows, ip, now)
    decreases |rows|
  {
    if rows != [] {
      var front, r := rows[..|rows| - 1], rows[|rows| - 1];
      CodesAreRecent(front, ip, now);
      RecentAppend(Times(front, ip, Totp), r.at, now, DAY);
      assert Times(front, ip, Totp) + [] == Times(front, ip, Totp);
    }
  }

  /** The call that blocks an address extends the block to a day exactly if it is a failed code
      and the table answers with ten or more of them in the last day. */
  lemma RepeatOffenderIsBlockedForADay(w: World, id: nat, day: real, up: bool, now: real, at: real, end: real)
    requires Ready(w, CountDay(id, day, up, now)) && now <= end && at <= end < at + LAG
    ensures var c, u := w.calls[id], Step(w, CountDay(id, day, up, now));
      if up && c.kind == Totp && 10 <= CodesOfTheDay(w.s.rows, c.ip, day) then
        && Ready(u, Extend(id, at, end))
        && Step(u, Extend(id, at, end)).s.blocked == w.s.blocked[c.ip := at + 86400.0]
      else u.s == w.s && u.calls[id].stage == Over
  {
    CodesAreRecent(w.s.rows, w.calls[id].ip, day);
    hide Recent, Times;
  }

  // -- what the sweep leaves ----------------------------------------------------------------------------

  /** Nothing that is over is left: every time in memory of an address is inside its window, every
      account that is tracked has one inside its own, and every block of an account still runs. */
  lemma SweepLeavesNothingStale(s: State, at: real)
    ensures var t := Swept(s, at);
      && (forall k :: k in t.failed ==> t.failed[k] != [] && forall x :: x in t.failed[k] ==> at - x <= 60.0)
      && (forall k :: k in t.userFailed ==>
            exists x :: x in t.userFailed[k] && at - x <= if k.0 == Totp then 900.0 else 300.0)
      && (forall u :: u in t.userBlocked ==> at < t.userBlocked[u])
  {
    var t := Swept(s, at);
    forall k | k in t.failed ensures t.failed[k] != [] && forall x :: x in t.failed[k] ==> at - x <= 60.0 {
      RecentIsRecent(s.failed[k], at, WINDOW);
    }
    forall k | k in t.userFailed ensures exists x :: x in t.userFailed[k] && at - x <= UserWindow(k.0) {
      var q := s.userFailed[k];
      RecentIsRecent(q, at, UserWindow(k.0));
      var x := Recent(q, at, UserWindow(k.0))[0];
      assert x in Recent(q, at, UserWindow(k.0));
      assert x in t.userFailed[k] && at - x <= UserWindow(k.0);
    }
  }

  lemma {:induction false} RecentIsRecent(q: seq<real>, now: real, window: real)
    ensures forall x :: x in Recent(q, now, window) ==> x in q && now - x <= window
    decreases |q|
  {
    if q != [] {
      RecentIsRecent(q[..|q| - 1], now, window);
    }
  }
}
