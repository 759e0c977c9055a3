/** The hourly sweep of the memory is never noticed, between whichever sections of whichever
    calls it runs. */
module FailureSweep {
  import opened Wrappers
  import opened FailureWindows
  import opened FailureSteps

  /** What an event tells its caller: whether the address, or the account, is blocked. */
  function Reply(w: World, e: Event): seq<bool>
    requires Ready(w, e)
  {
    match e
    case Look(_, ip, _, _, now) => [StillBlocked(w.s, ip, now)]
    case Ask(ip, now) => [StillBlocked(w.s, ip, now)]
    case Mirror(id, now) =>
      var c := w.calls[id];
      [Fills(w.s, c.ip, c.kind, c.stage.count, now)]
    case AskTable(user, kind, at, _) => [TableBlocks(w.s.rows, Lower(user), kind, at)]
    case AskMemory(user, now) => [MemoryBlocks(w.s, Lower(user), now)]
    case _ => []
  }

  function Replies(w: World, events: seq<Event>, from: real): seq<bool>
    requires CanRun(w, events, from)
    decreases |events|
  {
    if events == [] then []
    else Reply(w, events[0]) + Replies(Step(w, events[0]), events[1..], events[0].now)
  }

  // -- what still matters ------------------------------------------------------------------------------

  function ActiveUserBlock(s: State, user: string, now: real): Option<real> {
    if user in s.userBlocked && now < s.userBlocked[user] then Some(s.userBlocked[user]) else None
  }

  predicate LocalAlike(a: State, b: State, ip: string, kind: AuthType, now: real) {
    Recent(Local(a, ip, kind), now, WINDOW) == Recent(Local(b, ip, kind), now, WINDOW)
  }

  predicate UserAlike(a: State, b: State, kind: AuthType, user: string, now: real) {
    Recent(LocalUser(a, kind, user), now, UserWindow(kind)) == Recent(LocalUser(b, kind, user), now, UserWindow(kind))
  }

  predicate UserBlockAlike(a: State, b: State, user: string, now: real) {
    ActiveUserBlock(a, user, now) == ActiveUserBlock(b, user, now)
  }

  ghost predicate IpsAlike(a: State, b: State, now: real) {
    a.rows == b.rows && a.blocked == b.blocked && forall ip, kind :: LocalAlike(a, b, ip, kind, now)
  }

  ghost predicate UsersAlike(a: State, b: State, now: real) {
    && (forall kind, user :: UserAlike(a, b, kind, user, now))
    && (forall user :: UserBlockAlike(a, b, user, now))
  }

  /** Nothing that still matters at `now` differs. */
  ghost predicate Alike(a: State, b: State, now: real) {
    IpsAlike(a, b, now) && UsersAlike(a, b, now)
  }

  /** Nor do the calls. */
  ghost predicate WorldsAlike(a: World, b: World, now: real) {
    a.calls == b.calls && a.written == b.written && Alike(a.s, b.s, now)
  }

  lemma AlikeLater(a: State, b: State, now: real, later: real)
    requires Alike(a, b, now) && now <= later
    ensures Alike(a, b, later)
  {
    forall ip, kind ensures LocalAlike(a, b, ip, kind, later) {
      assert LocalAlike(a, b, ip, kind, now);
      RecentInside(Local(a, ip, kind), now, WINDOW, later, WINDOW);
      RecentInside(Local(b, ip, kind), now, WINDOW, later, WINDOW);
    }
    forall kind, user ensures UserAlike(a, b, kind, user, later) {
      assert UserAlike(a, b, kind, user, now);
      RecentInside(LocalUser(a, kind, user), now, UserWindow(kind), later, UserWindow(kind));
      RecentInside(LocalUser(b, kind, user), now, UserWindow(kind), later, UserWindow(kind));
    }
    forall user ensures UserBlockAlike(a, b, user, later) {
      assert UserBlockAlike(a, b, user, now);
    }
  }

  lemma {:induction false} StaleTimes(q: seq<real>, at: real, now: real, window: real)
    requires at <= now && Recent(q, at, window) == []
    ensures Recent(q, now, window) == []
  {
    RecentInside(q, at, window, now, window);
  }

  /** The sweep may have read its clock a while ago. */
  lemma SweptIsAlike(s: State, at: real, now: real)
    requires at <= now
    ensures Alike(s, Swept(s, at), now)
  {
    var t := Swept(s, at);
    forall ip, kind ensures LocalAlike(s, t, ip, kind, now) {
      SweptLocal(s, at, ip, kind);
      RecentInside(Local(s, ip, kind), at, WINDOW, now, WINDOW);
    }
    forall kind, user ensures UserAlike(s, t, kind, user, now) {
      if Recent(LocalUser(s, kind, user), at, UserWindow(kind)) == [] {
        StaleTimes(LocalUser(s, kind, user), at, now, UserWindow(kind));
      }
    }
    forall user ensures UserBlockAlike(s, t, user, now) {
    }
  }

  lemma SameIps(a: State, b: State, x: State, y: State, now: real)
    requires IpsAlike(a, b, now) && x.rows == y.rows && x.blocked == y.blocked
    requires x.failed == a.failed && y.failed == b.failed
    ensures IpsAlike(x, y, now)
  {
    forall ip, kind ensures LocalAlike(x, y, ip, kind, now) {
      assert LocalAlike(a, b, ip, kind, now);
    }
  }

  lemma SameUsers(a: State, b: State, x: State, y: State, now: real)
    requires UsersAlike(a, b, now)
    requires x.userFailed == a.userFailed && y.userFailed == b.userFailed
    requires x.userBlocked == a.userBlocked && y.userBlocked == b.userBlocked
    ensures UsersAlike(x, y, now)
  {
    forall kind, user ensures UserAlike(x, y, kind, user, now) {
      assert UserAlike(a, b, kind, user, now);
    }
    forall user ensures UserBlockAlike(x, y, user, now) {
      assert UserBlockAlike(a, b, user, now);
    }
  }

  // -- the locked section -----------------------------------------------------------------------------

  lemma FillsAlike(a: State, b: State, ip: string, kind: AuthType, count: nat, now: real)
    requires IpsAlike(a, b, now)
    ensures Mine(a, ip, kind, now) == Mine(b, ip, kind, now)
    ensures Fills(a, ip, kind, count, now) == Fills(b, ip, kind, count, now)
  {
    hide Recent;
    assert LocalAlike(a, b, ip, kind, now);
  }

  lemma NotedLocal(s: State, i: string, k: AuthType, count: nat, now: real, ip: string, kind: AuthType)
    ensures Local(NotedIp(s, i, k, count, now), ip, kind) ==
      if Fills(s, i, k, count, now) then if i == ip then [] else Local(s, ip, kind)
      else if i == ip && k == kind then Mine(s, ip, kind, now) else Local(s, ip, kind)
  {
    hide Fills, Mine;
  }

  lemma NotedAlike(a: State, b: State, ip: string, kind: AuthType, count: nat, now: real)
    requires IpsAlike(a, b, now)
    ensures IpsAlike(NotedIp(a, ip, kind, count, now), NotedIp(b, ip, kind, count, now), now)
  {
    var x, y := NotedIp(a, ip, kind, count, now), NotedIp(b, ip, kind, count, now);
    FillsAlike(a, b, ip, kind, count, now);
    assert x.rows == y.rows && x.blocked == y.blocked;
    hide Recent, Mine, NotedIp, Local, Fills;
    forall i, k ensures LocalAlike(x, y, i, k, now) {
      NotedLocal(a, ip, kind, count, now, i, k);
      NotedLocal(b, ip, kind, count, now, i, k);
      assert LocalAlike(a, b, i, k, now);
    }
  }

  lemma UserAfter(s: State, kind: AuthType, user: string, now: real, k: AuthType, u: string)
    requires PerUser(kind)
    ensures var full := |UserMine(s, kind, user, now)| >= UserThreshold(kind);
      var t := WithUserFailure(s, kind, Some(user), now);
      && LocalUser(t, k, u) == (
        if k == kind && u == user then if full then [] else UserMine(s, kind, user, now) else LocalUser(s, k, u))
      && ActiveUserBlock(t, u, now) == (
        if full && u == user then Some(now + USER_BLOCK) else ActiveUserBlock(s, u, now))
  {
    hide Recent, UserThreshold, UserWindow;
  }

  lemma UserFailureAlike(a: State, b: State, kind: AuthType, user: Option<string>, now: real)
    requires UsersAlike(a, b, now)
    ensures UsersAlike(WithUserFailure(a, kind, user, now), WithUserFailure(b, kind, user, now), now)
  {
    if PerUser(kind) && user.Some? {
      var x, y := WithUserFailure(a, kind, user, now), WithUserFailure(b, kind, user, now);
      assert UserAlike(a, b, kind, user.value, now);
      assert UserMine(a, kind, user.value, now) == UserMine(b, kind, user.value, now);
      hide Recent, UserThreshold, UserWindow, WithUserFailure, UserMine, LocalUser, ActiveUserBlock;
      forall k, u ensures UserAlike(x, y, k, u, now) {
        UserAfter(a, kind, user.value, now, k, u);
        UserAfter(b, kind, user.value, now, k, u);
        assert UserAlike(a, b, k, u, now);
      }
      forall u ensures UserBlockAlike(x, y, u, now) {
        UserAfter(a, kind, user.value, now, kind, u);
        UserAfter(b, kind, user.value, now, kind, u);
        assert UserBlockAlike(a, b, u, now);
      }
    }
  }

  lemma UserFailureTouchesUsers(s: State, kind: AuthType, user: Option<string>, now: real)
    ensures var t := WithUserFailure(s, kind, user, now);
      t.rows == s.rows && t.failed == s.failed && t.blocked == s.blocked
  {
    hide Recent;
  }

  lemma NotedTouchesIps(s: State, ip: string, kind: AuthType, count: nat, now: real)
    ensures var t := NotedIp(s, ip, kind, count, now);
      t.rows == s.rows && t.userFailed == s.userFailed && t.userBlocked == s.userBlocked
  {
    hide Fills, Mine;
  }

  lemma MirroredAlike(
    a: State, b: State, ip: string, kind: AuthType, user: Option<string>, count: nat, now: real)
    requires Alike(a, b, now)
    ensures Alike(Mirrored(a, ip, kind, user, count, now), Mirrored(b, ip, kind, user, count, now), now)
  {
    var x, y := NotedIp(a, ip, kind, count, now), NotedIp(b, ip, kind, count, now);
    NotedAlike(a, b, ip, kind, count, now);
    NotedTouchesIps(a, ip, kind, count, now);
    NotedTouchesIps(b, ip, kind, count, now);
    hide NotedIp, WithUserFailure, UsersAlike;
    SameUsers(a, b, x, y, now);
    UserFailureAlike(x, y, kind, user, now);
    UserFailureTouchesUsers(x, kind, user, now);
    UserFailureTouchesUsers(y, kind, user, now);
    SameIps(x, y, WithUserFailure(x, kind, user, now), WithUserFailure(y, kind, user, now), now);
  }

  // -- the other events ----------------------------------------------------------------------------------

  lemma BothSwept(a: State, b: State, at: real, now: real)
    requires Alike(a, b, now) && at <= now
    ensures Alike(Swept(a, at), Swept(b, at), now)
  {
    SweptIsAlike(a, at, now);
    SweptIsAlike(b, at, now);
    var x, y := Swept(a, at), Swept(b, at);
    hide Swept;
    forall ip, kind ensures LocalAlike(x, y, ip, kind, now) {
      assert LocalAlike(a, b, ip, kind, now) && LocalAlike(a, x, ip, kind, now) && LocalAlike(b, y, ip, kind, now);
    }
    forall k, u ensures UserAlike(x, y, k, u, now) {
      assert UserAlike(a, b, k, u, now) && UserAlike(a, x, k, u, now) && UserAlike(b, y, k, u, now);
    }
    forall u ensures UserBlockAlike(x, y, u, now) {
      assert UserBlockAlike(a, b, u, now) && UserBlockAlike(a, x, u, now) && UserBlockAlike(b, y, u, now);
    }
  }

  lemma LookKeepsUserBlock(s: State, user: string, now: real, u: string)
    ensures ActiveUserBlock(AfterMemoryLook(s, user, now), u, now) == ActiveUserBlock(s, u, now)
  {
  }

  lemma MemoryLookAlike(a: State, b: State, user: string, now: real)
    requires Alike(a, b, now)
    ensures MemoryBlocks(a, user, now) == MemoryBlocks(b, user, now)
    ensures Alike(AfterMemoryLook(a, user, now), AfterMemoryLook(b, user, now), now)
  {
    var x, y := AfterMemoryLook(a, user, now), AfterMemoryLook(b, user, now);
    assert x.userFailed == a.userFailed && y.userFailed == b.userFailed;
    SameIps(a, b, x, y, now);
    assert UserBlockAlike(a, b, user, now);
    hide Recent, AfterMemoryLook;
    forall k, u ensures UserAlike(x, y, k, u, now) {
      assert UserAlike(a, b, k, u, now);
    }
    forall u ensures UserBlockAlike(x, y, u, now) {
      LookKeepsUserBlock(a, user, now, u);
      LookKeepsUserBlock(b, user, now, u);
      assert UserBlockAlike(a, b, u, now);
    }
  }

  lemma HandBlockAlike(a: State, b: State, ip: string, minutes: nat, at: real, now: real)
    requires Alike(a, b, now)
    ensures Alike(BlockedByHand(a, ip, minutes, at), BlockedByHand(b, ip, minutes, at), now)
  {
    var x, y := BlockedByHand(a, ip, minutes, at), BlockedByHand(b, ip, minutes, at);
    SameUsers(a, b, x, y, now);
    hide Recent;
    forall i, k ensures LocalAlike(x, y, i, k, now) {
      assert LocalAlike(a, b, i, k, now);
    }
  }

  /** Events that touch rows and blocks alone. */
  lemma RowsAndBlocksAlike(a: World, b: World, e: Event)
    requires WorldsAlike(a, b, e.now) && Ready(a, e)
    requires !e.Mirror? && !e.AskMemory? && !e.Sweep? && !e.HandBlock? && !e.Restart?
    ensures WorldsAlike(Step(a, e), Step(b, e), e.now)
  {
    var x, y := Step(a, e), Step(b, e);
    hide Repeats, DbCount, Kept, StoredUser, UsersAlike, LocalAlike, StillBlocked;
    assert x.s.failed == a.s.failed && y.s.failed == b.s.failed;
    assert x.s.rows == y.s.rows && x.s.blocked == y.s.blocked;
    assert x.s.userFailed == a.s.userFailed && y.s.userFailed == b.s.userFailed;
    assert x.s.userBlocked == a.s.userBlocked && y.s.userBlocked == b.s.userBlocked;
    assert x.calls == y.calls && x.written == y.written;
    hide Step;
    SameIps(a.s, b.s, x.s, y.s, e.now);
    SameUsers(a.s, b.s, x.s, y.s, e.now);
  }

  lemma StepAlike(a: World, b: World, e: Event, from: real)
    requires WorldsAlike(a, b, from) && from <= e.now && Ready(a, e)
    ensures Ready(b, e) && Reply(a, e) == Reply(b, e)
    ensures WorldsAlike(Step(a, e), Step(b, e), e.now)
  {
    AlikeLater(a.s, b.s, from, e.now);
    assert a.s.rows == b.s.rows && a.s.blocked == b.s.blocked;
    hide Alike, Fills, Mirrored, Swept, Repeats, DbCount, Kept, TableBlocks, MemoryBlocks, AfterMemoryLook;
    match e {
      case Mirror(id, now) =>
        var c := a.calls[id];
        IpsOf(a.s, b.s, now);
        FillsAlike(a.s, b.s, c.ip, c.kind, c.stage.count, now);
        MirroredAlike(a.s, b.s, c.ip, c.kind, c.user, c.stage.count, now);
      case AskMemory(user, now) => MemoryLookAlike(a.s, b.s, Lower(user), now);
      case Sweep(at, now) => BothSwept(a.s, b.s, at, now);
      case HandBlock(ip, minutes, at, now) => HandBlockAlike(a.s, b.s, ip, minutes, at, now);
      case Restart(loaded, now) => RestartedAlike(a.s, b.s, loaded, now);
      case _ => RowsAndBlocksAlike(a, b, e);
    }
  }

  lemma IpsOf(a: State, b: State, now: real)
    requires Alike(a, b, now)
    ensures IpsAlike(a, b, now)
  {
  }

  lemma RestartedAlike(a: State, b: State, loaded: map<string, real>, now: real)
    requires a.rows == b.rows
    ensures Alike(Restarted(a, loaded), Restarted(b, loaded), now)
  {
  }

  lemma {:induction false} AlikeReplyAlike(a: World, b: World, events: seq<Event>, from: real)
    requires WorldsAlike(a, b, from) && CanRun(a, events, from)
    ensures CanRun(b, events, from) && Replies(a, events, from) == Replies(b, events, from)
    decreases |events|
  {
    if events != [] {
      StepAlike(a, b, events[0], from);
      hide WorldsAlike, Step, Reply, Ready;
      AlikeReplyAlike(Step(a, events[0]), Step(b, events[0]), events[1..], events[0].now);
    }
  }

  lemma {:induction false} EarlierStart(w: World, events: seq<Event>, from: real, later: real)
    requires from <= later && CanRun(w, events, later)
    ensures CanRun(w, events, from) && Replies(w, events, from) == Replies(w, events, later)
  {
  }

  /** A sweep inserted anywhere into a run, between whichever sections of whichever calls,
      changes no reply, before or after it. */
  lemma {:induction false} SweepChangesNoReply(
    w: World, before: seq<Event>, at: real, now: real, after: seq<Event>, from: real)
    requires CanRun(w, before + [Sweep(at, now)] + after, from)
    ensures CanRun(w, before + after, from)
    ensures Replies(w, before + [Sweep(at, now)] + after, from) == Replies(w, before + after, from)
    decreases |before|
  {
    var with_, without, sweep := before + [Sweep(at, now)] + after, before + after, Sweep(at, now);
    if before == [] {
      assert with_[0] == sweep && with_[1..] == after && without == after;
      assert Ready(w, sweep) && at <= now && from <= now;
      SweptIsAlike(w.s, at, now);
      SweepAlike(w, Step(w, sweep), now);
      hide WorldsAlike, Swept, Ready;
      AlikeReplyAlike(Step(w, sweep), w, after, now);
      EarlierStart(w, after, from, now);
      assert Replies(w, with_, from) == [] + Replies(Step(w, sweep), after, now);
    } else {
      assert with_[1..] == before[1..] + [sweep] + after && without[1..] == before[1..] + after;
      assert with_[0] == before[0] && without[0] == before[0];
      hide Step, Reply, Ready;
      SweepChangesNoReply(Step(w, before[0]), before[1..], at, now, after, before[0].now);
    }
  }

  lemma SweepAlike(w: World, u: World, now: real)
    requires Alike(w.s, u.s, now) && w.calls == u.calls && w.written == u.written
    ensures WorldsAlike(u, w, now)
  {
    forall ip, kind ensures LocalAlike(u.s, w.s, ip, kind, now) {
      assert LocalAlike(w.s, u.s, ip, kind, now);
    }
    forall kind, user ensures UserAlike(u.s, w.s, kind, user, now) {
      assert UserAlike(w.s, u.s, kind, user, now);
    }
    forall user ensures UserBlockAlike(u.s, w.s, user, now) {
      assert UserBlockAlike(w.s, u.s, user, now);
    }
  }
}
