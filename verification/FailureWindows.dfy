/** Failed logins are counted twice, in a table and in memory: what each section of a call does
    to the two, the manager whose methods go through the sections, and what lifting a block, a
    block by hand or a restart does to the counts. */
module FailureWindows {
  import opened Wrappers

  datatype AuthType = Login | Totp | ApiKey | V2Tcp | General

  function Threshold(kind: AuthType): nat {
    match kind
    case Login => 5
    case Totp => 5
    case ApiKey => 10
    case V2Tcp => 10
    case General => 100
  }

  const WINDOW := 60.0
  const BLOCK := 3600.0
  const EXTENDED_BLOCK := 86400.0
  const DAY := 86400.0
  const USER_BLOCK := 900.0
  const EXTENDED_LOCKOUT: nat := 10

  predicate PerUser(kind: AuthType) {
    kind == Login || kind == Totp
  }

  function UserThreshold(kind: AuthType): nat {
    if kind == Totp then 10 else 15
  }

  function UserWindow(kind: AuthType): real {
    if kind == Totp then 900.0 else 300.0
  }

  function LowerChar(c: char): char {
    if 'A' <= c <= 'Z' then c + ('a' - 'A') else c
  }

  function Lower(s: string): string {
    seq(|s|, i requires 0 <= i < |s| => LowerChar(s[i]))
  }

  // -- the state ---------------------------------------------------------------------------

  datatype Row = Row(ip: string, kind: AuthType, user: Option<string>, at: real)

  datatype State = State(
    rows: seq<Row>,
    failed: map<(string, AuthType), seq<real>>,
    blocked: map<string, real>,
    userFailed: map<(AuthType, string), seq<real>>,
    userBlocked: map<string, real>)

  function Local(s: State, ip: string, kind: AuthType): seq<real> {
    if (ip, kind) in s.failed then s.failed[(ip, kind)] else []
  }

  function LocalUser(s: State, kind: AuthType, user: string): seq<real> {
    if (kind, user) in s.userFailed then s.userFailed[(kind, user)] else []
  }

  /** The times still inside a window that ends now, in their order. */
  function Recent(q: seq<real>, now: real, window: real): seq<real> {
    if q == [] then []
    else Recent(q[..|q| - 1], now, window) + if now - q[|q| - 1] <= window then [q[|q| - 1]] else []
  }

  function Times(rows: seq<Row>, ip: string, kind: AuthType): seq<real> {
    if rows == [] then []
    else
      var r := rows[|rows| - 1];
      Times(rows[..|rows| - 1], ip, kind) + if r.ip == ip && r.kind == kind then [r.at] else []
  }

  function UserTimes(rows: seq<Row>, user: string, kind: AuthType): seq<real> {
    if rows == [] then []
    else
      var r := rows[|rows| - 1];
      UserTimes(rows[..|rows| - 1], user, kind) + if r.user == Some(user) && r.kind == kind then [r.at] else []
  }

  /** The clean-up drops what is older than a day. */
  function Kept(rows: seq<Row>, now: real): seq<Row> {
    if rows == [] then []
    else
      var r := rows[|rows| - 1];
      Kept(rows[..|rows| - 1], now) + if now - r.at <= DAY then [r] else []
  }

  // -- the operations ------------------------------------------------------------------------

  predicate StillBlocked(s: State, ip: string, now: real) {
    ip in s.blocked && now < s.blocked[ip]
  }

  /** An expired block is forgotten when it is looked at. */
  function AfterLook(s: State, ip: string, now: real): State {
    if ip in s.blocked && s.blocked[ip] <= now then s.(blocked := s.blocked - {ip}) else s
  }

  function DbCount(rows: seq<Row>, ip: string, kind: AuthType, now: real): nat {
    |Recent(Times(rows, ip, kind), now, WINDOW)|
  }

  function Mine(s: State, ip: string, kind: AuthType, now: real): seq<real> {
    Recent(Local(s, ip, kind), now, WINDOW) + [now]
  }

  function Max(a: nat, b: nat): nat {
    if a < b then b else a
  }

  function WithoutIp(failed: map<(string, AuthType), seq<real>>, ip: string): map<(string, AuthType), seq<real>> {
    map k | k in failed && k.0 != ip :: failed[k]
  }

  function StoredUser(user: Option<string>): Option<string> {
    if user.Some? && user.value != "" then Some(Lower(user.value)) else None
  }

  /** The account's failures in the window, with this one. */
  function UserMine(s: State, kind: AuthType, user: string, now: real): seq<real> {
    Recent(LocalUser(s, kind, user), now, UserWindow(kind)) + [now]
  }

  /** The second layer, per account. */
  function WithUserFailure(s: State, kind: AuthType, user: Option<string>, now: real): State {
    if !PerUser(kind) || user.None? then s
    else
      var times := UserMine(s, kind, user.value, now);
      if |times| >= UserThreshold(kind) then
        s.(userBlocked := s.userBlocked[user.value := now + USER_BLOCK],
           userFailed := s.userFailed - {(kind, user.value)})
      else s.(userFailed := s.userFailed[(kind, user.value) := times])
  }

  /** Whether the higher of the two counts fills the window: the one read from the table, and
      the one in memory with this failure. */
  predicate Fills(s: State, ip: string, kind: AuthType, count: nat, now: real) {
    Max(count, |Mine(s, ip, kind, now)|) >= Threshold(kind)
  }

  /** The address after a failure that fills the window, or does not. */
  function NotedIp(s: State, ip: string, kind: AuthType, count: nat, now: real): State {
    if Fills(s, ip, kind, count, now) then
      s.(failed := WithoutIp(s.failed, ip), blocked := s.blocked[ip := now + BLOCK])
    else s.(failed := s.failed[(ip, kind) := Mine(s, ip, kind, now)])
  }

  /** The section under the lock: one clock reading for both layers. */
  function Mirrored(s: State, ip: string, kind: AuthType, user: Option<string>, count: nat, now: real): State {
    WithUserFailure(NotedIp(s, ip, kind, count, now), kind, user, now)
  }

  /** Whether the table shows a repeated offender. */
  predicate Repeats(s: State, ip: string, kind: AuthType, now: real) {
    kind == Totp && |Recent(Times(s.rows, ip, kind), now, DAY)| >= EXTENDED_LOCKOUT
  }

  function Extended(s: State, ip: string, now: real): State {
    s.(blocked := s.blocked[ip := now + EXTENDED_BLOCK])
  }

  /** How the table answers a failure: with a count, and perhaps a clean-up; not, although the
      row is there; or not at all. */
  datatype Answer = Counted(cleanup: bool) | RowOnly | Nothing

  /** What one call reads from the clock, in this order. */
  datatype Readings = Readings(
    look: real, row: real, since: real, cleanup: real, mirror: real, day: real, extend: real)

  function DbRecorded(rows: seq<Row>, r: Row, at: Readings, answer: Answer): (seq<Row>, nat) {
    match answer
    case Counted(cleanup) =>
      var added := rows + [r];
      (if cleanup then Kept(added, at.cleanup) else added, DbCount(added, r.ip, r.kind, at.since))
    case RowOnly => (rows + [r], 0)
    case Nothing => (rows, 0)
  }

  /** A failure after the table has had its part. */
  function Noted(
    s: State, ip: string, kind: AuthType, user: Option<string>, count: nat, at: Readings, dayUp: bool): State
  {
    var t := Mirrored(s, ip, kind, user, count, at.mirror);
    if Fills(s, ip, kind, count, at.mirror) && dayUp && Repeats(t, ip, kind, at.day) then Extended(t, ip, at.extend)
    else t
  }

  /** A whole call with nothing in between. */
  function Recorded(
    s: State, ip: string, kind: AuthType, user: Option<string>, at: Readings, answer: Answer, dayUp: bool): State
  {
    if StillBlocked(s, ip, at.look) then s
    else
      var t := AfterLook(s, ip, at.look);
      var (rows, count) := DbRecorded(t.rows, Row(ip, kind, StoredUser(user), at.row), at, answer);
      Noted(t.(rows := rows), ip, kind, StoredUser(user), count, at, dayUp)
  }

  /** What record_failure answers: whether the address is blocked now. */
  predicate NowBlocked(s: State, ip: string, kind: AuthType, user: Option<string>, at: Readings, answer: Answer) {
    || StillBlocked(s, ip, at.look)
    || (var t := AfterLook(s, ip, at.look);
        var (rows, count) := DbRecorded(t.rows, Row(ip, kind, StoredUser(user), at.row), at, answer);
        Fills(t.(rows := rows), ip, kind, count, at.mirror))
  }

  function SweptTimes(failed: map<(string, AuthType), seq<real>>, now: real): map<(string, AuthType), seq<real>> {
    map k | k in failed && Recent(failed[k], now, WINDOW) != [] :: Recent(failed[k], now, WINDOW)
  }

  function Swept(s: State, now: real): State {
    s.(failed := SweptTimes(s.failed, now),
       userFailed :=
         map k | k in s.userFailed && Recent(s.userFailed[k], now, UserWindow(k.0)) != [] :: s.userFailed[k],
       userBlocked := map u | u in s.userBlocked && now < s.userBlocked[u] :: s.userBlocked[u])
  }

  /** Whether the table holds enough of one kind of failure of the account. */
  predicate TableBlocks(rows: seq<Row>, user: string, kind: AuthType, now: real) {
    |Recent(UserTimes(rows, user, kind), now, USER_BLOCK)| >= UserThreshold(kind)
  }

  predicate MemoryBlocks(s: State, user: string, now: real) {
    user in s.userBlocked && now < s.userBlocked[user]
  }

  function AfterMemoryLook(s: State, user: string, now: real): State {
    if user in s.userBlocked && s.userBlocked[user] <= now then s.(userBlocked := s.userBlocked - {user}) else s
  }

  /** Which of the two queries of is_username_blocked the table answers, and the times it takes
      for them and for the look into memory. */
  datatype Queries = Queries(loginUp: bool, totpUp: bool, login: real, totp: real, memory: real)

  /** is_username_blocked: from the table, or from memory when neither query is answered. */
  predicate UserStillBlocked(s: State, user: string, q: Queries) {
    || (q.loginUp && TableBlocks(s.rows, user, Login, q.login))
    || (q.totpUp && TableBlocks(s.rows, user, Totp, q.totp))
    || (!q.loginUp && !q.totpUp && MemoryBlocks(s, user, q.memory))
  }

  function AfterUserLook(s: State, user: string, q: Queries): State {
    if q.loginUp || q.totpUp then s else AfterMemoryLook(s, user, q.memory)
  }

  // -- the manager ----------------------------------------------------------------------------

  class SecurityManager {
    var rows: seq<Row>
    var failedAttempts: map<(string, AuthType), seq<real>>
    var blockedIps: map<string, real>
    var usernameFailures: map<(AuthType, string), seq<real>>
    var blockedUsernames: map<string, real>

    ghost function Abstract(): State
      reads this
    {
      State(rows, failedAttempts, blockedIps, usernameFailures, blockedUsernames)
    }

    constructor ()
      ensures Abstract() == State([], map[], map[], map[], map[])
    {
      rows, failedAttempts, blockedIps, usernameFailures, blockedUsernames := [], map[], map[], map[], map[];
    }

    method IsBlocked(ip: string, now: real) returns (yes: bool)
      modifies this
      ensures yes == StillBlocked(old(Abstract()), ip, now) && Abstract() == AfterLook(old(Abstract()), ip, now)
    {
      if ip !in blockedIps {
        return false;
      }
      if now >= blockedIps[ip] {
        blockedIps := blockedIps - {ip};
        return false;
      }
      yes := true;
    }

    method DbRecordFailure(ip: string, kind: AuthType, user: Option<string>, at: Readings, answer: Answer)
      returns (count: nat)
      modifies this`rows
      ensures (rows, count) == DbRecorded(old(rows), Row(ip, kind, user, at.row), at, answer)
    {
      if answer.Nothing? {
        return 0;
      }
      rows := rows + [Row(ip, kind, user, at.row)];
      if answer.RowOnly? {
        return 0;
      }
      count := DbCount(rows, ip, kind, at.since);
      if answer.cleanup {
        rows := Kept(rows, at.cleanup);
      }
    }

    method Prune(q: seq<real>, now: real, window: real) returns (r: seq<real>)
      ensures r == Recent(q, now, window)
    {
      r := [];
      for i := 0 to |q|
        invariant r == Recent(q[..i], now, window)
      {
        assert q[..i + 1][..i] == q[..i];
        if now - q[i] <= window {
          r := r + [q[i]];
        }
      }
      assert q[..|q|] == q;
    }

    method RecordFailure(
      ip: string, kind: AuthType, username: Option<string>, at: Readings, answer: Answer, dayUp: bool)
      returns (yes: bool)
      modifies this
      ensures yes == NowBlocked(old(Abstract()), ip, kind, username, at, answer)
      ensures Abstract() == Recorded(old(Abstract()), ip, kind, username, at, answer, dayUp)
    {
      var already := IsBlocked(ip, at.look);
      if already {
        return true;
      }
      var stored := StoredUser(username);
      hide DbRecorded, StoredUser, Fills, Mirrored, Repeats;
      var count := DbRecordFailure(ip, kind, stored, at, answer);
      yes := MirrorFailure(ip, kind, stored, count, at.mirror);
      if yes && dayUp {
        ExtendIfRepeated(ip, kind, at.day, at.extend);
      }
    }

    method MirrorFailure(ip: string, kind: AuthType, user: Option<string>, count: nat, now: real) returns (yes: bool)
      modifies this
      ensures yes == Fills(old(Abstract()), ip, kind, count, now)
      ensures Abstract() == Mirrored(old(Abstract()), ip, kind, user, count, now)
    {
      yes := NoteFailure(ip, kind, count, now);
      hide NotedIp, Fills, WithUserFailure;
      RecordUserFailure(kind, user, now);
    }

    method NoteFailure(ip: string, kind: AuthType, count: nat, now: real) returns (yes: bool)
      modifies this`failedAttempts, this`blockedIps
      ensures yes == Fills(old(Abstract()), ip, kind, count, now)
      ensures Abstract() == NotedIp(old(Abstract()), ip, kind, count, now)
    {
      hide Recent, Threshold;
      var mine := Prune(if (ip, kind) in failedAttempts then failedAttempts[(ip, kind)] else [], now, WINDOW);
      mine := mine + [now];
      yes := Max(count, |mine|) >= Threshold(kind);
      if yes {
        blockedIps := blockedIps[ip := now + BLOCK];
        failedAttempts := WithoutIp(failedAttempts, ip);
      } else {
        failedAttempts := failedAttempts[(ip, kind) := mine];
      }
    }

    method ExtendIfRepeated(ip: string, kind: AuthType, day: real, now: real)
      modifies this`blockedIps
      ensures Abstract() ==
        if Repeats(old(Abstract()), ip, kind, day) then Extended(old(Abstract()), ip, now) else old(Abstract())
    {
      if kind == Totp && |Recent(Times(rows, ip, kind), day, DAY)| >= EXTENDED_LOCKOUT {
        blockedIps := blockedIps[ip := now + EXTENDED_BLOCK];
      }
    }

    method RecordUserFailure(kind: AuthType, user: Option<string>, now: real)
      modifies this`usernameFailures, this`blockedUsernames
      ensures Abstract() == WithUserFailure(old(Abstract()), kind, user, now)
    {
      if !PerUser(kind) || user.None? {
        return;
      }
      var key := (kind, user.value);
      var times := Prune(if key in usernameFailures then usernameFailures[key] else [], now, UserWindow(kind));
      times := times + [now];
      if |times| >= UserThreshold(kind) {
        blockedUsernames := blockedUsernames[user.value := now + USER_BLOCK];
        usernameFailures := usernameFailures - {key};
      } else {
        usernameFailures := usernameFailures[key := times];
      }
    }

    method SweepStaleEntries(now: real)
      modifies this
      ensures Abstract() == Swept(old(Abstract()), now)
    {
      usernameFailures :=
        map k | k in usernameFailures && Recent(usernameFailures[k], now, UserWindow(k.0)) != [] :: usernameFailures[k];
      blockedUsernames := map u | u in blockedUsernames && now < blockedUsernames[u] :: blockedUsernames[u];
      SweepAddresses(now);
    }

    method SweepAddresses(now: real)
      modifies this`failedAttempts
      ensures failedAttempts == SweptTimes(old(failedAttempts), now)
    {
      hide Recent;
      ghost var was := failedAttempts;
      var left := failedAttempts.Keys;
      while left != {}
        invariant left <= was.Keys
        invariant forall k :: k in left ==> k in failedAttempts && failedAttempts[k] == was[k]
        invariant forall k :: k !in left ==> (k in failedAttempts <==> k in was && Recent(was[k], now, WINDOW) != [])
        invariant forall k :: k !in left && k in failedAttempts ==> failedAttempts[k] == Recent(was[k], now, WINDOW)
        decreases left
      {
        var k :| k in left;
        var kept := Prune(failedAttempts[k], now, WINDOW);
        failedAttempts := if kept == [] then failedAttempts - {k} else failedAttempts[k := kept];
        left := left - {k};
      }
    }

    method IsUsernameBlocked(username: string, q: Queries) returns (yes: bool)
      modifies this`blockedUsernames
      ensures yes == UserStillBlocked(old(Abstract()), Lower(username), q)
      ensures Abstract() == AfterUserLook(old(Abstract()), Lower(username), q)
    {
      var user := Lower(username);
      if q.loginUp && |Recent(UserTimes(rows, user, Login), q.login, USER_BLOCK)| >= UserThreshold(Login) {
        return true;
      }
      if q.totpUp && |Recent(UserTimes(rows, user, Totp), q.totp, USER_BLOCK)| >= UserThreshold(Totp) {
        return true;
      }
      if q.loginUp || q.totpUp || user !in blockedUsernames {
        return false;
      }
      if q.memory >= blockedUsernames[user] {
        blockedUsernames := blockedUsernames - {user};
        return false;
      }
      yes := true;
    }

    method UnblockIp(ip: string) returns (found: bool)
      modifies this`blockedIps
      ensures found == (ip in old(blockedIps)) && Abstract() == Unblocked(old(Abstract()), ip)
    {
      found := ip in blockedIps;
      blockedIps := blockedIps - {ip};
    }

    method BlockIpManually(ip: string, durationMinutes: nat, now: real)
      modifies this`blockedIps, this`failedAttempts
      ensures Abstract() == BlockedByHand(old(Abstract()), ip, durationMinutes, now)
    {
      blockedIps := blockedIps[ip := now + durationMinutes as real * 60.0];
      failedAttempts := map k | k in failedAttempts && k.0 != ip :: failedAttempts[k];
    }
  }

  function Unblocked(s: State, ip: string): State {
    s.(blocked := s.blocked - {ip})
  }

  /** A new process: what the table knows, and the blocks loaded from it. */
  function Restarted(s: State, loaded: map<string, real>): State {
    State(s.rows, map[], loaded, map[], map[])
  }

  function BlockedByHand(s: State, ip: string, minutes: nat, now: real): State {
    s.(blocked := s.blocked[ip := now + minutes as real * 60.0], failed := WithoutIp(s.failed, ip))
  }

  // -- windows -------------------------------------------------------------------------------

  lemma RecentAppend(q: seq<real>, t: real, now: real, window: real)
    ensures Recent(q + [t], now, window) == Recent(q, now, window) + if now - t <= window then [t] else []
  {
    assert (q + [t])[..|q|] == q;
  }

  /** Pruning changes nothing for a window that starts later. */
  lemma {:induction false} RecentInside(q: seq<real>, now: real, window: real, later: real, inner: real)
    requires now - window <= later - inner
    ensures Recent(Recent(q, now, window), later, inner) == Recent(q, later, inner)
    decreases |q|
  {
    if q != [] {
      var front, last := q[..|q| - 1], q[|q| - 1];
      RecentInside(front, now, window, later, inner);
      RecentAppend(Recent(front, now, window), last, later, inner);
      assert Recent(front, now, window) + [] == Recent(front, now, window);
    }
  }

  lemma {:induction false} RecentShrinks(q: seq<real>, now: real, window: real)
    ensures |Recent(q, now, window)| <= |q|
    decreases |q|
  {
    if q != [] {
      RecentShrinks(q[..|q| - 1], now, window);
    }
  }

  lemma TimesAppend(rows: seq<Row>, r: Row, ip: string, kind: AuthType)
    ensures Times(rows + [r], ip, kind) == Times(rows, ip, kind) + if r.ip == ip && r.kind == kind then [r.at] else []
  {
    assert (rows + [r])[..|rows|] == rows;
  }

  lemma OneMoreRow(rows: seq<Row>, r: Row, ip: string, kind: AuthType, now: real)
    ensures DbCount(rows + [r], ip, kind, now)
         == DbCount(rows, ip, kind, now) + if r.ip == ip && r.kind == kind && now - r.at <= WINDOW then 1 else 0
  {
    var q := Times(rows, ip, kind);
    TimesAppend(rows, r, ip, kind);
    if r.ip == ip && r.kind == kind {
      RecentAppend(q, r.at, now, WINDOW);
    } else {
      assert q + [] == q;
    }
    hide Times, Recent;
  }

  lemma {:induction false} KeptTimes(rows: seq<Row>, now: real, ip: string, kind: AuthType)
    ensures Times(Kept(rows, now), ip, kind) == Recent(Times(rows, ip, kind), now, DAY)
    decreases |rows|
  {
    if rows != [] {
      var front, r := rows[..|rows| - 1], rows[|rows| - 1];
      KeptTimes(front, now, ip, kind);
      TimesAppend(Kept(front, now), r, ip, kind);
      RecentAppend(Times(front, ip, kind), r.at, now, DAY);
      assert Kept(front, now) + [] == Kept(front, now);
      assert Times(front, ip, kind) + [] == Times(front, ip, kind);
      assert Recent(Times(front, ip, kind), now, DAY) + [] == Recent(Times(front, ip, kind), now, DAY);
    }
  }

  lemma {:induction false} OldTimes(rows: seq<Row>, ip: string, kind: AuthType, now: real)
    requires forall r :: r in rows && r.ip == ip ==> r.at < now - WINDOW
    ensures Recent(Times(rows, ip, kind), now, WINDOW) == []
    decreases |rows|
  {
    if rows != [] {
      var front, r := rows[..|rows| - 1], rows[|rows| - 1];
      assert r in rows && forall x :: x in front ==> x in rows;
      OldTimes(front, ip, kind, now);
      RecentAppend(Times(front, ip, kind), r.at, now, WINDOW);
      assert Times(front, ip, kind) + [] == Times(front, ip, kind);
    }
  }

  lemma {:induction false} TimesHold(rows: seq<Row>, r: Row)
    requires r in rows
    ensures r.at in Times(rows, r.ip, r.kind)
    decreases |rows|
  {
    if rows[|rows| - 1] != r {
      var front := rows[..|rows| - 1];
      assert rows == front + [rows[|rows| - 1]];
      TimesHold(front, r);
    }
  }

  lemma {:induction false} RecentHolds(q: seq<real>, t: real, now: real, window: real)
    requires t in q && now - t <= window
    ensures t in Recent(q, now, window)
    decreases |q|
  {
    if q[|q| - 1] != t {
      var front := q[..|q| - 1];
      assert q == front + [q[|q| - 1]];
      RecentHolds(front, t, now, window);
    }
  }

  // -- a memory that has forgotten ---------------------------------------------------------------

  /** Memory and table count the same failures of the address, read at one instant. */
  predicate SameCount(s: State, ip: string, kind: AuthType, now: real) {
    |Recent(Local(s, ip, kind), now, WINDOW)| == DbCount(s.rows, ip, kind, now)
  }

  ghost predicate Agree(s: State, ip: string, now: real) {
    forall kind :: SameCount(s, ip, kind, now)
  }

  /** Memory has nothing of the address that still matters at `now`. */
  predicate Forgotten(s: State, ip: string, kind: AuthType, now: real) {
    Recent(Local(s, ip, kind), now, WINDOW) == []
  }

  predicate RowsGone(rows: seq<Row>, ip: string, now: real) {
    forall r :: r in rows && r.ip == ip ==> r.at + WINDOW < now
  }

  lemma GoneRowsAgree(s: State, ip: string, now: real, later: real)
    requires RowsGone(s.rows, ip, now) && now <= later && forall kind :: Forgotten(s, ip, kind, now)
    ensures Agree(s, ip, later)
  {
    forall kind ensures SameCount(s, ip, kind, later) {
      assert Forgotten(s, ip, kind, now);
      RecentInside(Local(s, ip, kind), now, WINDOW, later, WINDOW);
      OldTimes(s.rows, ip, kind, later);
    }
  }

  lemma AgreeingRowsAreGone(s: State, ip: string, now: real)
    requires Agree(s, ip, now) && forall kind :: Forgotten(s, ip, kind, now)
    ensures RowsGone(s.rows, ip, now)
  {
    forall r | r in s.rows && r.ip == ip ensures r.at + WINDOW < now {
      assert SameCount(s, ip, r.kind, now) && Forgotten(s, ip, r.kind, now);
      if now - r.at <= WINDOW {
        TimesHold(s.rows, r);
        RecentHolds(Times(s.rows, ip, r.kind), r.at, now, WINDOW);
        assert false;
      }
    }
  }

  /** A memory that has forgotten an address counts the same as the table, from now on and until
      another failure, exactly when the address's rows have left the window. */
  lemma ForgottenAgreesIff(s: State, ip: string, now: real)
    requires forall kind :: Forgotten(s, ip, kind, now)
    ensures (forall later :: now <= later ==> Agree(s, ip, later)) <==> RowsGone(s.rows, ip, now)
  {
    if RowsGone(s.rows, ip, now) {
      forall later | now <= later ensures Agree(s, ip, later) {
        GoneRowsAgree(s, ip, now, later);
      }
    }
    if forall later :: now <= later ==> Agree(s, ip, later) {
      assert Agree(s, ip, now);
      AgreeingRowsAreGone(s, ip, now);
    }
  }

  /** A block by the address's own failures has emptied its memory. Lifting it leaves the two
      counts in agreement exactly when none of the address's failures is still in the window. */
  lemma UnblockAgreesIff(s: State, ip: string, now: real)
    requires forall kind :: Forgotten(s, ip, kind, now)
    ensures (forall later :: now <= later ==> Agree(Unblocked(s, ip), ip, later)) <==> RowsGone(s.rows, ip, now)
  {
    assert forall kind :: Forgotten(s, ip, kind, now) ==> Forgotten(Unblocked(s, ip), ip, kind, now);
    ForgottenAgreesIff(Unblocked(s, ip), ip, now);
  }

  /** After lifting, the next call blocks the address again exactly if the table then lacks no
      more than this failure; the memory knows of this one only. */
  lemma UnblockedIsBlockedAgain(
    s: State, ip: string, kind: AuthType, user: Option<string>, at: Readings, cleanup: bool, now: real)
    requires Forgotten(s, ip, kind, now) && now <= at.mirror
    requires at.since - at.row <= WINDOW
    ensures var t := Unblocked(s, ip);
      && |Mine(t, ip, kind, at.mirror)| == 1
      && (NowBlocked(t, ip, kind, user, at, Counted(cleanup))
          <==> DbCount(s.rows, ip, kind, at.since) >= Threshold(kind) - 1)
  {
    var t, r := Unblocked(s, ip), Row(ip, kind, StoredUser(user), at.row);
    OneMoreRow(s.rows, r, ip, kind, at.since);
    assert Local(t, ip, kind) == Local(s, ip, kind);
    OnlyThisOne(s, ip, kind, now, at.mirror);
    assert AfterLook(t, ip, at.look) == t && !StillBlocked(t, ip, at.look);
    hide Recent, Times, Kept, StoredUser, AfterLook, StillBlocked, DbCount, Unblocked, Forgotten;
    var rows := DbRecorded(t.rows, r, at, Counted(cleanup)).0;
    assert Mine(t.(rows := rows), ip, kind, at.mirror) == Mine(s, ip, kind, at.mirror);
  }

  lemma OnlyThisOne(s: State, ip: string, kind: AuthType, now: real, later: real)
    requires Forgotten(s, ip, kind, now) && now <= later
    ensures |Mine(s, ip, kind, later)| == 1
  {
    RecentInside(Local(s, ip, kind), now, WINDOW, later, WINDOW);
  }

  /** A block set by hand forgets the address's failures in memory but not in the table. When
      it has run out, at every later moment the two counts agree again, exactly if it lasted
      until all of the address's failures had left the window. */
  lemma HandBlockAgreesIff(s: State, ip: string, minutes: nat, now: real)
    ensures var t, end := BlockedByHand(s, ip, minutes, now), now + minutes as real * 60.0;
      (forall later :: end <= later ==> Agree(AfterLook(t, ip, later), ip, later)) <==> RowsGone(s.rows, ip, end)
    ensures var t, end := BlockedByHand(s, ip, minutes, now), now + minutes as real * 60.0;
      forall later :: StillBlocked(t, ip, later) <==> later < end
  {
    var t, end := BlockedByHand(s, ip, minutes, now), now + minutes as real * 60.0;
    assert forall kind :: Forgotten(t, ip, kind, end);
    ForgottenAgreesIff(t, ip, end);
    assert forall later, kind :: SameCount(AfterLook(t, ip, later), ip, kind, later) == SameCount(t, ip, kind, later);
    assert forall later :: Agree(AfterLook(t, ip, later), ip, later) <==> Agree(t, ip, later);
  }

  /** A restart loads the running blocks and no failures, so the two counts of an address agree
      again exactly when none of its failures is still in the window. */
  lemma RestartAgreesIff(s: State, loaded: map<string, real>, ip: string, now: real)
    ensures (forall later :: now <= later ==> Agree(Restarted(s, loaded), ip, later)) <==> RowsGone(s.rows, ip, now)
    ensures forall later :: StillBlocked(Restarted(s, loaded), ip, later) <==> ip in loaded && later < loaded[ip]
  {
    assert forall kind :: Forgotten(Restarted(s, loaded), ip, kind, now);
    ForgottenAgreesIff(Restarted(s, loaded), ip, now);
  }

  // -- half an outage --------------------------------------------------------------------------------

  /** Failures that fill an account's window in memory block it there. That block is passed over
      exactly if a query is answered and none that is finds enough failures: with one query
      unanswered the other can let through what memory, asked alone, would not. */
  lemma HalfAnOutagePassesOver(s: State, user: string, now: real, q: Queries)
    requires |UserMine(s, Login, user, now)| >= UserThreshold(Login) && q.memory < now + USER_BLOCK
    ensures var t := WithUserFailure(s, Login, Some(user), now);
      && UserStillBlocked(t, user, q.(loginUp := false, totpUp := false))
      && (!UserStillBlocked(t, user, q) <==>
            && (q.loginUp || q.totpUp)
            && (q.loginUp ==> !TableBlocks(s.rows, user, Login, q.login))
            && (q.totpUp ==> !TableBlocks(s.rows, user, Totp, q.totp)))
  {
  }
}
