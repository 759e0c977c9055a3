/** Calls read the clock before they take the limiter's lock, so they may enter in another order
    than their readings. What is left of the limiter's guarantee, and for how much disorder. */
module RateLimitOrder {
  import opened Wrappers
  import opened Counting
  import opened RateLimit

  // -- without eviction no order is needed --------------------------------------------------------

  /** Any two grants, in whatever order their readings are, leave room for all between them. */
  predicate Spread(c: Config, g: seq<real>)
    requires c.interval > 0.0
  {
    forall i, j :: 0 <= i < j < |g| ==> (j - i + 1) as real <= c.Burst() + c.Share(g[i], g[j])
  }

  /** An entry pays for every grant so far. */
  ghost predicate Pays(c: Config, e: Option<Entry>, g: seq<real>)
    requires c.interval > 0.0
  {
    && Spread(c, g)
    && match e
       case Some(entry) => 0.0 <= entry.tokens && LeavesAtLeast(c, g, entry.at, entry.tokens)
       case None => g == []
  }

  lemma GrantPays(c: Config, e: Entry, g: seq<real>, now: real)
    requires c.interval > 0.0 && Pays(c, Some(e), g) && Level(c, e, now) >= 1.0
    ensures Pays(c, Some(Entry(Level(c, e, now) - 1.0, now)), g + [now])
  {
    var h, x := g + [now], Level(c, e, now) - 1.0;
    assert c.Share(now, now) == 0.0 / c.interval == 0.0;
    forall i | 0 <= i < |g|
      ensures x <= c.Burst() - (|h| - i) as real + c.Share(h[i], now)
      ensures (|g| - i + 1) as real <= c.Burst() + c.Share(h[i], now)
    {
      ShareAdds(c, g[i], e.at, now);
      assert e.tokens <= c.Burst() - (|g| - i) as real + c.Share(g[i], e.at);
      assert (|h| - i) as real == (|g| - i) as real + 1.0;
    }
    hide Level;
    forall i, j | 0 <= i < j < |h| ensures (j - i + 1) as real <= c.Burst() + c.Share(h[i], h[j]) {
      assert j < |g| ==> h[i] == g[i] && h[j] == g[j];
    }
  }

  lemma FirstPays(c: Config, now: real)
    requires c.interval > 0.0
    ensures Level(c, Entry(c.Burst(), now), now) == c.Burst()
    ensures Pays(c, Some(Entry(c.Burst() - 1.0, now)), [now])
  {
    assert c.Share(now, now) == 0.0 / c.interval == 0.0;
  }

  lemma ClaimPays(c: Config, table: Table, call: Call, vehicle: string, g: seq<real>)
    requires c.interval > 0.0 && Pays(c, EntryOf(table, vehicle), g)
    ensures var (t, reply) := Claim(c, table, call.vehicle, call.now);
      Pays(c, EntryOf(t, vehicle), g + FirstGrant(call, reply, vehicle))
  {
    var (t, reply) := Claim(c, table, call.vehicle, call.now);
    if FirstGrant(call, reply, vehicle) == [] {
      assert g + [] == g;
    } else if vehicle in table {
      GrantPays(c, table[vehicle], g, call.now);
    } else {
      FirstPays(c, call.now);
      assert g + [call.now] == [call.now];
    }
  }

  lemma {:induction false} ReplyPerClaim(c: Config, table: Table, calls: seq<Call>)
    ensures |UnboundedReplies(c, table, calls)| == |calls|
    decreases |calls|
  {
    if calls != [] {
      ReplyPerClaim(c, Claim(c, table, calls[0].vehicle, calls[0].now).0, calls[1..]);
    }
  }

  lemma {:induction false} RunPays(c: Config, table: Table, calls: seq<Call>, vehicle: string, g: seq<real>)
    requires c.interval > 0.0 && Pays(c, EntryOf(table, vehicle), g)
    ensures |UnboundedReplies(c, table, calls)| == |calls|
    ensures Spread(c, g + GrantTimes(calls, UnboundedReplies(c, table, calls), vehicle))
    decreases |calls|
  {
    ReplyPerClaim(c, table, calls);
    if calls == [] {
      assert g + [] == g;
    } else {
      var (t, reply) := Claim(c, table, calls[0].vehicle, calls[0].now);
      var first, rest := FirstGrant(calls[0], reply, vehicle), UnboundedReplies(c, t, calls[1..]);
      ClaimPays(c, table, calls[0], vehicle, g);
      hide Pays, Claim, FirstGrant;
      RunPays(c, t, calls[1..], vehicle, g + first);
      assert UnboundedReplies(c, table, calls) == [reply] + rest;
      assert ([reply] + rest)[1..] == rest;
      Regroup(g, first, GrantTimes(calls[1..], rest, vehicle));
    }
  }

  lemma ShareWithin(c: Config, a: real, b: real, s: real, t: real)
    requires c.interval > 0.0 && b - a <= t - s
    ensures c.Share(a, b) <= c.Share(s, t)
  {
    var inv := 1.0 / c.interval;
    assert c.Share(a, b) == (b - a) * inv && c.Share(s, t) == (t - s) * inv;
  }

  lemma SpreadBound(c: Config, g: seq<real>, s: real, t: real)
    requires c.interval > 0.0 && Spread(c, g) && s <= t
    ensures |GrantsWithin(g, s, t)| as real <= c.Burst() + c.Share(s, t)
  {
    var ids := GrantsWithin(g, s, t);
    ShareGrows(c, s, s, t, t);
    if ids != {} {
      var lo, hi := FirstAndLast(ids);
      SetSpan(ids, lo, hi + 1);
      if lo < hi {
        ShareWithin(c, g[lo], g[hi], s, t);
      }
    }
  }

  /** On buckets that are never evicted: whatever the order of the readings, no window of time
      holds more than burst + length / interval grants of a vehicle. */
  lemma AnyOrderWindowBound(c: Config, calls: seq<Call>, vehicle: string, s: real, t: real)
    requires c.interval > 0.0 && s <= t
    ensures |UnboundedReplies(c, map[], calls)| == |calls|
    ensures |GrantsWithin(GrantTimes(calls, UnboundedReplies(c, map[], calls), vehicle), s, t)| as real
         <= c.Burst() + c.Share(s, t)
  {
    RunPays(c, map[], calls, vehicle, []);
    var g := GrantTimes(calls, UnboundedReplies(c, map[], calls), vehicle);
    assert [] + g == g;
    SpreadBound(c, g, s, t);
  }

  // -- with eviction one interval of disorder is harmless ---------------------------------------------

  function Later(a: real, b: real): real {
    if a < b then b else a
  }

  /** No reading is more than `lag` behind the latest before it. */
  predicate Lagging(calls: seq<Call>, latest: real, lag: real)
    decreases |calls|
  {
    calls == [] || (latest - lag <= calls[0].now && Lagging(calls[1..], Later(latest, calls[0].now), lag))
  }

  /** The hard cap does not fire. */
  predicate StaysSmall(c: Config, table: Table, calls: seq<Call>)
    decreases |calls|
  {
    calls == [] ||
    (var (t, reply) := Claim(c, table, calls[0].vehicle, calls[0].now);
     && (reply == Granted ==> |DropStale(c, t, calls[0].now)| <= c.maxTracked)
     && StaysSmall(c, AcquireStep(c, table, calls[0].vehicle, calls[0].now).0, calls[1..]))
  }

  /** One vehicle in both tables: the same entry, or one too old to matter and none. */
  predicate Trails(c: Config, e: Option<Entry>, u: Option<Entry>, latest: real) {
    && (u.Some? ==> 0.0 <= u.value.tokens)
    && (e == u || (e.None? && u.value.at < c.Cutoff(latest)))
  }

  ghost predicate TableTrails(c: Config, table: Table, unbounded: Table, latest: real) {
    forall k :: Trails(c, EntryOf(table, k), EntryOf(unbounded, k), latest)
  }

  lemma OldIsFull(c: Config, e: Entry, latest: real, now: real)
    requires c.interval > 0.0 && 0.0 <= e.tokens && e.at < c.Cutoff(latest) && latest - c.interval <= now
    ensures Level(c, e, now) == c.Burst()
  {
    assert e.at < now - c.interval * c.Burst();
    DividesOut(now - e.at, c.Burst(), c.interval);
  }

  /** The claim itself is the same on both tables. */
  lemma SameClaim(c: Config, table: Table, unbounded: Table, latest: real, vehicle: string, now: real)
    requires c.interval > 0.0 && latest - c.interval <= now
    requires Trails(c, EntryOf(table, vehicle), EntryOf(unbounded, vehicle), latest)
    ensures var (t, reply), (u, answer) := Claim(c, table, vehicle, now), Claim(c, unbounded, vehicle, now);
      && reply == answer
      && (if reply == Granted then
            && vehicle in t && vehicle in u && t[vehicle] == u[vehicle] && 0.0 <= u[vehicle].tokens
            && t == table[vehicle := t[vehicle]] && u == unbounded[vehicle := u[vehicle]]
          else t == table && u == unbounded)
  {
    FirstPays(c, now);
    if vehicle !in table && vehicle in unbounded {
      OldIsFull(c, unbounded[vehicle], latest, now);
    }
  }

  lemma StepTrails(c: Config, table: Table, unbounded: Table, latest: real, call: Call)
    requires c.interval > 0.0 && latest - c.interval <= call.now && TableTrails(c, table, unbounded, latest)
    requires StaysSmall(c, table, [call])
    ensures AcquireStep(c, table, call.vehicle, call.now).1 == Claim(c, unbounded, call.vehicle, call.now).1
    ensures TableTrails(c, AcquireStep(c, table, call.vehicle, call.now).0,
      Claim(c, unbounded, call.vehicle, call.now).0, Later(latest, call.now))
  {
    var Call(v, now) := call;
    var after := Later(latest, now);
    assert Trails(c, EntryOf(table, v), EntryOf(unbounded, v), latest);
    SameClaim(c, table, unbounded, latest, v, now);
    CutoffAdvances(c, latest, after);
    CutoffAdvances(c, now, after);
    var t, u := AcquireStep(c, table, v, now).0, Claim(c, unbounded, v, now).0;
    assert t == table || t == DropStale(c, Claim(c, table, v, now).0, now);
    hide Claim, AcquireStep, StaysSmall;
    forall k ensures Trails(c, EntryOf(t, k), EntryOf(u, k), after) {
      assert Trails(c, EntryOf(table, k), EntryOf(unbounded, k), latest);
    }
  }

  lemma {:induction false} LaggingRunIsUnbounded(
      c: Config, table: Table, unbounded: Table, latest: real, calls: seq<Call>)
    requires c.interval > 0.0 && TableTrails(c, table, unbounded, latest)
    requires Lagging(calls, latest, c.interval) && StaysSmall(c, table, calls)
    ensures Replies(c, table, calls) == UnboundedReplies(c, unbounded, calls)
    decreases |calls|
  {
    if calls != [] {
      var Call(v, now) := calls[0];
      StepTrails(c, table, unbounded, latest, calls[0]);
      var t, u := AcquireStep(c, table, v, now).0, Claim(c, unbounded, v, now).0;
      hide AcquireStep, Claim, TableTrails;
      LaggingRunIsUnbounded(c, t, u, Later(latest, now), calls[1..]);
    }
  }

  /** What a vehicle is granted in a run of calls whose readings lag by at most `lag`. */
  ghost predicate WithinBound(
    c: Config, calls: seq<Call>, clock: real, lag: real, vehicle: string, s: real, t: real)
    requires c.interval > 0.0
  {
    Lagging(calls, clock, lag) && StaysSmall(c, map[], calls) && s <= t ==>
      var replies := Replies(c, map[], calls);
      && |replies| == |calls|
      && |GrantsWithin(GrantTimes(calls, replies, vehicle), s, t)| as real <= c.Burst() + c.Share(s, t)
  }

  lemma {:induction false} LessLag(calls: seq<Call>, latest: real, lag: real, more: real)
    requires Lagging(calls, latest, lag) && lag <= more
    ensures Lagging(calls, latest, more)
    decreases |calls|
  {
    if calls != [] {
      LessLag(calls[1..], Later(latest, calls[0].now), lag, more);
    }
  }

  lemma LagWithinBound(
      c: Config, calls: seq<Call>, clock: real, lag: real, vehicle: string, s: real, t: real)
    requires c.interval > 0.0 && lag <= c.interval
    ensures WithinBound(c, calls, clock, lag, vehicle, s, t)
  {
    if Lagging(calls, clock, lag) && StaysSmall(c, map[], calls) && s <= t {
      LessLag(calls, clock, lag, c.interval);
      LaggingRunIsUnbounded(c, map[], map[], clock, calls);
      AnyOrderWindowBound(c, calls, vehicle, s, t);
    }
  }

  /** The limiter as it is meant, which grants exactly if every window that ends with the grant
      is within the bound. */
  ghost function MeantReplies(c: Config, h: History, calls: seq<Call>): seq<Reply>
    requires c.interval > 0.0
    decreases |calls|
  {
    if calls == [] then []
    else
      var Call(v, now) := calls[0];
      var g := GrantsOf(h, v);
      if Admissible(c, g, now) then [Granted] + MeantReplies(c, h[v := g + [now]], calls[1..])
      else [Suppressed(now - Last(g))] + MeantReplies(c, h, calls[1..])
  }

  /** Each entry is the bucket of its vehicle's grants, in the order they were given. */
  ghost predicate Matches(c: Config, table: Table, h: History)
    requires c.interval > 0.0
  {
    forall k :: MatchesOne(c, EntryOf(table, k), GrantsOf(h, k))
  }

  ghost predicate MatchesOne(c: Config, e: Option<Entry>, g: seq<real>)
    requires c.interval > 0.0
  {
    if g == [] then e == None else e == Some(Entry(TokensAfter(c, g), Last(g)))
  }

  lemma MatchingClaim(c: Config, table: Table, h: History, vehicle: string, now: real)
    requires c.interval > 0.0 && Matches(c, table, h)
    ensures ClaimsExactly(c, table, GrantsOf(h, vehicle), vehicle, now)
    ensures Admissible(c, GrantsOf(h, vehicle), now) ==>
      Matches(c, Claim(c, table, vehicle, now).0, h[vehicle := GrantsOf(h, vehicle) + [now]])
  {
    var g := GrantsOf(h, vehicle);
    assert MatchesOne(c, EntryOf(table, vehicle), g);
    if g != [] {
      TrackedClaim(c, table, g, vehicle, now);
    } else {
      UntrackedClaim(c, table, g, vehicle, now);
    }
    if Admissible(c, g, now) {
      var t, h' := Claim(c, table, vehicle, now).0, h[vehicle := g + [now]];
      assert t == table[vehicle := Entry(TokensAfter(c, g + [now]), now)];
      hide Claim, TokensAfter;
      forall k ensures MatchesOne(c, EntryOf(t, k), GrantsOf(h', k)) {
        assert MatchesOne(c, EntryOf(table, k), GrantsOf(h, k));
      }
    }
  }

  lemma {:induction false} UnboundedIsMeant(c: Config, table: Table, h: History, calls: seq<Call>)
    requires c.interval > 0.0 && Matches(c, table, h)
    ensures UnboundedReplies(c, table, calls) == MeantReplies(c, h, calls)
    decreases |calls|
  {
    if calls != [] {
      var Call(v, now) := calls[0];
      MatchingClaim(c, table, h, v, now);
      var g := GrantsOf(h, v);
      hide Matches, Claim, Admissible;
      if Admissible(c, g, now) {
        UnboundedIsMeant(c, Claim(c, table, v, now).0, h[v := g + [now]], calls[1..]);
      } else {
        UnboundedIsMeant(c, table, h, calls[1..]);
      }
    }
  }

  /** Whatever the order of the readings, as long as none lags by more than one interval and the
      cap does not fire, the limiter replies as it is meant to. */
  lemma LaggingRunIsExact(c: Config, calls: seq<Call>, clock: real)
    requires c.interval > 0.0 && Lagging(calls, clock, c.interval) && StaysSmall(c, map[], calls)
    ensures Replies(c, map[], calls) == MeantReplies(c, map[], calls)
  {
    LaggingRunIsUnbounded(c, map[], map[], clock, calls);
    UnboundedIsMeant(c, map[], map[], calls);
  }

  // -- and more is not ------------------------------------------------------------------------------------

  function Same<T>(k: nat, x: T): seq<T> {
    if k == 0 then [] else [x] + Same(k - 1, x)
  }

  lemma {:induction false} SameIsSame<T>(k: nat, x: T)
    ensures |Same(k, x)| == k && forall i :: 0 <= i < k ==> Same(k, x)[i] == x
  {
    if k > 0 {
      SameIsSame(k - 1, x);
    }
  }

  /** The table after k grants at one instant, from `x` tokens on. */
  function Spent(table: Table, vehicle: string, at: real, k: nat, x: real): Table {
    if k == 0 then table else table[vehicle := Entry(x - k as real, at)]
  }

  predicate AllFresh(c: Config, table: Table, at: real) {
    forall j :: j in table ==> table[j].at >= c.Cutoff(at)
  }

  lemma LevelNow(c: Config, x: real, at: real)
    requires c.interval > 0.0 && x <= c.Burst()
    ensures Level(c, Entry(x, at), at) == x && c.Cutoff(at) < at
  {
    assert c.Share(at, at) == 0.0 / c.interval == 0.0;
    assert c.interval * (c.Burst() + 1.0) > 0.0;
  }

  lemma AllKept(c: Config, table: Table, at: real)
    requires AllFresh(c, table, at)
    ensures DropStale(c, table, at) == table
  {
  }

  /** Whether the bucket has `x` tokens at an instant: as stored then, or untouched. */
  predicate HasTokens(c: Config, table: Table, vehicle: string, at: real, x: real) {
    if vehicle in table then table[vehicle] == Entry(x, at) else x == c.Burst()
  }

  lemma OneGrant(c: Config, table: Table, vehicle: string, at: real, x: real)
    requires c.interval > 0.0 && 1.0 <= x <= c.Burst() && AllFresh(c, table, at)
    requires HasTokens(c, table, vehicle, at, x) && |table.Keys + {vehicle}| <= c.maxTracked
    ensures var t := table[vehicle := Entry(x - 1.0, at)];
      && Claim(c, table, vehicle, at) == (t, Granted)
      && DropStale(c, t, at) == t && |t| <= c.maxTracked && AllFresh(c, t, at)
      && AcquireStep(c, table, vehicle, at) == (t, Granted)
  {
    var t := table[vehicle := Entry(x - 1.0, at)];
    ClaimNow(c, table, vehicle, at, x);
    FreshNow(c, table, vehicle, at, x - 1.0);
    AllKept(c, t, at);
    hide Claim, AllFresh, DropStale, HasTokens;
    assert t.Keys == table.Keys + {vehicle} && |t| == |t.Keys|;
  }

  lemma ClaimNow(c: Config, table: Table, vehicle: string, at: real, x: real)
    requires c.interval > 0.0 && 1.0 <= x <= c.Burst() && HasTokens(c, table, vehicle, at, x)
    ensures Claim(c, table, vehicle, at) == (table[vehicle := Entry(x - 1.0, at)], Granted)
  {
    LevelNow(c, x, at);
    hide Level;
  }

  lemma FreshNow(c: Config, table: Table, vehicle: string, at: real, tokens: real)
    requires c.interval > 0.0 && AllFresh(c, table, at)
    ensures AllFresh(c, table[vehicle := Entry(tokens, at)], at)
  {
    LevelNow(c, c.Burst(), at);
  }

  /** The first of some calls, granted in a table where everything stays. */
  lemma FirstOfCalls(c: Config, table: Table, t: Table, calls: seq<Call>)
    requires calls != []
    requires Claim(c, table, calls[0].vehicle, calls[0].now) == (t, Granted)
    requires AcquireStep(c, table, calls[0].vehicle, calls[0].now) == (t, Granted)
    requires DropStale(c, t, calls[0].now) == t && |t| <= c.maxTracked
    ensures Replies(c, table, calls) == [Granted] + Replies(c, t, calls[1..])
    ensures StaysSmall(c, t, calls[1..]) ==> StaysSmall(c, table, calls)
  {
  }

  lemma {:induction false} Repeated(
      c: Config, table: Table, vehicle: string, at: real, k: nat, x: real, rest: seq<Call>)
    requires c.interval > 0.0 && k as real <= x <= c.Burst() && AllFresh(c, table, at)
    requires HasTokens(c, table, vehicle, at, x) && |table.Keys + {vehicle}| <= c.maxTracked
    ensures var calls, after := Same(k, Call(vehicle, at)) + rest, Spent(table, vehicle, at, k, x);
      && Replies(c, table, calls) == Same(k, Granted) + Replies(c, after, rest)
      && (StaysSmall(c, after, rest) ==> StaysSmall(c, table, calls))
    decreases k
  {
    hide Claim, AcquireStep, DropStale, AllFresh, Replies, StaysSmall;
    var calls := Same(k, Call(vehicle, at)) + rest;
    if k == 0 {
      assert calls == rest;
      assert Same(0, Granted) + Replies(c, table, rest) == Replies(c, table, rest);
    } else {
      OneGrant(c, table, vehicle, at, x);
      var t, fewer := table[vehicle := Entry(x - 1.0, at)], Same(k - 1, Call(vehicle, at)) + rest;
      assert calls[0] == Call(vehicle, at) && calls[1..] == fewer;
      assert t.Keys + {vehicle} == table.Keys + {vehicle};
      FirstOfCalls(c, table, t, calls);
      Repeated(c, t, vehicle, at, k - 1, x - 1.0, rest);
      SpentOneByOne(table, vehicle, at, k, x);
      hide Spent, HasTokens;
      var after := Replies(c, Spent(table, vehicle, at, k, x), rest);
      assert [Granted] + (Same(k - 1, Granted) + after) == Same(k, Granted) + after;
    }
  }

  lemma SpentOneByOne(table: Table, vehicle: string, at: real, k: nat, x: real)
    requires k > 0
    ensures Spent(table[vehicle := Entry(x - 1.0, at)], vehicle, at, k - 1, x - 1.0) == Spent(table, vehicle, at, k, x)
  {
  }

  lemma {:induction false} RepeatedTimes(
      vehicle: string, at: real, k: nat, rest: seq<Call>, replies: seq<Reply>)
    requires |replies| == |rest|
    ensures var calls, all := Same(k, Call(vehicle, at)) + rest, Same(k, Granted) + replies;
      && |calls| == |all|
      && GrantTimes(calls, all, vehicle) == Same(k, at) + GrantTimes(rest, replies, vehicle)
    decreases k
  {
    var calls, all := Same(k, Call(vehicle, at)) + rest, Same(k, Granted) + replies;
    SameIsSame(k, Call(vehicle, at));
    SameIsSame(k, Granted);
    if k == 0 {
      assert calls == rest && all == replies;
    } else {
      RepeatedTimes(vehicle, at, k - 1, rest, replies);
      assert calls[1..] == Same(k - 1, Call(vehicle, at)) + rest && all[1..] == Same(k - 1, Granted) + replies;
      assert calls[0] == Call(vehicle, at) && all[0] == Granted;
      Regroup([at], Same(k - 1, at), GrantTimes(rest, replies, vehicle));
    }
  }

  lemma {:induction false} RepeatedLags(vehicle: string, at: real, k: nat, rest: seq<Call>, latest: real, lag: real)
    requires latest - lag <= at <= latest && Lagging(rest, latest, lag)
    ensures Lagging(Same(k, Call(vehicle, at)) + rest, latest, lag)
    decreases k
  {
    var calls := Same(k, Call(vehicle, at)) + rest;
    if k == 0 {
      assert calls == rest;
    } else {
      assert calls[1..] == Same(k - 1, Call(vehicle, at)) + rest;
      RepeatedLags(vehicle, at, k - 1, rest, latest, lag);
    }
  }

  /** A burst at the start, one call of another vehicle that evicts the first one's entry, and
      another burst whose readings lie before the bucket is full again. */
  function Overtaken(n: nat, full: real, late: real): seq<Call> {
    Same(n, Call("v", 0.0)) + ([Call("w", late)] + (Same(n, Call("v", full)) + []))
  }

  lemma OvertakenLags(n: nat, full: real, late: real, lag: real)
    requires 0.0 <= full <= late && late - lag <= full && 0.0 <= lag
    ensures Lagging(Overtaken(n, full, late), 0.0, lag)
  {
    RepeatedLags("v", full, n, [], late, lag);
    var rest := [Call("w", late)] + (Same(n, Call("v", full)) + []);
    assert rest[1..] == Same(n, Call("v", full)) + [];
    RepeatedLags("v", 0.0, n, rest, 0.0, lag);
  }

  lemma OtherVehicleEvicts(c: Config, late: real, rest: seq<Call>)
    requires c.interval > 0.0 && c.maxTracked >= 2 && 0.0 < c.Cutoff(late)
    ensures var table, after, calls := map["v" := Entry(0.0, 0.0)],
        map["w" := Entry(c.Burst() - 1.0, late)], [Call("w", late)] + rest;
      && Replies(c, table, calls) == [Granted] + Replies(c, after, rest)
      && (StaysSmall(c, after, rest) ==> StaysSmall(c, table, calls))
  {
    var table, after, calls := map["v" := Entry(0.0, 0.0)],
      map["w" := Entry(c.Burst() - 1.0, late)], [Call("w", late)] + rest;
    LevelNow(c, c.Burst(), late);
    assert calls[1..] == rest;
    var t := table["w" := Entry(c.Burst() - 1.0, late)];
    assert Claim(c, table, "w", late) == (t, Granted);
    assert DropStale(c, t, late) == after;
    assert |after| == 1;
  }

  lemma OvertakenRun(c: Config, n: nat, full: real, late: real)
    requires c.interval > 0.0 && c.maxTracked >= 2 && n as real == c.Burst() && 0.0 < c.Cutoff(late)
    requires full <= late
    ensures var calls := Overtaken(n, full, late);
      && StaysSmall(c, map[], calls)
      && Replies(c, map[], calls) == Same(n, Granted) + ([Granted] + (Same(n, Granted) + []))
  {
    var third := Same(n, Call("v", full)) + [];
    var second := [Call("w", late)] + third;
    var one := map["w" := Entry(c.Burst() - 1.0, late)];
    assert AllFresh(c, one, full) && AllFresh(c, map[], 0.0) by {
      CutoffAdvances(c, full, late);
      LevelNow(c, 0.0, late);
    }
    hide AllFresh;
    Repeated(c, one, "v", full, n, c.Burst(), []);
    hide Replies;
    assert Replies(c, Spent(one, "v", full, n, c.Burst()), []) == [] by {
      NoReplies(c, Spent(one, "v", full, n, c.Burst()));
    }
    OtherVehicleEvicts(c, late, third);
    Repeated(c, map[], "v", 0.0, n, c.Burst(), second);
    assert Spent(map[], "v", 0.0, n, c.Burst()) == map["v" := Entry(0.0, 0.0)];
  }

  lemma NoReplies(c: Config, table: Table)
    ensures Replies(c, table, []) == []
  {
  }

  lemma OvertakenTimes(n: nat, full: real, late: real)
    ensures var replies := Same(n, Granted) + ([Granted] + (Same(n, Granted) + []));
      && |replies| == |Overtaken(n, full, late)|
      && GrantTimes(Overtaken(n, full, late), replies, "v") == Same(n, 0.0) + (Same(n, full) + [])
  {
    RepeatedTimes("v", full, n, [], []);
    var last, third := Same(n, Granted) + [], Same(n, Call("v", full)) + [];
    var middle, second := [Granted] + last, [Call("w", late)] + third;
    assert middle[1..] == last && second[1..] == third;
    assert [] + GrantTimes(third, last, "v") == GrantTimes(third, last, "v");
    RepeatedTimes("v", 0.0, n, second, middle);
  }

  lemma OvertakenBreaks(c: Config, n: nat, full: real, late: real)
    requires c.interval > 0.0 && c.maxTracked >= 2 && n as real == c.Burst()
    requires 0.0 <= full < c.interval * c.Burst() && full <= late && 0.0 < c.Cutoff(late)
    ensures StaysSmall(c, map[], Overtaken(n, full, late))
    ensures !WithinBound(c, Overtaken(n, full, late), 0.0, late - full, "v", 0.0, full)
  {
    OvertakenLags(n, full, late, late - full);
    OvertakenRun(c, n, full, late);
    OvertakenTimes(n, full, late);
    AllWithin(n, full);
    LessThanBurst(c, full);
    var calls := Overtaken(n, full, late);
    var replies := Replies(c, map[], calls);
    assert |GrantsWithin(GrantTimes(calls, replies, "v"), 0.0, full)| == 2 * n;
    hide StaysSmall, Lagging, GrantsWithin, Replies, GrantTimes, Overtaken, Same;
    assert (2 * n) as real == n as real + n as real;
  }

  lemma LessThanBurst(c: Config, full: real)
    requires c.interval > 0.0 && full < c.interval * c.Burst()
    ensures c.Share(0.0, full) < c.Burst()
  {
    var share := c.Share(0.0, full);
    assert share * c.interval == full;
    assert (c.Burst() - share) * c.interval == c.interval * c.Burst() - full;
  }

  lemma AllWithin(n: nat, full: real)
    requires 0.0 <= full
    ensures var g := Same(n, 0.0) + (Same(n, full) + []);
      |GrantsWithin(g, 0.0, full)| == 2 * n
  {
    var g := Same(n, 0.0) + (Same(n, full) + []);
    SameIsSame(n, 0.0);
    SameIsSame(n, full);
    RangeMeans(0, 2 * n);
    assert GrantsWithin(g, 0.0, full) == Range(0, 2 * n);
  }

  /** The window bound holds in every run whose readings lag by at most `lag`, with eviction and
      while the cap does not fire, exactly if that is at most one interval. */
  lemma LagIsHarmlessIff(c: Config, lag: real)
    requires c.interval > 0.0 && c.maxTracked >= 2
    ensures (forall calls, clock, vehicle, s, t :: WithinBound(c, calls, clock, lag, vehicle, s, t))
       <==> lag <= c.interval
  {
    if lag <= c.interval {
      forall calls, clock, vehicle, s, t ensures WithinBound(c, calls, clock, lag, vehicle, s, t) {
        LagWithinBound(c, calls, clock, lag, vehicle, s, t);
      }
    } else {
      var n: nat := if c.burst >= 1 then c.burst else 1;
      var whole := c.interval * c.Burst();
      var gap := if lag - c.interval < whole then (lag - c.interval) / 2.0 else whole / 2.0;
      var full := whole - gap;
      var late := full + lag;
      OvertakenBreaks(c, n, full, late);
      assert late - full == lag;
      assert !WithinBound(c, Overtaken(n, full, late), 0.0, lag, "v", 0.0, full);
    }
  }
}
