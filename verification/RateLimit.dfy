/** The per-vehicle notification limiter: a lazily refilled token bucket per vehicle, in a
    table that forgets idle vehicles, against the limiter it is meant to be. */
module RateLimit {
  import opened Wrappers
  import opened Counting

  datatype Config = Config(interval: real, maxTracked: int, burst: int) {
    function Burst(): real
      ensures Burst() >= 1.0
    {
      if burst >= 1 then burst as real else 1.0
    }

    /** Time refills `Share(a, b)` tokens between instants `a` and `b`. */
    function Share(a: real, b: real): real
      requires interval > 0.0
    {
      (b - a) / interval
    }

    function Cutoff(now: real): real {
      now - interval * (Burst() + 1.0)
    }
  }

  datatype Entry = Entry(tokens: real, at: real)
  datatype Reply = Granted | Suppressed(age: real)

  type Table = map<string, Entry>

  // -- the limiter as it runs --------------------------------------------------------

  function Min(a: real, b: real): real {
    if a <= b then a else b
  }

  function Level(c: Config, e: Entry, now: real): real
    requires c.interval > 0.0
  {
    Min(c.Burst(), e.tokens + c.Share(e.at, now))
  }

  function Lookup(c: Config, table: Table, vehicle: string, now: real): Entry {
    if vehicle in table then table[vehicle] else Entry(c.Burst(), now)
  }

  function DropStale(c: Config, table: Table, now: real): Table {
    map k | k in table && table[k].at >= c.Cutoff(now) :: table[k]
  }

  function Evict(c: Config, table: Table, now: real): Table {
    var kept := DropStale(c, table, now);
    if |kept| > c.maxTracked then map[] else kept
  }

  /** A claim against a table from which nothing is ever dropped. */
  function Claim(c: Config, table: Table, vehicle: string, now: real): (Table, Reply) {
    var e := Lookup(c, table, vehicle, now);
    if c.interval <= 0.0 then
      (table[vehicle := Entry(c.Burst(), now)], Granted)
    else if Level(c, e, now) < 1.0 then
      (table, Suppressed(now - e.at))
    else
      (table[vehicle := Entry(Level(c, e, now) - 1.0, now)], Granted)
  }

  function AcquireStep(c: Config, table: Table, vehicle: string, now: real): (Table, Reply) {
    var (t, reply) := Claim(c, table, vehicle, now);
    (if reply == Granted then Evict(c, t, now) else t, reply)
  }

  lemma RemovedOneByOne(table: Table, gone: set<string>, k: string)
    ensures table - gone - {k} == table - (gone + {k})
  {
  }

  lemma StaleRemoved(c: Config, table: Table, stale: set<string>, now: real)
    requires stale == set k | k in table && table[k].at < c.Cutoff(now)
    ensures table - stale == DropStale(c, table, now)
  {
  }

  class Limiter {
    const config: Config
    var lastSeen: Table

    constructor (config: Config)
      ensures this.config == config && lastSeen == map[]
    {
      this.config := config;
      lastSeen := map[];
    }

    method Acquire(vehicle: string, now: real) returns (reply: Reply)
      modifies this
      ensures (lastSeen, reply) == AcquireStep(config, old(lastSeen), vehicle, now)
    {
      if config.interval <= 0.0 {
        lastSeen := lastSeen[vehicle := Entry(config.Burst(), now)];
        EvictLocked(now);
        return Granted;
      }
      var e := Lookup(config, lastSeen, vehicle, now);
      var tokens := Min(config.Burst(), e.tokens + (now - e.at) / config.interval);
      if tokens < 1.0 {
        return Suppressed(now - e.at);
      }
      lastSeen := lastSeen[vehicle := Entry(tokens - 1.0, now)];
      EvictLocked(now);
      reply := Granted;
    }

    method EvictLocked(now: real)
      modifies this
      ensures lastSeen == Evict(config, old(lastSeen), now)
    {
      var cutoff := now - config.interval * (config.Burst() + 1.0);
      var stale := set k | k in lastSeen && lastSeen[k].at < cutoff;
      var todo := stale;
      while todo != {}
        invariant todo <= stale
        invariant lastSeen == old(lastSeen) - (stale - todo)
        decreases |todo|
      {
        var k :| k in todo;
        RemovedOneByOne(old(lastSeen), stale - todo, k);
        assert stale - (todo - {k}) == (stale - todo) + {k};
        lastSeen, todo := lastSeen - {k}, todo - {k};
      }
      assert stale - todo == stale;
      StaleRemoved(config, old(lastSeen), stale, now);
      if |lastSeen| > config.maxTracked {
        lastSeen := map[];
      }
    }

    method Reset()
      modifies this
      ensures lastSeen == map[]
    {
      lastSeen := map[];
    }
  }

  // -- the limiter as it is meant ------------------------------------------------------

  /** One more notification at `now` keeps every window that ends now within
      burst + elapsed / interval. */
  ghost predicate Admissible(c: Config, grants: seq<real>, now: real)
    requires c.interval > 0.0
  {
    forall i :: 0 <= i < |grants| ==>
      (|grants| - i + 1) as real <= c.Burst() + c.Share(grants[i], now)
  }

  /** Grant times per vehicle since the table was last cleared. */
  type History = map<string, seq<real>>

  function GrantsOf(h: History, vehicle: string): seq<real> {
    if vehicle in h then h[vehicle] else []
  }

  function Last(g: seq<real>): real
    requires g != []
  {
    g[|g| - 1]
  }

  /** The vehicles with a grant recent enough to still matter. */
  function Live(c: Config, h: History, now: real): set<string> {
    set k | k in h && h[k] != [] && Last(h[k]) >= c.Cutoff(now)
  }

  ghost function Reference(c: Config, h: History, vehicle: string, now: real): (History, Reply)
    requires c.interval > 0.0
  {
    var g := GrantsOf(h, vehicle);
    if Admissible(c, g, now) then
      var h' := h[vehicle := g + [now]];
      (if |Live(c, h', now)| > c.maxTracked then map[] else h', Granted)
    else
      (h, Suppressed(now - Last(g)))
  }

  // -- one bucket is exactly that limiter ------------------------------------------------

  /** The tokens the bucket holds right after its last grant. */
  ghost function TokensAfter(c: Config, g: seq<real>): real
    requires c.interval > 0.0 && g != []
    decreases |g|
  {
    if |g| == 1 then c.Burst() - 1.0
    else
      var front := g[..|g| - 1];
      Level(c, Entry(TokensAfter(c, front), Last(front)), Last(g)) - 1.0
  }

  /** Every window of grants that reaches up to `now` leaves at least `x` tokens. */
  ghost predicate LeavesAtLeast(c: Config, g: seq<real>, now: real, x: real)
    requires c.interval > 0.0
  {
    x <= c.Burst() &&
    forall i :: 0 <= i < |g| ==> x <= c.Burst() - (|g| - i) as real + c.Share(g[i], now)
  }

  lemma ShareAdds(c: Config, a: real, b: real, d: real)
    requires c.interval > 0.0
    ensures c.Share(a, d) == c.Share(a, b) + c.Share(b, d)
  {
    var inv := 1.0 / c.interval;
    assert c.Share(a, d) == (d - a) * inv;
    assert c.Share(a, b) == (b - a) * inv;
    assert c.Share(b, d) == (d - b) * inv;
  }

  /** The stored pair of numbers determines the level that all windows together allow. */
  lemma {:induction false} LevelIsTheTightestWindow(c: Config, g: seq<real>, now: real, x: real)
    requires c.interval > 0.0 && g != []
    ensures x <= Level(c, Entry(TokensAfter(c, g), Last(g)), now) <==> LeavesAtLeast(c, g, now, x)
    decreases |g|
  {
    var n, t := |g|, Last(g);
    if n > 1 {
      var front := g[..n - 1];
      var y := x + 1.0 - c.Share(t, now);
      LevelIsTheTightestWindow(c, front, t, y);
      forall i | 0 <= i < n - 1
        ensures x <= c.Burst() - (n - i) as real + c.Share(g[i], now)
           <==> y <= c.Burst() - (n - 1 - i) as real + c.Share(front[i], t)
      {
        ShareAdds(c, g[i], t, now);
      }
      if LeavesAtLeast(c, front, t, y) && x <= c.Burst() {
        assert LeavesAtLeast(c, g, now, x);
      }
      if LeavesAtLeast(c, g, now, x) {
        assert x <= c.Burst() - 1.0 + c.Share(g[n - 1], now);
        assert LeavesAtLeast(c, front, t, y);
      }
    }
  }

  /** A grant is due exactly when the level has reached one token. */
  lemma AdmissibleIsOneToken(c: Config, g: seq<real>, now: real)
    requires c.interval > 0.0 && g != []
    ensures Admissible(c, g, now) <==> 1.0 <= Level(c, Entry(TokensAfter(c, g), Last(g)), now)
  {
    LevelIsTheTightestWindow(c, g, now, 1.0);
    assert LeavesAtLeast(c, g, now, 1.0) <==> Admissible(c, g, now) by {
      forall i | 0 <= i < |g|
        ensures 1.0 <= c.Burst() - (|g| - i) as real + c.Share(g[i], now)
           <==> (|g| - i + 1) as real <= c.Burst() + c.Share(g[i], now)
      {
        assert (|g| - i + 1) as real == (|g| - i) as real + 1.0;
      }
    }
  }

  // -- the table is exactly that limiter, forgetting included -------------------------------

  /** Grant times that the limiter itself could have produced. */
  ghost predicate Legal(c: Config, g: seq<real>)
    requires c.interval > 0.0
  {
    && (forall j :: 0 <= j < |g| ==> Admissible(c, g[..j], g[j]))
    && (forall i, j :: 0 <= i <= j < |g| ==> g[i] <= g[j])
  }

  /** A tracked vehicle's entry is the bucket of its grants; an untracked vehicle has none,
      or has rested long enough to have refilled completely. */
  ghost predicate InStep(c: Config, e: Option<Entry>, g: seq<real>, clock: real)
    requires c.interval > 0.0
  {
    && Legal(c, g) && (g != [] ==> Last(g) <= clock)
    && match e
       case Some(entry) => g != [] && entry == Entry(TokensAfter(c, g), Last(g))
       case None => g != [] ==> Last(g) < c.Cutoff(clock)
  }

  function EntryOf(table: Table, vehicle: string): Option<Entry> {
    if vehicle in table then Some(table[vehicle]) else None
  }

  ghost predicate Represents(c: Config, table: Table, h: History, clock: real)
    requires c.interval > 0.0
  {
    forall k :: InStep(c, EntryOf(table, k), GrantsOf(h, k), clock)
  }

  lemma {:induction false} TokensStayInRange(c: Config, g: seq<real>)
    requires c.interval > 0.0 && g != [] && Legal(c, g)
    ensures 0.0 <= TokensAfter(c, g) <= c.Burst() - 1.0
    decreases |g|
  {
    if |g| > 1 {
      var front := g[..|g| - 1];
      assert Legal(c, front) by {
        forall j | 0 <= j < |front| ensures Admissible(c, front[..j], front[j]) {
          assert front[..j] == g[..j];
        }
      }
      TokensStayInRange(c, front);
      AdmissibleIsOneToken(c, front, Last(g));
    }
  }

  lemma DividesOut(d: real, q: real, interval: real)
    requires interval > 0.0 && d > interval * q
    ensures d / interval > q
  {
    var r := d / interval;
    assert r * interval == d;
  }

  lemma CutoffMeansFull(c: Config, at: real, now: real)
    requires c.interval > 0.0 && at < c.Cutoff(now)
    ensures c.Share(at, now) > c.Burst() + 1.0
  {
    DividesOut(now - at, c.Burst() + 1.0, c.interval);
  }

  /** A bucket past the cutoff has refilled: forgetting it changes no answer. */
  lemma RestedVehicleIsAdmissible(c: Config, g: seq<real>, now: real)
    requires c.interval > 0.0 && Legal(c, g)
    requires g != [] ==> Last(g) < c.Cutoff(now)
    ensures Admissible(c, g, now)
    ensures g != [] ==> TokensAfter(c, g + [now]) == c.Burst() - 1.0
  {
    if g != [] {
      TokensStayInRange(c, g);
      CutoffMeansFull(c, Last(g), now);
      AdmissibleIsOneToken(c, g, now);
      assert (g + [now])[..|g|] == g;
    }
  }

  lemma LegalGrows(c: Config, g: seq<real>, now: real)
    requires c.interval > 0.0 && Legal(c, g) && Admissible(c, g, now)
    requires g != [] ==> Last(g) <= now
    ensures Legal(c, g + [now])
  {
    var g' := g + [now];
    forall j | 0 <= j < |g'| ensures Admissible(c, g'[..j], g'[j]) {
      assert g'[..j] == g[..j];
      assert g[..|g|] == g;
    }
  }

  lemma CutoffAdvances(c: Config, clock: real, now: real)
    requires clock <= now
    ensures c.Cutoff(clock) <= c.Cutoff(now)
  {
    var span := c.interval * (c.Burst() + 1.0);
    assert c.Cutoff(clock) == clock - span && c.Cutoff(now) == now - span;
  }

  lemma InStepLater(c: Config, e: Option<Entry>, g: seq<real>, clock: real, now: real)
    requires c.interval > 0.0 && clock <= now && InStep(c, e, g, clock)
    ensures InStep(c, e, g, now)
  {
    CutoffAdvances(c, clock, now);
  }

  lemma RepresentsLater(c: Config, table: Table, h: History, clock: real, now: real)
    requires c.interval > 0.0 && clock <= now && Represents(c, table, h, clock)
    ensures Represents(c, table, h, now)
  {
    forall k ensures InStep(c, EntryOf(table, k), GrantsOf(h, k), now) {
      InStepLater(c, EntryOf(table, k), GrantsOf(h, k), clock, now);
    }
  }

  /** What one claim sees and leaves of its vehicle's bucket. */
  ghost predicate ClaimsExactly(c: Config, table: Table, g: seq<real>, vehicle: string, now: real)
    requires c.interval > 0.0
  {
    var (t, reply) := Claim(c, table, vehicle, now);
    if Admissible(c, g, now) then
      && reply == Granted
      && t == table[vehicle := Entry(TokensAfter(c, g + [now]), now)]
    else
      && t == table && g != [] && reply == Suppressed(now - Last(g))
  }

  lemma TrackedClaim(c: Config, table: Table, g: seq<real>, vehicle: string, now: real)
    requires c.interval > 0.0 && vehicle in table && g != []
    requires table[vehicle] == Entry(TokensAfter(c, g), Last(g))
    ensures ClaimsExactly(c, table, g, vehicle, now)
  {
    AdmissibleIsOneToken(c, g, now);
    assert (g + [now])[..|g|] == g;
  }

  lemma UntrackedClaim(c: Config, table: Table, g: seq<real>, vehicle: string, now: real)
    requires c.interval > 0.0 && vehicle !in table && Legal(c, g)
    requires g != [] ==> Last(g) < c.Cutoff(now)
    ensures ClaimsExactly(c, table, g, vehicle, now)
  {
    RestedVehicleIsAdmissible(c, g, now);
    assert c.Share(now, now) == 0.0 / c.interval == 0.0;
  }

  lemma ClaimKeepsStep(c: Config, table: Table, h: History, vehicle: string, now: real)
    requires c.interval > 0.0 && Represents(c, table, h, now)
    ensures ClaimsExactly(c, table, GrantsOf(h, vehicle), vehicle, now)
    ensures Admissible(c, GrantsOf(h, vehicle), now) ==>
      var g' := GrantsOf(h, vehicle) + [now];
      InStep(c, Some(Entry(TokensAfter(c, g'), now)), g', now)
  {
    var g := GrantsOf(h, vehicle);
    assert InStep(c, EntryOf(table, vehicle), g, now);
    if vehicle in table {
      TrackedClaim(c, table, g, vehicle, now);
    } else {
      UntrackedClaim(c, table, g, vehicle, now);
    }
    if Admissible(c, g, now) {
      LegalGrows(c, g, now);
    }
  }

  /** One claim on a table answers as the reference does and stays in step with it. */
  lemma ClaimIsExact(c: Config, table: Table, h: History, clock: real, vehicle: string, now: real)
    requires c.interval > 0.0 && clock <= now && Represents(c, table, h, clock)
    ensures ClaimsExactly(c, table, GrantsOf(h, vehicle), vehicle, now)
    ensures Represents(c, table, h, now)
    ensures Admissible(c, GrantsOf(h, vehicle), now) ==>
      Represents(c, Claim(c, table, vehicle, now).0, h[vehicle := GrantsOf(h, vehicle) + [now]], now)
  {
    RepresentsLater(c, table, h, clock, now);
    ClaimKeepsStep(c, table, h, vehicle, now);
    var g := GrantsOf(h, vehicle);
    if Admissible(c, g, now) {
      var t, h' := Claim(c, table, vehicle, now).0, h[vehicle := g + [now]];
      forall k ensures InStep(c, EntryOf(t, k), GrantsOf(h', k), now) {
        assert InStep(c, EntryOf(table, k), GrantsOf(h, k), now);
        if k != vehicle {
          assert EntryOf(t, k) == EntryOf(table, k) && GrantsOf(h', k) == GrantsOf(h, k);
        }
      }
    }
  }

  lemma EvictionKeepsRepresenting(c: Config, table: Table, h: History, now: real)
    requires c.interval > 0.0 && Represents(c, table, h, now)
    ensures Represents(c, DropStale(c, table, now), h, now)
    ensures DropStale(c, table, now).Keys == Live(c, h, now)
  {
    var kept := DropStale(c, table, now);
    forall k
      ensures InStep(c, EntryOf(kept, k), GrantsOf(h, k), now)
      ensures k in kept <==> k in Live(c, h, now)
    {
      assert InStep(c, EntryOf(table, k), GrantsOf(h, k), now);
    }
  }

  /** Every acquire answers as the reference limiter: granted exactly when each window that
      ends now stays within burst + elapsed / interval, and the hard cap empties the table
      exactly when more than `maxTracked` vehicles are live. */
  lemma AcquireIsExact(c: Config, table: Table, h: History, clock: real, vehicle: string, now: real)
    requires c.interval > 0.0 && clock <= now && Represents(c, table, h, clock)
    ensures var (t, reply) := AcquireStep(c, table, vehicle, now);
            var (h', expected) := Reference(c, h, vehicle, now);
      reply == expected && Represents(c, t, h', now)
  {
    ClaimIsExact(c, table, h, clock, vehicle, now);
    if Admissible(c, GrantsOf(h, vehicle), now) {
      var t, h' := Claim(c, table, vehicle, now).0, h[vehicle := GrantsOf(h, vehicle) + [now]];
      EvictionKeepsRepresenting(c, t, h', now);
      assert |DropStale(c, t, now)| == |DropStale(c, t, now).Keys|;
    }
  }

  // -- runs --------------------------------------------------------------------------------

  datatype Call = Call(vehicle: string, now: real)

  ghost predicate Forward(calls: seq<Call>, clock: real) {
    && (forall i :: 0 <= i < |calls| ==> clock <= calls[i].now)
    && (forall i, j :: 0 <= i <= j < |calls| ==> calls[i].now <= calls[j].now)
  }

  function Replies(c: Config, table: Table, calls: seq<Call>): seq<Reply>
    decreases |calls|
  {
    if calls == [] then []
    else
      var (t, reply) := AcquireStep(c, table, calls[0].vehicle, calls[0].now);
      [reply] + Replies(c, t, calls[1..])
  }

  /** The same limiter without any eviction. */
  function UnboundedReplies(c: Config, table: Table, calls: seq<Call>): seq<Reply>
    decreases |calls|
  {
    if calls == [] then []
    else
      var (t, reply) := Claim(c, table, calls[0].vehicle, calls[0].now);
      [reply] + UnboundedReplies(c, t, calls[1..])
  }

  ghost function ReferenceReplies(c: Config, h: History, calls: seq<Call>): seq<Reply>
    requires c.interval > 0.0
    decreases |calls|
  {
    if calls == [] then []
    else
      var (h', reply) := Reference(c, h, calls[0].vehicle, calls[0].now);
      [reply] + ReferenceReplies(c, h', calls[1..])
  }

  /** The hard cap never empties the reference's history during the calls. */
  ghost predicate NeverCleared(c: Config, h: History, calls: seq<Call>)
    requires c.interval > 0.0
    decreases |calls|
  {
    calls == [] ||
    (var (h', reply) := Reference(c, h, calls[0].vehicle, calls[0].now);
     (reply == Granted ==> h' != map[]) && NeverCleared(c, h', calls[1..]))
  }

  lemma {:induction false} RunIsExact(c: Config, table: Table, h: History, clock: real, calls: seq<Call>)
    requires c.interval > 0.0 && Represents(c, table, h, clock) && Forward(calls, clock)
    ensures Replies(c, table, calls) == ReferenceReplies(c, h, calls)
    decreases |calls|
  {
    if calls != [] {
      var Call(v, now) := calls[0];
      AcquireIsExact(c, table, h, clock, v, now);
      RunIsExact(c, AcquireStep(c, table, v, now).0, Reference(c, h, v, now).0, now, calls[1..]);
    }
  }

  lemma StepTogether(
      c: Config, table: Table, unbounded: Table, h: History, clock: real, vehicle: string, now: real)
    requires c.interval > 0.0 && clock <= now
    requires Represents(c, table, h, clock) && Represents(c, unbounded, h, clock)
    requires Reference(c, h, vehicle, now).1 == Granted ==> Reference(c, h, vehicle, now).0 != map[]
    ensures AcquireStep(c, table, vehicle, now).1 == Claim(c, unbounded, vehicle, now).1
    ensures Represents(c, AcquireStep(c, table, vehicle, now).0, Reference(c, h, vehicle, now).0, now)
    ensures Represents(c, Claim(c, unbounded, vehicle, now).0, Reference(c, h, vehicle, now).0, now)
  {
    AcquireIsExact(c, table, h, clock, vehicle, now);
    ClaimIsExact(c, unbounded, h, clock, vehicle, now);
  }

  /** Forgetting rested vehicles is invisible while the hard cap does not fire. */
  lemma {:induction false} EvictionIsTransparent(
      c: Config, table: Table, unbounded: Table, h: History, clock: real, calls: seq<Call>)
    requires c.interval > 0.0 && Forward(calls, clock)
    requires Represents(c, table, h, clock) && Represents(c, unbounded, h, clock)
    requires NeverCleared(c, h, calls)
    ensures Replies(c, table, calls) == UnboundedReplies(c, unbounded, calls)
    decreases |calls|
  {
    if calls != [] {
      var Call(v, now) := calls[0];
      var h' := Reference(c, h, v, now).0;
      StepTogether(c, table, unbounded, h, clock, v, now);
      EvictionIsTransparent(c, AcquireStep(c, table, v, now).0, Claim(c, unbounded, v, now).0, h', now, calls[1..]);
    }
  }

  // -- what the limiter guarantees ------------------------------------------------------------

  function GrantsWithin(g: seq<real>, s: real, t: real): set<nat> {
    set i: nat | i < |g| && s <= g[i] <= t
  }

  /** No window of time holds more than burst + length / interval grants. */
  lemma WindowBound(c: Config, g: seq<real>, s: real, t: real)
    requires c.interval > 0.0 && Legal(c, g) && s <= t
    ensures |GrantsWithin(g, s, t)| as real <= c.Burst() + c.Share(s, t)
  {
    var ids := GrantsWithin(g, s, t);
    ShareGrows(c, s, s, t, t);
    if ids != {} {
      var lo, hi := FirstAndLast(ids);
      SetSpan(ids, lo, hi + 1);
      assert Admissible(c, g[..hi], g[hi]);
      if lo < hi {
        assert g[..hi][lo] == g[lo];
        assert (hi - lo + 1) as real <= c.Burst() + c.Share(g[lo], g[hi]);
        ShareGrows(c, s, g[lo], g[hi], t);
      }
    }
  }

  lemma ShareGrows(c: Config, a: real, b: real, d: real, e: real)
    requires c.interval > 0.0 && a <= b <= d <= e
    ensures 0.0 <= c.Share(b, d) <= c.Share(a, e)
  {
    var inv := 1.0 / c.interval;
    assert c.Share(b, d) == (d - b) * inv;
    assert c.Share(a, e) == (e - a) * inv;
    assert (d - b) * inv <= (e - a) * inv;
  }

  /** With a burst of one the limiter is the plain minimum interval. */
  lemma BurstOneIsMinimumInterval(c: Config, g: seq<real>, now: real)
    requires c.interval > 0.0 && c.burst <= 1 && Legal(c, g)
    requires g != [] ==> Last(g) <= now
    ensures Admissible(c, g, now) <==> g == [] || now - Last(g) >= c.interval
  {
    if g != [] {
      var n := |g|;
      OneIntervalIsOneShare(c, Last(g), now);
      if Admissible(c, g, now) {
        assert (n - (n - 1) + 1) as real <= c.Burst() + c.Share(g[n - 1], now);
      }
      if c.Share(Last(g), now) >= 1.0 {
        forall i | 0 <= i < n ensures (n - i + 1) as real <= c.Burst() + c.Share(g[i], now) {
          ShareAdds(c, g[i], g[n - 1], now);
          if i < n - 1 {
            assert Admissible(c, g[..n - 1], g[n - 1]);
            assert g[..n - 1][i] == g[i];
            assert (n - 1 - i + 1) as real <= c.Burst() + c.Share(g[i], g[n - 1]);
          }
        }
      }
    }
  }

  lemma OneIntervalIsOneShare(c: Config, a: real, b: real)
    requires c.interval > 0.0
    ensures c.Share(a, b) >= 1.0 <==> b - a >= c.interval
  {
    assert c.Share(a, b) * c.interval == b - a;
    if c.Share(a, b) >= 1.0 {
      assert (c.Share(a, b) - 1.0) * c.interval >= 0.0;
    } else {
      assert (1.0 - c.Share(a, b)) * c.interval > 0.0;
    }
  }

  /** When a vehicle was granted during a run. */
  function GrantTimes(calls: seq<Call>, replies: seq<Reply>, vehicle: string): seq<real>
    requires |calls| == |replies|
    decreases |calls|
  {
    if calls == [] then []
    else
      FirstGrant(calls[0], replies[0], vehicle) + GrantTimes(calls[1..], replies[1..], vehicle)
  }

  ghost function ReferenceAfter(c: Config, h: History, calls: seq<Call>): History
    requires c.interval > 0.0
    decreases |calls|
  {
    if calls == [] then h
    else ReferenceAfter(c, Reference(c, h, calls[0].vehicle, calls[0].now).0, calls[1..])
  }

  lemma {:induction false} ReplyPerCall(c: Config, h: History, calls: seq<Call>)
    requires c.interval > 0.0
    ensures |ReferenceReplies(c, h, calls)| == |calls|
    decreases |calls|
  {
    if calls != [] {
      ReplyPerCall(c, Reference(c, h, calls[0].vehicle, calls[0].now).0, calls[1..]);
    }
  }

  function FirstGrant(call: Call, reply: Reply, vehicle: string): seq<real> {
    if call.vehicle == vehicle && reply == Granted then [call.now] else []
  }

  lemma OneGrantRecorded(c: Config, h: History, call: Call, vehicle: string)
    requires c.interval > 0.0
    requires Reference(c, h, call.vehicle, call.now) != (map[], Granted)
    ensures var (h', reply) := Reference(c, h, call.vehicle, call.now);
      GrantsOf(h', vehicle) == GrantsOf(h, vehicle) + FirstGrant(call, reply, vehicle)
  {
  }

  lemma Regroup(a: seq<real>, b: seq<real>, d: seq<real>)
    ensures (a + b) + d == a + (b + d)
  {
  }

  lemma {:induction false} HistoryRecordsGrants(c: Config, h: History, calls: seq<Call>, vehicle: string)
    requires c.interval > 0.0 && NeverCleared(c, h, calls)
    ensures |ReferenceReplies(c, h, calls)| == |calls|
    ensures GrantsOf(ReferenceAfter(c, h, calls), vehicle)
         == GrantsOf(h, vehicle) + GrantTimes(calls, ReferenceReplies(c, h, calls), vehicle)
    decreases |calls|
  {
    ReplyPerCall(c, h, calls);
    if calls != [] {
      OneGrantRecorded(c, h, calls[0], vehicle);
      hide GrantsOf;
      var (h', reply) := Reference(c, h, calls[0].vehicle, calls[0].now);
      hide Reference;
      var rest := ReferenceReplies(c, h', calls[1..]);
      HistoryRecordsGrants(c, h', calls[1..], vehicle);
      assert ReferenceReplies(c, h, calls) == [reply] + rest;
      assert ([reply] + rest)[1..] == rest;
      Regroup(GrantsOf(h, vehicle), FirstGrant(calls[0], reply, vehicle), GrantTimes(calls[1..], rest, vehicle));
    }
  }

  ghost predicate LegalSoFar(c: Config, g: seq<real>, clock: real)
    requires c.interval > 0.0
  {
    Legal(c, g) && (g != [] ==> Last(g) <= clock)
  }

  lemma {:induction false} HistoryStaysLegal(c: Config, h: History, clock: real, calls: seq<Call>)
    requires c.interval > 0.0 && Forward(calls, clock)
    requires forall k :: LegalSoFar(c, GrantsOf(h, k), clock)
    ensures forall k :: Legal(c, GrantsOf(ReferenceAfter(c, h, calls), k))
    decreases |calls|
  {
    if calls == [] {
      forall k ensures Legal(c, GrantsOf(h, k)) {
        assert LegalSoFar(c, GrantsOf(h, k), clock);
      }
    } else {
      var Call(v, now) := calls[0];
      var h' := Reference(c, h, v, now).0;
      forall k ensures LegalSoFar(c, GrantsOf(h', k), now) {
        assert LegalSoFar(c, GrantsOf(h, k), clock);
        if k == v && Admissible(c, GrantsOf(h, k), now) {
          LegalGrows(c, GrantsOf(h, k), now);
        }
      }
      HistoryStaysLegal(c, h', now, calls[1..]);
    }
  }

  /** From an empty table, whatever is called: no window of time sees more than
      burst + length / interval notifications of one vehicle. */
  lemma RunWindowBound(c: Config, calls: seq<Call>, clock: real, vehicle: string, s: real, t: real)
    requires c.interval > 0.0 && Forward(calls, clock) && NeverCleared(c, map[], calls) && s <= t
    ensures |Replies(c, map[], calls)| == |calls|
    ensures |GrantsWithin(GrantTimes(calls, Replies(c, map[], calls), vehicle), s, t)| as real
         <= c.Burst() + c.Share(s, t)
  {
    RunIsExact(c, map[], map[], clock, calls);
    HistoryRecordsGrants(c, map[], calls, vehicle);
    HistoryStaysLegal(c, map[], clock, calls);
    var times := GrantTimes(calls, Replies(c, map[], calls), vehicle);
    assert GrantsOf(map[], vehicle) + times == times;
    assert Legal(c, GrantsOf(ReferenceAfter(c, map[], calls), vehicle));
    WindowBound(c, times, s, t);
  }

  // -- without a limit, and without end --------------------------------------------------------

  ghost function TableAfter(c: Config, table: Table, calls: seq<Call>): Table
    decreases |calls|
  {
    if calls == [] then table
    else TableAfter(c, AcquireStep(c, table, calls[0].vehicle, calls[0].now).0, calls[1..])
  }

  /** An interval of zero, or below, means no limit: every call is granted. */
  lemma {:induction false} NoLimitGrantsAll(c: Config, table: Table, calls: seq<Call>)
    requires c.interval <= 0.0
    ensures |Replies(c, table, calls)| == |calls|
    ensures forall i :: 0 <= i < |calls| ==> Replies(c, table, calls)[i] == Granted
    decreases |calls|
  {
    if calls != [] {
      var t := AcquireStep(c, table, calls[0].vehicle, calls[0].now).0;
      NoLimitGrantsAll(c, t, calls[1..]);
      assert Replies(c, table, calls) == [Granted] + Replies(c, t, calls[1..]);
    }
  }

  /** A grant is on record: the vehicle's entry is dated now, unless the table was cleared, and
      with no limit it is a full bucket. */
  lemma GrantIsRecorded(c: Config, table: Table, vehicle: string, now: real)
    ensures var (t, reply) := AcquireStep(c, table, vehicle, now);
      && |t| <= (if c.maxTracked < |table| then |table| else if c.maxTracked < 0 then 0 else c.maxTracked)
      && (reply == Granted && 0.0 <= c.interval ==> t == map[] || (vehicle in t && t[vehicle].at == now))
      && (reply == Granted && 0.0 == c.interval ==> t == map[] || t[vehicle].tokens == c.Burst())
  {
    if c.interval > 0.0 {
      var (claimed, reply) := Claim(c, table, vehicle, now);
      assert c.interval * (c.Burst() + 1.0) >= 0.0;
      assert reply == Granted ==> vehicle in claimed && claimed[vehicle].at == now;
    } else {
      assert c.interval == 0.0 ==> c.Cutoff(now) == now;
    }
  }

  /** The table of a limiter never holds more vehicles than it may track, whoever publishes. */
  lemma {:induction false} TableStaysBounded(c: Config, table: Table, calls: seq<Call>)
    requires |table| <= c.maxTracked
    ensures |TableAfter(c, table, calls)| <= c.maxTracked
    decreases |calls|
  {
    if calls != [] {
      GrantIsRecorded(c, table, calls[0].vehicle, calls[0].now);
      hide AcquireStep;
      TableStaysBounded(c, AcquireStep(c, table, calls[0].vehicle, calls[0].now).0, calls[1..]);
    }
  }
}
