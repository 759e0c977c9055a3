/** The per-socket budget of database lookups: past it a lookup waits instead of being
    refused. */
module LookupThrottle {
  import opened Counting

  datatype Config = Config(burst: int, rate: real) {
    function Burst(): real
      ensures Burst() >= 1.0
    {
      if burst >= 1 then burst as real else 1.0
    }
  }

  datatype Bucket = Bucket(tokens: real, at: real)

  /** The tokens that flow back between two instants. */
  function Gain(c: Config, a: real, b: real): real {
    (b - a) * c.rate
  }

  function Refilled(c: Config, b: Bucket, now: real): real {
    if c.rate <= 0.0 then b.tokens
    else if b.tokens + Gain(c, b.at, now) <= c.Burst() then b.tokens + Gain(c, b.at, now)
    else c.Burst()
  }

  /** The bucket after one acquire, and the seconds to sleep before the lookup. */
  function AcquireStep(c: Config, b: Bucket, now: real): (Bucket, real) {
    var tokens := Refilled(c, b, now) - 1.0;
    (Bucket(tokens, now), if tokens >= 0.0 || c.rate <= 0.0 then 0.0 else -tokens / c.rate)
  }

  class Throttle {
    const config: Config
    var tokens: real
    var at: real

    function Value(): Bucket
      reads this
    {
      Bucket(tokens, at)
    }

    constructor (config: Config, now: real)
      ensures this.config == config && Value() == Bucket(config.Burst(), now)
    {
      this.config := config;
      tokens := config.Burst();
      at := now;
    }

    method Acquire(now: real) returns (delay: real)
      modifies this
      ensures (Value(), delay) == AcquireStep(config, old(Value()), now)
    {
      hide Gain;
      if config.rate > 0.0 {
        var refilled := tokens + Gain(config, at, now);
        tokens := if refilled <= config.Burst() then refilled else config.Burst();
      }
      at := now;
      tokens := tokens - 1.0;
      if tokens >= 0.0 || config.rate <= 0.0 {
        return 0.0;
      }
      delay := -tokens / config.rate;
    }
  }

  // -- one socket's lookups ----------------------------------------------------------

  /** A lookup: the acquire at `called`, what it left and answered, and when the caller
      woke and started the query. */
  datatype Lookup = Lookup(called: real, after: Bucket, delay: real, started: real)

  ghost function Before(c: Config, openedAt: real, q: seq<Lookup>, i: nat): Bucket
    requires i <= |q|
  {
    if i == 0 then Bucket(c.Burst(), openedAt) else q[i - 1].after
  }

  /** The caller sleeps at least the returned delay, and reads no further message until
      its lookup has started. */
  ghost predicate ObeyedAt(c: Config, openedAt: real, q: seq<Lookup>, i: nat)
    requires i < |q|
  {
    && (q[i].after, q[i].delay) == AcquireStep(c, Before(c, openedAt, q, i), q[i].called)
    && q[i].called + q[i].delay <= q[i].started
    && (if i == 0 then openedAt else q[i - 1].started) <= q[i].called
  }

  ghost predicate Obeyed(c: Config, openedAt: real, q: seq<Lookup>) {
    forall i: nat :: i < |q| ==> ObeyedAt(c, openedAt, q, i)
  }

  /** Every sleep ended exactly when it was due. */
  ghost predicate WokenOnTime(q: seq<Lookup>) {
    forall i :: 0 <= i < |q| ==> q[i].started == q[i].called + q[i].delay
  }

  lemma GainAdds(c: Config, a: real, b: real, d: real)
    ensures Gain(c, a, d) == Gain(c, a, b) + Gain(c, b, d)
  {
  }

  lemma GainGrows(c: Config, a: real, b: real)
    requires c.rate > 0.0
    ensures a <= b <==> 0.0 <= Gain(c, a, b)
  {
    var span := b - a;
    if span >= 0.0 {
      assert span * c.rate >= 0.0;
    } else {
      assert span * c.rate < 0.0;
    }
  }

  lemma DelayPaysTheDebt(c: Config, b: Bucket, now: real)
    requires c.rate > 0.0
    ensures var (after, delay) := AcquireStep(c, b, now);
      && 0.0 <= delay
      && Gain(c, now, now + delay) == if after.tokens >= 0.0 then 0.0 else -after.tokens
  {
    var (after, delay) := AcquireStep(c, b, now);
    if after.tokens < 0.0 {
      assert delay * c.rate == -after.tokens;
    }
    GainGrows(c, now, now + delay);
  }

  /** The level when the lookup starts, refilling since the acquire. */
  ghost function LevelAtStart(c: Config, l: Lookup): real {
    l.after.tokens + Gain(c, l.called, l.started)
  }

  /** The lookup starts with its own token spent: the refill has not caught up with it. */
  ghost predicate Spent(c: Config, l: Lookup) {
    LevelAtStart(c, l) <= c.Burst() - 1.0
  }

  /** The same in terms of lateness: how long after the call the query may start. */
  lemma SpentMeansNotTooLate(c: Config, l: Lookup)
    requires c.rate > 0.0
    ensures Spent(c, l) <==> l.started - l.called <= (c.Burst() - 1.0 - l.after.tokens) / c.rate
  {
    var room := c.Burst() - 1.0 - l.after.tokens;
    var span, allowed := l.started - l.called, room / c.rate;
    assert allowed * c.rate == room;
    if span <= allowed {
      assert (allowed - span) * c.rate >= 0.0;
    } else {
      assert (span - allowed) * c.rate > 0.0;
    }
  }

  lemma StartLevel(c: Config, openedAt: real, q: seq<Lookup>, i: nat)
    requires c.rate > 0.0 && i < |q| && ObeyedAt(c, openedAt, q, i)
    ensures 0.0 <= LevelAtStart(c, q[i])
    ensures q[i].after.tokens <= c.Burst() - 1.0
    ensures q[i].started == q[i].called + q[i].delay ==> Spent(c, q[i])
    ensures q[i].called <= q[i].started
  {
    hide Gain;
    var l := q[i];
    DelayPaysTheDebt(c, Before(c, openedAt, q, i), l.called);
    GainAdds(c, l.called, l.called + l.delay, l.started);
    GainGrows(c, l.called + l.delay, l.started);
  }

  /** Tokens never fall below -1, so no lookup ever waits longer than one refill. */
  lemma DebtIsBounded(c: Config, openedAt: real, q: seq<Lookup>, i: nat)
    requires c.rate > 0.0 && Obeyed(c, openedAt, q) && i < |q|
    ensures -1.0 <= q[i].after.tokens
    ensures Gain(c, q[i].called, q[i].called + q[i].delay) <= 1.0
  {
    hide Gain;
    assert ObeyedAt(c, openedAt, q, i);
    var l := q[i];
    if i == 0 {
      GainGrows(c, openedAt, l.called);
    } else {
      assert ObeyedAt(c, openedAt, q, i - 1);
      StartLevel(c, openedAt, q, i - 1);
      GainAdds(c, q[i - 1].called, q[i - 1].started, l.called);
      GainGrows(c, q[i - 1].started, l.called);
    }
    DelayPaysTheDebt(c, Before(c, openedAt, q, i), l.called);
  }

  /** Between two lookups each one spends a token that only time refills. */
  lemma {:induction false} Spending(c: Config, openedAt: real, q: seq<Lookup>, i: nat, j: nat)
    requires c.rate > 0.0 && Obeyed(c, openedAt, q) && i <= j < |q|
    ensures q[j].after.tokens + (j - i) as real <= q[i].after.tokens + Gain(c, q[i].called, q[j].called)
    decreases j - i
  {
    if i < j {
      Spending(c, openedAt, q, i, j - 1);
      assert ObeyedAt(c, openedAt, q, j) && ObeyedAt(c, openedAt, q, j - 1);
      GainAdds(c, q[i].called, q[j - 1].called, q[j].called);
      hide Gain;
    } else {
      GainGrows(c, q[i].called, q[j].called);
    }
  }

  lemma {:induction false} StartsInOrder(c: Config, openedAt: real, q: seq<Lookup>, i: nat, j: nat)
    requires c.rate > 0.0 && Obeyed(c, openedAt, q) && i <= j < |q|
    ensures q[i].started <= q[j].started
    ensures i < j ==> q[i].started <= q[j].called
    decreases j - i
  {
    if i < j {
      assert ObeyedAt(c, openedAt, q, j);
      DelayPaysTheDebt(c, Before(c, openedAt, q, j), q[j].called);
      StartsInOrder(c, openedAt, q, i, j - 1);
    }
  }

  lemma {:induction false} LevelsBetween(c: Config, openedAt: real, q: seq<Lookup>, i: nat, j: nat)
    requires c.rate > 0.0 && Obeyed(c, openedAt, q) && i <= j < |q|
    ensures (j - i) as real <= q[i].after.tokens + Gain(c, q[i].called, q[j].started)
  {
    hide Gain;
    assert ObeyedAt(c, openedAt, q, j);
    StartLevel(c, openedAt, q, j);
    Spending(c, openedAt, q, i, j);
    GainAdds(c, q[i].called, q[j].called, q[j].started);
  }

  /** From lookup `i` to lookup `j`: one more than the budget at most, and no more than the
      budget if `i` started with its token spent. */
  lemma Stretch(c: Config, openedAt: real, q: seq<Lookup>, i: nat, j: nat)
    requires c.rate > 0.0 && Obeyed(c, openedAt, q) && i <= j < |q|
    ensures (j - i) as real <= c.Burst() + Gain(c, q[i].started, q[j].started)
    ensures Spent(c, q[i]) ==> (j - i + 1) as real <= c.Burst() + Gain(c, q[i].started, q[j].started)
  {
    hide Gain;
    assert ObeyedAt(c, openedAt, q, i);
    StartLevel(c, openedAt, q, i);
    LevelsBetween(c, openedAt, q, i, j);
    StartsInOrder(c, openedAt, q, i, j);
    GainAdds(c, q[i].called, q[i].started, q[j].started);
    GainGrows(c, q[i].started, q[j].started);
    if i < j {
      assert ObeyedAt(c, openedAt, q, i + 1);
      StartLevel(c, openedAt, q, i + 1);
      LevelsBetween(c, openedAt, q, i + 1, j);
      GainAdds(c, q[i].started, q[i + 1].called, q[j].started);
      GainGrows(c, q[i].started, q[i + 1].called);
    }
  }

  function StartedWithin(q: seq<Lookup>, s: real, t: real): set<nat> {
    set i: nat | i < |q| && s <= q[i].started <= t
  }

  ghost predicate AllSpent(c: Config, q: seq<Lookup>) {
    forall i :: 0 <= i < |q| ==> Spent(c, q[i])
  }

  /** Lookups started in a window: at most one more than burst + rate * length however late
      the sleeps end, and no more than that if every lookup starts with its token spent. */
  lemma WindowBound(c: Config, openedAt: real, q: seq<Lookup>, s: real, t: real)
    requires c.rate > 0.0 && Obeyed(c, openedAt, q) && s <= t
    ensures |StartedWithin(q, s, t)| as real <= c.Burst() + 1.0 + Gain(c, s, t)
    ensures AllSpent(c, q) ==> |StartedWithin(q, s, t)| as real <= c.Burst() + Gain(c, s, t)
  {
    hide Gain, Spent;
    var ids := StartedWithin(q, s, t);
    GainGrows(c, s, t);
    if ids != {} {
      var lo, hi := FirstAndLast(ids);
      SetSpan(ids, lo, hi + 1);
      Stretch(c, openedAt, q, lo, hi);
      GainAdds(c, s, q[lo].started, t);
      GainAdds(c, q[lo].started, q[hi].started, t);
      GainGrows(c, s, q[lo].started);
      GainGrows(c, q[hi].started, t);
    }
  }

  // -- exactly when a late wake costs something ------------------------------------------------

  ghost predicate WithinBudget(c: Config, q: seq<Lookup>) {
    forall s, t :: s <= t ==> |StartedWithin(q, s, t)| as real <= c.Burst() + Gain(c, s, t)
  }

  /** Lookups that may follow `q`, all woken on time. */
  ghost predicate FollowPromptly(c: Config, openedAt: real, q: seq<Lookup>, more: seq<Lookup>) {
    Obeyed(c, openedAt, q + more) && WokenOnTime(more)
  }

  lemma FollowedStaysWithin(c: Config, openedAt: real, q: seq<Lookup>, more: seq<Lookup>)
    requires c.rate > 0.0 && AllSpent(c, q) && FollowPromptly(c, openedAt, q, more)
    ensures WithinBudget(c, q + more)
  {
    var all := q + more;
    forall i | 0 <= i < |all| ensures Spent(c, all[i]) {
      if |q| <= i {
        assert all[i] == more[i - |q|] && ObeyedAt(c, openedAt, all, i);
        StartLevel(c, openedAt, all, i);
      }
    }
    forall s, t | s <= t ensures |StartedWithin(all, s, t)| as real <= c.Burst() + Gain(c, s, t) {
      WindowBound(c, openedAt, all, s, t);
    }
  }

  function BurstCalls(c: Config): nat {
    if c.burst >= 1 then c.burst else 1
  }

  /** The k-th of several calls at the instant `s`, when the bucket held `x` tokens then. */
  function CallAt(c: Config, x: real, s: real, k: nat): Lookup
    requires c.rate > 0.0
  {
    var left := x - (k + 1) as real;
    var delay := if left >= 0.0 then 0.0 else -left / c.rate;
    Lookup(s, Bucket(left, s), delay, s + delay)
  }

  function CallsAt(c: Config, x: real, s: real, n: nat): seq<Lookup>
    requires c.rate > 0.0
  {
    seq(n, k requires 0 <= k < n => CallAt(c, x, s, k))
  }

  lemma NextCall(c: Config, x: real, s: real, k: nat)
    requires c.rate > 0.0 && k > 0 && x <= c.Burst()
    ensures (CallAt(c, x, s, k).after, CallAt(c, x, s, k).delay) == AcquireStep(c, CallAt(c, x, s, k - 1).after, s)
  {
    assert Gain(c, s, s) == 0.0;
    assert (k + 1) as real == k as real + 1.0 && k as real >= 1.0;
  }

  /** Right after a lookup that started with more than burst - 1 tokens, burst further calls
      at that instant are obeyed, and all but the last start at once. */
  lemma CallsAreObeyed(c: Config, openedAt: real, q: seq<Lookup>, n: nat)
    requires c.rate > 0.0 && q != [] && Obeyed(c, openedAt, q)
    requires var l := q[|q| - 1];
      n as real <= c.Burst() && LevelAtStart(c, l) > c.Burst() - 1.0
    ensures var l := q[|q| - 1];
      FollowPromptly(c, openedAt, q, CallsAt(c, Refilled(c, l.after, l.started), l.started, n))
  {
    hide Gain;
    var l := q[|q| - 1];
    var x := Refilled(c, l.after, l.started);
    var more := CallsAt(c, x, l.started, n);
    assert ObeyedAt(c, openedAt, q, |q| - 1);
    assert l.after.at == l.called && x > c.Burst() - 1.0;
    forall i: nat | i < |q + more| ensures ObeyedAt(c, openedAt, q + more, i) {
      if i < |q| {
        assert ObeyedAt(c, openedAt, q, i);
        assert Before(c, openedAt, q + more, i) == Before(c, openedAt, q, i);
      } else {
        var k := i - |q|;
        assert (q + more)[i] == CallAt(c, x, l.started, k);
        if k > 0 {
          NextCall(c, x, l.started, k);
          assert (q + more)[i - 1] == CallAt(c, x, l.started, k - 1);
          assert CallAt(c, x, l.started, k - 1).delay == 0.0;
        }
        WaitsAreForward(c, x, l.started, k);
      }
    }
  }

  lemma WaitsAreForward(c: Config, x: real, s: real, k: nat)
    requires c.rate > 0.0
    ensures s <= CallAt(c, x, s, k).started
  {
    var left := x - (k + 1) as real;
    if left < 0.0 {
      assert -left / c.rate >= 0.0;
    }
  }

  /** Together with that lookup they are one more than the budget of the window they start in. */
  lemma CallsBreakTheBudget(c: Config, openedAt: real, q: seq<Lookup>)
    requires c.rate > 0.0 && q != [] && Obeyed(c, openedAt, q)
    requires LevelAtStart(c, q[|q| - 1]) > c.Burst() - 1.0
    ensures var l := q[|q| - 1];
      var more := CallsAt(c, Refilled(c, l.after, l.started), l.started, BurstCalls(c));
      FollowPromptly(c, openedAt, q, more) && !WithinBudget(c, q + more)
  {
    var l, n := q[|q| - 1], BurstCalls(c);
    CallsAreObeyed(c, openedAt, q, n);
    var x := Refilled(c, l.after, l.started);
    assert ObeyedAt(c, openedAt, q, |q| - 1);
    assert c.Burst() - 1.0 < x <= c.Burst() == n as real;
    var more := CallsAt(c, x, l.started, n);
    var all := q + more;
    var last := CallAt(c, x, l.started, n - 1);
    assert last == more[n - 1];
    LastCallIsEarly(c, x, l.started, n);
    WaitsAreForward(c, x, l.started, n - 1);
    var ids := Range(|q| - 1, |all|);
    RangeMeans(|q| - 1, |all|);
    forall i | i in ids ensures i in StartedWithin(all, l.started, last.started) {
      if i >= |q| {
        var k := i - |q|;
        assert all[i] == CallAt(c, x, l.started, k);
        if k < n - 1 {
          assert x - (k + 1) as real >= 0.0;
        }
      }
    }
    SubsetCount(ids, StartedWithin(all, l.started, last.started));
    assert |ids| == n + 1;
    hide CallAt, CallsAt, Gain, StartedWithin;
    assert |StartedWithin(all, l.started, last.started)| as real > c.Burst() + Gain(c, l.started, last.started);
  }

  lemma LastCallIsEarly(c: Config, x: real, s: real, n: nat)
    requires c.rate > 0.0 && n > 0 && n as real - 1.0 < x
    ensures Gain(c, s, CallAt(c, x, s, n - 1).started) < 1.0
  {
    var left := x - n as real;
    if left < 0.0 {
      assert (-left / c.rate) * c.rate == -left;
    }
  }

  /** The budget is safe at every point of a run, whatever prompt lookups come next, exactly
      if every lookup so far started with its token spent. */
  lemma BudgetIsSafeIff(c: Config, openedAt: real, q: seq<Lookup>)
    requires c.rate > 0.0 && Obeyed(c, openedAt, q)
    ensures AllSpent(c, q) <==>
      forall n: nat, more :: n <= |q| && FollowPromptly(c, openedAt, q[..n], more) ==> WithinBudget(c, q[..n] + more)
  {
    if AllSpent(c, q) {
      forall n: nat, more | n <= |q| && FollowPromptly(c, openedAt, q[..n], more)
        ensures WithinBudget(c, q[..n] + more)
      {
        FollowedStaysWithin(c, openedAt, q[..n], more);
      }
    } else {
      var i :| 0 <= i < |q| && !Spent(c, q[i]);
      var n := i + 1;
      var front := q[..n];
      forall j: nat | j < n ensures ObeyedAt(c, openedAt, front, j) {
        assert ObeyedAt(c, openedAt, q, j);
      }
      assert front[n - 1] == q[i];
      CallsBreakTheBudget(c, openedAt, front);
      var more := CallsAt(c, Refilled(c, q[i].after, q[i].started), q[i].started, BurstCalls(c));
      assert FollowPromptly(c, openedAt, q[..n], more) && !WithinBudget(c, q[..n] + more);
    }
  }

  /** A run in which the second of two lookups on a burst of one wakes a second late. */
  function LateWake(): seq<Lookup> {
    [Lookup(0.0, Bucket(0.0, 0.0), 0.0, 0.0),
     Lookup(0.0, Bucket(-1.0, 0.0), 1.0, 2.0),
     Lookup(2.0, Bucket(0.0, 2.0), 0.0, 2.0)]
  }

  /** A burst of one refilled once a second, in plain numbers. */
  lemma UnitStep(b: Bucket, now: real)
    ensures var level := if b.tokens + (now - b.at) <= 1.0 then b.tokens + (now - b.at) else 1.0;
      AcquireStep(Config(1, 1.0), b, now)
      == (Bucket(level - 1.0, now), if level >= 1.0 then 0.0 else 1.0 - level)
  {
    var c := Config(1, 1.0);
    assert Gain(c, b.at, now) == now - b.at;
    var tokens := Refilled(c, b, now) - 1.0;
    assert -tokens / 1.0 == -tokens;
  }

  lemma LateWakeStep(i: nat)
    requires i < 3
    ensures ObeyedAt(Config(1, 1.0), 0.0, LateWake(), i)
  {
    var q := LateWake();
    var before := Before(Config(1, 1.0), 0.0, q, i);
    UnitStep(before, q[i].called);
    hide AcquireStep, Obeyed, Refilled, Gain;
    assert before == if i == 0 then Bucket(1.0, 0.0) else q[i - 1].after;
  }

  lemma LateWakeIsObeyed()
    ensures Obeyed(Config(1, 1.0), 0.0, LateWake())
  {
    forall i: nat | i < |LateWake()| ensures ObeyedAt(Config(1, 1.0), 0.0, LateWake(), i) {
      LateWakeStep(i);
    }
  }

  lemma TwoStartTogether()
    ensures |StartedWithin(LateWake(), 2.0, 2.0)| == 2
  {
    assert StartedWithin(LateWake(), 2.0, 2.0) == {1, 2};
  }

  /** The extra lookup is real: two lookups start at once on a burst of one. */
  lemma LateWakeExceedsTheBudget()
    ensures var c := Config(1, 1.0);
      && Obeyed(c, 0.0, LateWake())
      && |StartedWithin(LateWake(), 2.0, 2.0)| as real > c.Burst() + Gain(c, 2.0, 2.0)
  {
    LateWakeIsObeyed();
    TwoStartTogether();
    hide StartedWithin, Obeyed, LateWake;
  }

  // -- without a rate ------------------------------------------------------------------------------

  ghost function BucketAfter(c: Config, b: Bucket, times: seq<real>): Bucket
    decreases |times|
  {
    if times == [] then b else BucketAfter(c, AcquireStep(c, b, times[0]).0, times[1..])
  }

  /** A rate of zero, or below, never lets a lookup wait, and nothing flows back. */
  lemma {:induction false} NoRateOnlyCounts(c: Config, b: Bucket, times: seq<real>, now: real)
    requires c.rate <= 0.0
    ensures BucketAfter(c, b, times).tokens == b.tokens - |times| as real
    ensures AcquireStep(c, BucketAfter(c, b, times), now).1 == 0.0
    decreases |times|
  {
    if times != [] {
      NoRateOnlyCounts(c, AcquireStep(c, b, times[0]).0, times[1..], now);
    }
  }
}
