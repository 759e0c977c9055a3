/** What becomes of one message: when it is admitted, in which order it is served, how long a
    retry waits, and what closing the queue means. */
module MailRetries {
  import opened Wrappers
  import opened DelayQueue
  import opened MailQueue

  // -- one queue ------------------------------------------------------------------------------

  /** Among everything due the served entry has the smallest priority value, and of those the
      smallest number: HIGH mail goes first, and equals in the order they were put. */
  lemma ServedIsFirst(q: Queue, now: real, q': Queue, e: Entry, other: Entry)
    requires q.Valid() && Serves(q, now, q', Some(e)) && other != e
    requires other in q.ready || (other in q.delayed && other.due <= now)
    ensures e.message.priority < other.message.priority
         || (e.message.priority == other.message.priority && e.number < other.number)
  {
  }

  predicate Open(q: Queue, maxsize: int, force: bool) {
    !q.closed && (force || |q.ready| + |q.delayed| < maxsize)
  }

  lemma DelayedWaits(q: Queue, e: Entry, t: real, u: Queue, served: Option<Entry>)
    requires q.Valid() && e in q.delayed && Serves(q, t, u, served)
    ensures served == Some(e) ==> e.due <= t
    ensures e.due <= t ==> served.Some? && (served.value == e || Before(served.value, e))
    ensures t < e.due ==> e in u.delayed
  {
  }

  lemma ReadyCompetes(q: Queue, e: Entry, t: real, u: Queue, served: Option<Entry>)
    requires e in q.ready && Serves(q, t, u, served)
    ensures served.Some? && (served.value == e || Before(served.value, e))
  {
  }

  /** An accepted message is one new entry, and its delay decides where it goes. */
  lemma PutAdds(q: Queue, maxsize: int, m: Message, now: real, delay: real, force: bool) returns (e: Entry)
    requires q.Valid()
    ensures var (q', ok) := PutStep(q, maxsize, m, now, delay, force);
      && q'.Valid()
      && (ok <==> Open(q, maxsize, force))
      && (!ok ==> q' == q)
      && (ok ==> e !in q.Entries() && q'.Entries() == q.Entries() + {e} && e.message == m)
      && (ok && delay > 0.0 ==> e in q'.delayed && e.due == now + delay)
      && (ok && delay <= 0.0 ==> e in q'.ready)
  {
    e := NewEntry(q, m, now, delay);
    PutKeepsValid(q, maxsize, m, now, delay, force);
  }

  /** What the delay is for: no pass whose reading lies before its end serves the message, and
      from then on it is served unless something goes before it. */
  lemma PutWaits(
    q: Queue, maxsize: int, m: Message, now: real, delay: real, force: bool, t: real, u: Queue, served: Option<Entry>)
    returns (e: Entry)
    requires q.Valid() && Open(q, maxsize, force)
    requires Serves(PutStep(q, maxsize, m, now, delay, force).0, t, u, served)
    ensures var q' := PutStep(q, maxsize, m, now, delay, force).0;
      && e !in q.Entries() && q'.Entries() == q.Entries() + {e} && e.message == m
      && (delay > 0.0 && t < now + delay ==> served != Some(e) && e in u.delayed)
      && (delay <= 0.0 || now + delay <= t ==> served.Some? && (served.value == e || Before(served.value, e)))
  {
    e := PutAdds(q, maxsize, m, now, delay, force);
    var q' := PutStep(q, maxsize, m, now, delay, force).0;
    hide PutStep, Serves;
    if delay > 0.0 {
      DelayedWaits(q', e, t, u, served);
    } else {
      ReadyCompetes(q', e, t, u, served);
    }
  }

  /** Why an idle worker leaves: an empty queue ends its pass if it is closed or the deadline is
      over, and keeps it waiting otherwise. */
  lemma ClosedAndDrainedEnds(q: Queue, now: real, later: real, deadline: real, q': Queue, pass: Pass)
    requires Passes(q, now, later, deadline, q', pass) && q.Entries() == {}
    ensures pass == if q.closed || deadline <= later then Nothing else Waiting
  {
  }

  // -- one message in the whole of it -------------------------------------------------------------

  /** HIGH mail is never refused for the reserve, and other mail exactly at and above four fifths
      of the queue's size. */
  lemma CheckRefusesIff(c: Config, m: Mail, p: nat, message: Message)
    requires Possible(c, m, CheckAdmission(p, message))
    ensures var m' := Step(c, m, CheckAdmission(p, message));
      var limit := if c.maxsize * 4 / 5 >= 1 then c.maxsize * 4 / 5 else 1;
      if message.priority > HIGH && limit <= |m.q.ready| + |m.q.delayed| then
        m' == m.(rejected := m.rejected + 1)
      else m' == m.(producers := m.producers[p := Checked(message)])
  {
  }

  /** The message is one new entry, waiting, and its worker is free. */
  predicate PutBack(m: Mail, m': Mail, w: nat, message: Message, e: Entry) {
    && e.message == message && e !in m.q.Entries() && m'.q.Entries() == m.q.Entries() + {e} && e in m'.q.delayed
    && w !in m'.inFlight && m'.failed == m.failed
  }

  /** A retry that has attempts left is never lost while the queue is open, however full it is:
      it is one new entry, due after its delay. */
  lemma RetryIsKept(c: Config, m: Mail, w: nat, now: real, jitter: real) returns (e: Entry)
    requires Invariant(c, m) && Possible(c, m, FailedForNow(w, now, jitter)) && !m.q.closed
    requires m.inFlight[w].attempts <= 4 && m.inFlight[w].attempts < c.maxAttempts
    ensures var message := m.inFlight[w];
      && PutBack(m, Step(c, m, FailedForNow(w, now, jitter)), w, message, e)
      && e.due == now + RetryDelay(message, jitter)
      && 1 <= message.attempts && RETRY_DELAYS[message.attempts - 1] <= RetryDelay(message, jitter)
  {
    hide Invariant, Step, StepRetry, PutBack, GivesUp, RetryDelay, Queue.Valid, Serves;
    RetryFacts(c, m, w, now, jitter);
    e := LongRetryPut(c, m, w, m.inFlight[w], now, jitter);
  }

  lemma LongRetryPut(c: Config, m: Mail, w: nat, message: Message, now: real, jitter: real) returns (e: Entry)
    requires m.q.Valid() && !m.q.closed && !GivesUp(c, message)
    requires 1 <= message.attempts <= c.Tries() && 1.0 <= jitter <= 1.25
    ensures PutBack(m, StepRetry(c, m, w, message, now, jitter), w, message, e)
    ensures message.attempts <= |RETRY_DELAYS| && e.due == now + RetryDelay(message, jitter)
    ensures RETRY_DELAYS[message.attempts - 1] <= RetryDelay(message, jitter)
  {
    hide *;
    RetryDelayIsLong(c, message, jitter);
    e := RetryPut(c, m, w, message, now, jitter);
  }

  lemma RetryPut(c: Config, m: Mail, w: nat, message: Message, now: real, jitter: real) returns (e: Entry)
    requires m.q.Valid() && !m.q.closed && !GivesUp(c, message) && RetryDelay(message, jitter) > 0.0
    ensures PutBack(m, StepRetry(c, m, w, message, now, jitter), w, message, e)
    ensures e.due == now + RetryDelay(message, jitter)
  {
    hide PutStep, RetryDelay, GivesUp;
    e := PutAdds(m.q, c.maxsize, message, now, RetryDelay(message, jitter), true);
  }

  lemma RetryFacts(c: Config, m: Mail, w: nat, now: real, jitter: real)
    requires Invariant(c, m) && Possible(c, m, FailedForNow(w, now, jitter))
    requires m.inFlight[w].attempts <= 4 && m.inFlight[w].attempts < c.maxAttempts
    ensures Step(c, m, FailedForNow(w, now, jitter)) == StepRetry(c, m, w, m.inFlight[w], now, jitter)
    ensures m.q.Valid() && 1.0 <= jitter <= 1.25
    ensures 1 <= m.inFlight[w].attempts <= c.Tries() && !GivesUp(c, m.inFlight[w])
  {
    assert JobOk(c, w, m.inFlight[w]);
    hide StepRetry;
  }

  lemma RetryDelayIsLong(c: Config, message: Message, jitter: real)
    requires 1 <= message.attempts <= c.Tries() && !GivesUp(c, message) && 1.0 <= jitter <= 1.25
    ensures message.attempts - 1 < |RETRY_DELAYS|
    ensures 0.0 < RETRY_DELAYS[message.attempts - 1] <= RetryDelay(message, jitter)
  {
    RetryWaitsItsTurn(c, message, jitter);
    hide RetryDelay;
  }

  /** The delay of the k-th failure: half a minute, two, eight and thirty minutes, stretched. */
  lemma RetryDelayIs(message: Message, jitter: real)
    requires 1 <= message.attempts <= 4
    ensures RetryDelay(message, jitter) == jitter * [30.0, 120.0, 480.0, 1800.0][message.attempts - 1]
  {
  }

  /** One that has none left, or meets a closed queue, is given up. */
  lemma SpentMailFails(c: Config, m: Mail, w: nat, now: real, jitter: real)
    requires Possible(c, m, FailedForNow(w, now, jitter))
    requires 4 < m.inFlight[w].attempts || c.maxAttempts <= m.inFlight[w].attempts || m.q.closed
    ensures var m' := Step(c, m, FailedForNow(w, now, jitter));
      m'.q == m.q && w !in m'.inFlight && m'.failed == m.failed + 1
  {
  }

  /** The readings of the clock by the workers that take mail are in order. */
  predicate TakesBy(events: seq<Event>, t: real) {
    forall e :: e in events && e.Take? ==> e.now <= t
  }

  predicate ServedIn(events: seq<Event>, e: Entry) {
    exists x :: x in events && x.Take? && x.served == Some(e)
  }

  lemma StepKeepsWaiting(c: Config, m: Mail, x: Event, e: Entry)
    requires m.q.Valid() && Possible(c, m, x) && e in m.q.delayed && (x.Take? ==> x.now < e.due)
    ensures e in Step(c, m, x).q.delayed
    ensures x.Take? ==> x.served != Some(e)
  {
    if x.Take? {
      DelayedWaits(m.q, e, x.now, x.q', x.served);
      hide Serves;
    } else {
      hide Serves, GivesUp, RetryDelay;
    }
  }

  lemma StepKeepsEntry(c: Config, m: Mail, x: Event, e: Entry)
    requires m.q.Valid() && Possible(c, m, x) && e in m.q.Entries() && (x.Take? ==> x.served != Some(e))
    ensures e in Step(c, m, x).q.Entries()
  {
    if x.Take? {
      ServingKeepsValid(m.q, x.now, x.q', x.served);
      hide Serves;
    } else {
      hide Serves, GivesUp, RetryDelay;
    }
  }

  lemma {:induction false} WaitsInRuns(c: Config, m: Mail, events: seq<Event>, e: Entry, t: real)
    requires Invariant(c, m) && PossibleRun(c, m, events) && TakesBy(events, t) && t < e.due && e in m.q.delayed
    ensures e in Run(c, m, events).q.delayed && !ServedIn(events, e)
    decreases |events|
  {
    if events != [] {
      assert events[0].Take? ==> events[0].now <= t;
      assert events == [events[0]] + events[1..] && m.q.Valid();
      hide Invariant, Step, Possible, Queue.Valid;
      StepKeepsWaiting(c, m, events[0], e);
      StepKeepsInvariant(c, m, events[0]);
      WaitsInRuns(c, Step(c, m, events[0]), events[1..], e, t);
    }
  }

  lemma {:induction false} KeptInRuns(c: Config, m: Mail, events: seq<Event>, e: Entry)
    requires Invariant(c, m) && PossibleRun(c, m, events) && e in m.q.Entries() && !ServedIn(events, e)
    ensures e in Run(c, m, events).q.Entries()
    decreases |events|
  {
    if events != [] {
      assert events[0] in events;
      assert events == [events[0]] + events[1..] && m.q.Valid();
      hide Invariant, Step, Possible, Queue.Valid;
      StepKeepsEntry(c, m, events[0], e);
      StepKeepsInvariant(c, m, events[0]);
      KeptInRuns(c, Step(c, m, events[0]), events[1..], e);
    }
  }

  /** In every run: a message that failed for now is taken by nobody before its delay is over,
      and it stays in the queue until somebody takes it. */
  lemma RetryWaitsInRuns(
    c: Config, m: Mail, w: nat, now: real, jitter: real, events: seq<Event>, t: real) returns (e: Entry)
    requires Invariant(c, m) && Possible(c, m, FailedForNow(w, now, jitter)) && !m.q.closed
    requires m.inFlight[w].attempts <= 4 && m.inFlight[w].attempts < c.maxAttempts
    requires PossibleRun(c, Step(c, m, FailedForNow(w, now, jitter)), events) && TakesBy(events, t)
    ensures var m', k := Step(c, m, FailedForNow(w, now, jitter)), m.inFlight[w].attempts;
      && e.message == m.inFlight[w] && e !in m.q.Entries() && e in m'.q.Entries()
      && 1 <= k && (t < now + RETRY_DELAYS[k - 1] ==> !ServedIn(events, e))
      && (!ServedIn(events, e) ==> e in Run(c, m', events).q.Entries())
  {
    e := RetryIsKept(c, m, w, now, jitter);
    var m' := Step(c, m, FailedForNow(w, now, jitter));
    StepKeepsInvariant(c, m, FailedForNow(w, now, jitter));
    hide Invariant, Step, Possible, Run, PossibleRun;
    if t < e.due {
      WaitsInRuns(c, m', events, e, t);
    }
    if !ServedIn(events, e) {
      KeptInRuns(c, m', events, e);
    }
  }

  // -- closing ---------------------------------------------------------------------------------------

  lemma ClosedStep(c: Config, m: Mail, x: Event)
    requires m.q.Valid() && m.q.closed && Possible(c, m, x)
    ensures var m' := Step(c, m, x);
      m'.q.closed && m'.q.Entries() <= m.q.Entries() && m'.accepted <= m.accepted + |AdmittedProducers(m)|
  {
    if x.CountAccepted? {
      assert x.producer in AdmittedProducers(m);
    }
  }

  /** Once closed, the queue only drains: no message and no retry gets in any more. */
  lemma {:induction false} ClosedQueueDrains(c: Config, m: Mail, events: seq<Event>)
    requires Invariant(c, m) && PossibleRun(c, Step(c, m, Close), events)
    ensures var u := Run(c, Step(c, m, Close), events);
      u.q.closed && u.q.Entries() <= m.q.Entries()
  {
    StepKeepsInvariant(c, m, Close);
    assert Step(c, m, Close).q.Entries() == m.q.Entries();
    DrainsFrom(c, Step(c, m, Close), events);
  }

  lemma {:induction false} DrainsFrom(c: Config, m: Mail, events: seq<Event>)
    requires Invariant(c, m) && m.q.closed && PossibleRun(c, m, events)
    ensures Run(c, m, events).q.closed && Run(c, m, events).q.Entries() <= m.q.Entries()
    decreases |events|
  {
    if events != [] {
      ClosedStep(c, m, events[0]);
      StepKeepsInvariant(c, m, events[0]);
      hide Invariant, Step, Possible;
      DrainsFrom(c, Step(c, m, events[0]), events[1..]);
    }
  }

  // -- the counters ----------------------------------------------------------------------------------

  function Number(events: seq<Event>, which: Event -> bool): nat {
    if events == [] then 0 else (if which(events[0]) then 1 else 0) + Number(events[1..], which)
  }

  /** The counters of deliveries, acceptances and processing steps are what has happened. */
  lemma {:induction false} CountersMeanEvents(c: Config, m: Mail, events: seq<Event>)
    requires PossibleRun(c, m, events)
    ensures var u := Run(c, m, events);
      && u.delivered == m.delivered + Number(events, (x: Event) => x.Delivered?)
      && u.accepted == m.accepted + Number(events, (x: Event) => x.CountAccepted?)
      && u.processed == m.processed + Number(events, (x: Event) => x.Take? && x.served.Some?)
    decreases |events|
  {
    if events != [] {
      CountersMeanEvents(c, Step(c, m, events[0]), events[1..]);
    }
  }

  lemma OneThreadMore(producers: map<nat, Phase>, p: nat, phase: Phase)
    requires p !in producers
    ensures |producers[p := phase]| == |producers| + 1
  {
    WithoutSize(producers[p := phase], p, phase);
    assert Without(producers[p := phase], p) == producers;
  }

  lemma OfferedPut(c: Config, m: Mail, p: nat, message: Message, now: real)
    requires p in m.producers
    ensures var m' := StepPut(c, m, p, message, now);
      m'.accepted + m'.rejected + |m'.producers| == m.accepted + m.rejected + |m.producers|
  {
    hide PutStep;
    WithoutSize(m.producers, p, Admitted);
  }

  lemma OfferedStep(c: Config, m: Mail, x: Event)
    requires Possible(c, m, x)
    ensures var m' := Step(c, m, x);
      m'.accepted + m'.rejected + |m'.producers|
      == m.accepted + m.rejected + |m.producers| + if x.CheckAdmission? then 1 else 0
  {
    hide PutStep, Serves, StepPut, GivesUp, RetryDelay;
    match x {
      case CheckAdmission(p, message) => OneThreadMore(m.producers, p, Checked(message));
      case PutMessage(p, now) => OfferedPut(c, m, p, m.producers[p].message, now);
      case CountAccepted(p) => WithoutSize(m.producers, p, Admitted);
      case _ =>
    }
  }

  /** Every message that was ever offered has been accepted or refused, or is still with the
      thread that offers it. */
  lemma {:induction false} OfferedMailIsAnswered(c: Config, m: Mail, events: seq<Event>)
    requires PossibleRun(c, m, events)
    ensures var u := Run(c, m, events);
      u.accepted + u.rejected + |u.producers|
      == m.accepted + m.rejected + |m.producers| + Number(events, (x: Event) => x.CheckAdmission?)
    decreases |events|
  {
    if events != [] {
      OfferedStep(c, m, events[0]);
      hide Step, Possible;
      OfferedMailIsAnswered(c, Step(c, m, events[0]), events[1..]);
    }
  }
}
