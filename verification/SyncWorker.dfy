/** The queue of the broker synchronisation worker: jobs are marked, claimed once their own
    backoff has passed, and queued again with a longer one when they fail. */
module SyncWorker {
  import opened Wrappers
  import AclPolicy

  const RETRY_DELAY := 5.0
  const MAX_RETRY_DELAY := 300.0
  const MAX_ATTEMPTS: nat := 3

  datatype Job = Acl | Vehicle(vid: string)

  function Pow2(n: nat): (p: nat)
    ensures p >= 1
  {
    if n == 0 then 1 else 2 * Pow2(n - 1)
  }

  /** The wait after the k-th failure of a job. */
  function Delay(k: nat): real
    requires k >= 1
  {
    var d := RETRY_DELAY * Pow2(k - 1) as real;
    if d < MAX_RETRY_DELAY then d else MAX_RETRY_DELAY
  }

  lemma {:induction false} DelaysGrowToTheCap(k: nat)
    requires k >= 1
    ensures RETRY_DELAY <= Delay(k) <= Delay(k + 1) <= MAX_RETRY_DELAY
    ensures Delay(k) < MAX_RETRY_DELAY <==> k <= 6
    ensures Delay(k) < MAX_RETRY_DELAY ==> Delay(k + 1) == MAX_RETRY_DELAY || Delay(k + 1) == 2.0 * Delay(k)
  {
    assert Pow2(k) == 2 * Pow2(k - 1);
    if k <= 6 {
      assert Pow2(0) == 1 && Pow2(1) == 2 && Pow2(2) == 4 && Pow2(3) == 8 && Pow2(4) == 16 && Pow2(5) == 32;
    } else {
      Pow2Grows(6, k - 1);
      assert Pow2(5) == 32;
    }
  }

  lemma {:induction false} Pow2Grows(a: nat, b: nat)
    requires a <= b
    ensures Pow2(a) <= Pow2(b)
  {
    if a < b {
      Pow2Grows(a, b - 1);
    }
  }

  // -- the queue ---------------------------------------------------------------------------

  datatype Queue = Queue(pending: set<Job>, attempts: map<Job, nat>, retryAt: map<Job, real>) {
    function Attempts(j: Job): nat {
      if j in attempts then attempts[j] else 0
    }

    predicate Ready(j: Job, now: real) {
      j in pending && (j in retryAt ==> retryAt[j] <= now)
    }

    function Claimed(now: real): set<Job> {
      set j | j in pending && Ready(j, now)
    }

    function AfterClaim(now: real): Queue {
      Queue(pending - Claimed(now), attempts, retryAt - Claimed(now))
    }

    function Requeued(failed: set<Job>, now: real): Queue {
      Queue(
        pending + failed,
        map j | j in attempts.Keys + failed :: if j in failed then Attempts(j) + 1 else attempts[j],
        map j | j in retryAt.Keys + failed :: if j in failed then now + Delay(Attempts(j) + 1) else retryAt[j])
    }

    function AfterFailure(j: Job, now: real): Queue {
      var n := Attempts(j) + 1;
      Queue(pending + {j}, attempts[j := n], retryAt[j := now + Delay(n)])
    }

    /** The failing jobs that reach MAX_ATTEMPTS with this failure. */
    function Crossing(failed: set<Job>): set<Job> {
      set j | j in failed && Attempts(j) + 1 == MAX_ATTEMPTS
    }
  }

  /** What a change of a vehicle queues. */
  function VehicleMarks(vehicleId: string, acl: bool): set<Job> {
    if vehicleId == "" then {}
    else {Vehicle(AclPolicy.Upper(vehicleId))} + if acl then {Acl} else {}
  }

  lemma RequeueNone(q: Queue, now: real)
    ensures q.Requeued({}, now) == q
  {
  }

  lemma RequeueOne(q: Queue, failed: set<Job>, j: Job, now: real)
    requires j !in failed
    ensures q.Requeued(failed + {j}, now) == q.Requeued(failed, now).AfterFailure(j, now)
  {
    assert q.Requeued(failed + {j}, now).pending == q.Requeued(failed, now).pending + {j};
    hide Queue.Requeued, Delay, Queue.Attempts;
    RequeuedAttempts(q, failed, j, now);
    RequeuedTimes(q, failed, j, now);
  }

  lemma RequeuedAttempts(q: Queue, failed: set<Job>, j: Job, now: real)
    requires j !in failed
    ensures var r, all := q.Requeued(failed, now), q.Requeued(failed + {j}, now);
      r.Attempts(j) == q.Attempts(j) && all.attempts == r.attempts[j := q.Attempts(j) + 1]
  {
    hide Delay;
    var r, all := q.Requeued(failed, now).attempts, q.Requeued(failed + {j}, now).attempts;
    assert all.Keys == r.Keys + {j};
    assert forall i :: i in r && i != j ==> all[i] == r[i];
  }

  lemma RequeuedTimes(q: Queue, failed: set<Job>, j: Job, now: real)
    requires j !in failed
    ensures var r, all := q.Requeued(failed, now), q.Requeued(failed + {j}, now);
      all.retryAt == r.retryAt[j := now + Delay(q.Attempts(j) + 1)]
  {
    hide Delay, Queue.Attempts;
    var r, all := q.Requeued(failed, now).retryAt, q.Requeued(failed + {j}, now).retryAt;
    assert all.Keys == r.Keys + {j};
    assert forall i :: i in r && i != j ==> all[i] == r[i];
  }

  class MqttSyncWorker {
    const enabled: bool
    var pending: set<Job>
    var attempts: map<Job, nat>
    var retryAt: map<Job, real>

    ghost function State(): Queue
      reads this
    {
      Queue(pending, attempts, retryAt)
    }

    constructor (enabled: bool)
      ensures State() == Queue({}, map[], map[]) && this.enabled == enabled
    {
      this.enabled, pending, attempts, retryAt := enabled, {}, map[], map[];
    }

    method MarkVehicleDirty(vehicleId: string, acl: bool)
      modifies this
      ensures State() == old(State()).(
        pending := old(pending) + if enabled then VehicleMarks(vehicleId, acl) else {})
    {
      if !enabled || vehicleId == "" {
        return;
      }
      pending := pending + {Vehicle(AclPolicy.Upper(vehicleId))};
      if acl {
        pending := pending + {Acl};
      }
    }

    method MarkAclDirty()
      modifies this
      ensures State() == old(State()).(pending := old(pending) + if enabled then {Acl} else {})
    {
      if enabled {
        pending := pending + {Acl};
      }
    }

    method Claim(now: real) returns (claimed: set<Job>)
      modifies this
      ensures claimed == old(State()).Claimed(now)
      ensures State() == old(State()).AfterClaim(now)
    {
      if pending == {} {
        claimed := {};
        assert State() == Queue(pending - claimed, attempts, retryAt - claimed);
        return;
      }
      claimed := set j | j in pending && (j !in retryAt || retryAt[j] <= now);
      assert claimed == State().Claimed(now);
      pending := pending - claimed;
      retryAt := retryAt - claimed;
    }

    method Requeue(failed: set<Job>, now: real)
      modifies this
      ensures State() == old(State()).Requeued(failed, now)
    {
      ghost var was := State();
      ghost var done: set<Job> := {};
      var left := failed;
      RequeueNone(was, now);
      while left != {}
        invariant done + left == failed && done !! left
        invariant State() == was.Requeued(done, now)
        decreases left
      {
        hide Queue.Requeued, Queue.AfterFailure;
        var job :| job in left;
        RequeueOne(was, done, job, now);
        RequeueJob(job, now);
        done, left := done + {job}, left - {job};
      }
      assert done == failed;
    }

    method RequeueJob(job: Job, now: real)
      modifies this
      ensures State() == old(State()).AfterFailure(job, now)
    {
      var n := (if job in attempts then attempts[job] else 0) + 1;
      attempts := attempts[job := n];
      pending := pending + {job};
      retryAt := retryAt[job := now + Delay(n)];
    }

    /** The jobs the security event names; the event is written when there are any. */
    method ReportFailures(failed: set<Job>) returns (crossing: set<Job>)
      ensures crossing == State().Crossing(failed)
    {
      crossing := set j | j in failed && (if j in attempts then attempts[j] else 0) + 1 == MAX_ATTEMPTS;
    }

    /** The start of a flush: every pending job becomes claimable at once. */
    method ForgetBackoff()
      modifies this
      ensures State() == old(State()).(retryAt := map[])
    {
      retryAt := map[];
    }
  }

  // -- every run of the worker ----------------------------------------------------------------

  /** The queue, the jobs the worker has taken and is applying, and how often a security event
      has named each job. */
  datatype System = System(queue: Queue, taken: set<Job>, raised: multiset<Job>)

  const START: System := System(Queue({}, map[], map[]), {}, multiset{})

  datatype Event =
    | MarkVehicle(vehicleId: string, acl: bool)
    | MarkAcl
    | Claim(now: real)
    | Settle(failed: set<Job>, now: real)
    | ForgetBackoff

  /** One worker: it claims again only after settling, and settles only what it took. */
  predicate Possible(s: System, e: Event) {
    match e
    case Claim(_) => s.taken == {}
    case Settle(failed, _) => failed <= s.taken
    case _ => true
  }

  function Step(s: System, e: Event): System {
    match e
    case MarkVehicle(id, acl) => s.(queue := s.queue.(pending := s.queue.pending + VehicleMarks(id, acl)))
    case MarkAcl => s.(queue := s.queue.(pending := s.queue.pending + {Acl}))
    case Claim(now) => s.(queue := s.queue.AfterClaim(now), taken := s.queue.Claimed(now))
    case Settle(failed, now) =>
      System(s.queue.Requeued(failed, now), {}, s.raised + multiset(s.queue.Crossing(failed)))
    case ForgetBackoff => s.(queue := s.queue.(retryAt := map[]))
  }

  function Run(s: System, events: seq<Event>): System
    decreases |events|
  {
    if events == [] then s else Run(Step(s, events[0]), events[1..])
  }

  predicate PossibleRun(s: System, events: seq<Event>)
    decreases |events|
  {
    events == [] || (Possible(s, events[0]) && PossibleRun(Step(s, events[0]), events[1..]))
  }

  // -- one job seen alone -----------------------------------------------------------------------

  datatype Slot = Slot(pending: bool, attempts: nat, retryAt: Option<real>, taken: bool, raised: nat)

  function View(s: System, j: Job): Slot {
    Slot(
      j in s.queue.pending, s.queue.Attempts(j),
      if j in s.queue.retryAt then Some(s.queue.retryAt[j]) else None,
      j in s.taken, s.raised[j])
  }

  /** What an event means to a job: only the clock and the job's own mark or failure. */
  datatype Effect = Marked | Unmarked | ClaimAt(now: real) | Failed(now: real) | Settled | Forgotten

  function EffectOn(e: Event, j: Job): Effect {
    match e
    case MarkVehicle(id, acl) => if j in VehicleMarks(id, acl) then Marked else Unmarked
    case MarkAcl => if j == Acl then Marked else Unmarked
    case Claim(now) => ClaimAt(now)
    case Settle(failed, now) => if j in failed then Failed(now) else Settled
    case ForgetBackoff => Forgotten
  }

  function SlotStep(v: Slot, f: Effect): Slot {
    match f
    case Marked => v.(pending := true)
    case Unmarked => v
    case ClaimAt(now) =>
      if v.pending && (v.retryAt.None? || v.retryAt.value <= now) then
        v.(pending := false, retryAt := None, taken := true)
      else v.(taken := false)
    case Failed(now) =>
      Slot(true, v.attempts + 1, Some(now + Delay(v.attempts + 1)), false,
           v.raised + if v.attempts + 1 == MAX_ATTEMPTS then 1 else 0)
    case Settled => v.(taken := false)
    case Forgotten => v.(retryAt := None)
  }

  lemma StepOfOneJob(s: System, e: Event, j: Job)
    ensures View(Step(s, e), j) == SlotStep(View(s, j), EffectOn(e, j))
  {
  }

  /** No job's failures, marks or backoff touch another: two runs that agree on what concerns
      job j leave j in the same place, whatever happens to the other jobs. */
  lemma {:induction false} JobsAreIndependent(s: System, t: System, a: seq<Event>, b: seq<Event>, j: Job)
    requires View(s, j) == View(t, j) && |a| == |b|
    requires forall i :: 0 <= i < |a| ==> EffectOn(a[i], j) == EffectOn(b[i], j)
    ensures View(Run(s, a), j) == View(Run(t, b), j)
    decreases |a|
  {
    if a != [] {
      StepOfOneJob(s, a[0], j);
      StepOfOneJob(t, b[0], j);
      hide View, SlotStep, EffectOn, Step;
      JobsAreIndependent(Step(s, a[0]), Step(t, b[0]), a[1..], b[1..], j);
    }
  }

  function Failures(events: seq<Event>, j: Job): nat {
    if events == [] then 0 else (if EffectOn(events[0], j).Failed? then 1 else 0) + Failures(events[1..], j)
  }

  /** `n` failures behind it, a job has been named by an event once if that is at least three,
      and has a retry time only while it is pending. */
  predicate Consistent(v: Slot, n: nat) {
    && v.attempts == n
    && v.raised == (if n >= MAX_ATTEMPTS then 1 else 0)
    && (v.retryAt.Some? ==> v.pending)
  }

  lemma SlotStaysConsistent(v: Slot, f: Effect, n: nat)
    requires Consistent(v, n)
    ensures Consistent(SlotStep(v, f), n + if f.Failed? then 1 else 0)
  {
    hide Delay;
  }

  lemma OneMoreEvent(s: System, events: seq<Event>, j: Job)
    requires events != []
    ensures Run(s, events) == Run(Step(s, events[0]), events[1..])
    ensures Failures(events, j) == (if EffectOn(events[0], j).Failed? then 1 else 0) + Failures(events[1..], j)
  {
    hide Step, EffectOn;
  }

  lemma {:induction false} RunIsConsistent(s: System, events: seq<Event>, j: Job, before: nat)
    requires Consistent(View(s, j), before)
    ensures Consistent(View(Run(s, events), j), before + Failures(events, j))
    decreases |events|
  {
    hide Step, View, SlotStep, Consistent, EffectOn;
    if events == [] {
      return;
    }
    OneMoreEvent(s, events, j);
    hide Run, Failures;
    var n := before + if EffectOn(events[0], j).Failed? then 1 else 0;
    StepOfOneJob(s, events[0], j);
    SlotStaysConsistent(View(s, j), EffectOn(events[0], j), before);
    RunIsConsistent(Step(s, events[0]), events[1..], j, n);
  }

  lemma StartIsConsistent(j: Job)
    ensures Consistent(View(START, j), 0)
  {
    hide Run;
  }

  /** In every run: the counter is the number of the job's failures, which no success resets,
      the event is raised at the third and never again, and backoff is only kept for pending
      jobs. */
  lemma FailuresAreCountedAndReportedOnce(events: seq<Event>, j: Job)
    ensures Consistent(View(Run(START, events), j), Failures(events, j))
    ensures Run(START, events).raised[j] == if Failures(events, j) >= 3 then 1 else 0
  {
    hide Run, Failures;
    StartIsConsistent(j);
    RunIsConsistent(START, events, j, 0);
    RaisedInNumbers(Run(START, events), j, Failures(events, j));
  }

  lemma RaisedInNumbers(s: System, j: Job, n: nat)
    requires Consistent(View(s, j), n)
    ensures s.raised[j] == if n >= 3 then 1 else 0
  {
  }

  // -- nothing is dropped, and nothing is hurried ---------------------------------------------------

  predicate ClaimsBefore(events: seq<Event>, deadline: real) {
    forall i :: 0 <= i < |events| ==>
      !events[i].ForgetBackoff? && (events[i].Claim? ==> events[i].now < deadline)
  }

  lemma {:induction false} WaitsUntil(s: System, events: seq<Event>, j: Job, deadline: real)
    requires View(s, j).pending && View(s, j).retryAt == Some(deadline) && !View(s, j).taken
    requires PossibleRun(s, events) && ClaimsBefore(events, deadline)
    ensures var v := View(Run(s, events), j);
      v.pending && v.retryAt == Some(deadline) && !v.taken && v.attempts == View(s, j).attempts
    decreases |events|
  {
    if events != [] {
      var e := events[0];
      assert Possible(s, e) && j !in s.taken;
      StepOfOneJob(s, e, j);
      assert !e.ForgetBackoff? && (e.Claim? ==> e.now < deadline);
      WaitsUntil(Step(s, e), events[1..], j, deadline);
    }
  }

  /** After its k-th failure at `t` a job stays queued, is claimed by nobody before
      t + Delay(k) whatever is marked or fails meanwhile, and by the first claim after. */
  lemma FailedJobWaitsExactlyItsDelay(s: System, failed: set<Job>, t: real, events: seq<Event>, j: Job, now: real)
    requires Possible(s, Settle(failed, t)) && j in failed
    requires PossibleRun(Step(s, Settle(failed, t)), events)
    requires ClaimsBefore(events, t + Delay(View(s, j).attempts + 1))
    ensures var u := Run(Step(s, Settle(failed, t)), events);
      && View(u, j).pending && !View(u, j).taken
      && (j in u.queue.Claimed(now) <==> t + Delay(View(s, j).attempts + 1) <= now)
  {
    var k := View(s, j).attempts + 1;
    StepOfOneJob(s, Settle(failed, t), j);
    assert View(Step(s, Settle(failed, t)), j).retryAt == Some(t + Delay(k));
    WaitsUntil(Step(s, Settle(failed, t)), events, j, t + Delay(k));
  }

  /** A job marked while it is being applied is pending again, so the change that came too
      late for this application is not lost. */
  lemma MarkDuringApplicationSurvives(s: System, id: string, acl: bool, failed: set<Job>, now: real, j: Job)
    requires j in VehicleMarks(id, acl)
    ensures View(Step(Step(s, MarkVehicle(id, acl)), Settle(failed, now)), j).pending
  {
    StepOfOneJob(s, MarkVehicle(id, acl), j);
    StepOfOneJob(Step(s, MarkVehicle(id, acl)), Settle(failed, now), j);
  }

  // -- what a mark brings about ---------------------------------------------------------------------

  /** Marking a vehicle queues the job of its folded id, and the ACL job if asked; an empty id
      queues nothing. No other job, counter or retry time changes. */
  lemma MarkMeans(s: System, id: string, acl: bool)
    ensures var t := Step(s, MarkVehicle(id, acl));
      && t.taken == s.taken && t.raised == s.raised
      && t.queue.attempts == s.queue.attempts && t.queue.retryAt == s.queue.retryAt
      && (forall j :: j in t.queue.pending <==>
            j in s.queue.pending || (id != "" && (j == Vehicle(AclPolicy.Upper(id)) || (acl && j == Acl))))
    ensures Step(s, MarkAcl) == s.(queue := s.queue.(pending := s.queue.pending + {Acl}))
  {
  }

  /** Somewhere in the run the job, having been taken, is settled and not among the failures. */
  predicate Served(s: System, events: seq<Event>, j: Job)
    decreases |events|
  {
    events != [] &&
    ((events[0].Settle? && j in s.taken && j !in events[0].failed) || Served(Step(s, events[0]), events[1..], j))
  }

  lemma UnservedStep(s: System, e: Event, j: Job)
    requires Possible(s, e) && (j in s.queue.pending || j in s.taken)
    requires e.Settle? && j in s.taken ==> j in e.failed
    ensures var t := Step(s, e); j in t.queue.pending || j in t.taken
  {
  }

  lemma {:induction false} WaitingIsServed(s: System, events: seq<Event>, j: Job)
    requires PossibleRun(s, events) && (j in s.queue.pending || j in s.taken)
    ensures var u := Run(s, events); j in u.queue.pending || j in u.taken || Served(s, events, j)
    decreases |events|
  {
    if events != [] && !(events[0].Settle? && j in s.taken && j !in events[0].failed) {
      UnservedStep(s, events[0], j);
      hide Step, Possible;
      WaitingIsServed(Step(s, events[0]), events[1..], j);
    }
  }

  /** In every run a marked job, the vehicle's and the ACL's, is pending, or in hand, or has been
      applied since the mark: no mark is ever dropped. */
  lemma MarkIsNotLost(s: System, id: string, acl: bool, events: seq<Event>)
    requires id != "" && PossibleRun(Step(s, MarkVehicle(id, acl)), events)
    ensures var t, j := Step(s, MarkVehicle(id, acl)), Vehicle(AclPolicy.Upper(id));
      var u := Run(t, events);
      && (j in u.queue.pending || j in u.taken || Served(t, events, j))
      && (acl ==> Acl in u.queue.pending || Acl in u.taken || Served(t, events, Acl))
  {
    var t := Step(s, MarkVehicle(id, acl));
    MarkMeans(s, id, acl);
    hide Step, Possible, Run, PossibleRun, Served;
    WaitingIsServed(t, events, Vehicle(AclPolicy.Upper(id)));
    if acl {
      WaitingIsServed(t, events, Acl);
    }
  }
}
