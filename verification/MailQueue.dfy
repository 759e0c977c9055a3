/** Outbound mail: producers admit messages, workers deliver or retry them, all of it
    interleaved one locked section at a time. */
module MailQueue {
  import opened Wrappers
  import opened Counting
  import opened DelayQueue

  /** `producers` bounds the threads inside enqueue at one time; nothing else limits them. */
  datatype Config = Config(workers: nat, maxsize: nat, maxAttempts: int, producers: nat) {

    /** At and above this size only HIGH mail is admitted. */
    function NormalLimit(): nat
      ensures 1 <= NormalLimit()
    {
      if maxsize * 4 / 5 >= 1 then maxsize * 4 / 5 else 1
    }

    /** How often one message may be processed. */
    function Tries(): nat
      ensures 1 <= Tries() <= |RETRY_DELAYS| + 1
    {
      if maxAttempts < 1 then 1 else if maxAttempts <= 5 then maxAttempts else 5
    }
  }

  const RETRY_DELAYS: seq<real> := [30.0, 120.0, 480.0, 1800.0]

  /** A thread inside enqueue: past the admission check, or past the put and about to
      count its message as accepted. */
  datatype Phase = Checked(message: Message) | Admitted

  datatype Mail = Mail(
    q: Queue,
    producers: map<nat, Phase>,
    inFlight: map<nat, Message>,
    accepted: nat,
    delivered: nat,
    failed: nat,
    rejected: nat,
    processed: nat)

  datatype Event =
    | CheckAdmission(producer: nat, message: Message)
    | PutMessage(producer: nat, now: real)
    | CountAccepted(producer: nat)
    | Take(worker: nat, now: real, q': Queue, served: Option<Entry>)
    | Delivered(worker: nat)
    | FailedForGood(worker: nat)
    | FailedForNow(worker: nat, now: real, jitter: real)
    | Close

  ghost predicate Possible(c: Config, m: Mail, e: Event) {
    match e
    case CheckAdmission(p, message) => p !in m.producers && |m.producers| < c.producers && message.attempts == 0
    case PutMessage(p, _) => p in m.producers && m.producers[p].Checked?
    case CountAccepted(p) => p in m.producers && m.producers[p].Admitted?
    case Take(w, now, q', served) => w < c.workers && w !in m.inFlight && Serves(m.q, now, q', served)
    case Delivered(w) => w in m.inFlight
    case FailedForGood(w) => w in m.inFlight
    case FailedForNow(w, _, jitter) => w in m.inFlight && 1.0 <= jitter <= 1.25
    case Close => true
  }

  predicate GivesUp(c: Config, message: Message) {
    message.attempts > |RETRY_DELAYS| || message.attempts >= c.maxAttempts
  }

  function Stretched(base: real, jitter: real): real {
    base * jitter
  }

  function RetryDelay(message: Message, jitter: real): real {
    var k := message.attempts as int - 1;
    if 0 <= k < |RETRY_DELAYS| then Stretched(RETRY_DELAYS[k], jitter) else 0.0
  }

  function Without<V>(m: map<nat, V>, k: nat): map<nat, V> {
    m - {k}
  }

  function StepCheck(c: Config, m: Mail, p: nat, message: Message): Mail {
    if message.priority > HIGH && |m.q.ready| + |m.q.delayed| >= c.NormalLimit() then m.(rejected := m.rejected + 1)
    else m.(producers := m.producers[p := Checked(message)])
  }

  function StepPut(c: Config, m: Mail, p: nat, message: Message, now: real): Mail {
    var (q', ok) := PutStep(m.q, c.maxsize, message, now, 0.0, false);
    if ok then m.(q := q', producers := m.producers[p := Admitted])
    else m.(producers := Without(m.producers, p), rejected := m.rejected + 1)
  }

  function StepTake(m: Mail, w: nat, q': Queue, served: Option<Entry>): Mail {
    match served
    case None => m.(q := q')
    case Some(e) =>
      var started := e.message.(attempts := e.message.attempts + 1);
      m.(q := q', inFlight := m.inFlight[w := started], processed := m.processed + 1)
  }

  function StepRetry(c: Config, m: Mail, w: nat, message: Message, now: real, jitter: real): Mail {
    var idle := m.(inFlight := Without(m.inFlight, w));
    if GivesUp(c, message) then idle.(failed := m.failed + 1)
    else
      var (q', ok) := PutStep(m.q, c.maxsize, message, now, RetryDelay(message, jitter), true);
      if ok then idle.(q := q') else idle.(failed := m.failed + 1)
  }

  function Step(c: Config, m: Mail, e: Event): Mail {
    match e
    case CheckAdmission(p, message) => StepCheck(c, m, p, message)
    case PutMessage(p, now) =>
      if p in m.producers && m.producers[p].Checked? then StepPut(c, m, p, m.producers[p].message, now) else m
    case CountAccepted(p) => m.(producers := Without(m.producers, p), accepted := m.accepted + 1)
    case Take(w, now, q', served) => StepTake(m, w, q', served)
    case Delivered(w) => m.(inFlight := Without(m.inFlight, w), delivered := m.delivered + 1)
    case FailedForGood(w) => m.(inFlight := Without(m.inFlight, w), failed := m.failed + 1)
    case FailedForNow(w, now, jitter) =>
      if w in m.inFlight then StepRetry(c, m, w, m.inFlight[w], now, jitter) else m
    case Close => m.(q := m.q.(closed := true))
  }

  const Empty: Mail := Mail(Queue({}, {}, 0, false), map[], map[], 0, 0, 0, 0, 0)

  // -- weights: counting messages in different ways ------------------------------------

  function One(): Message -> nat {
    (m: Message) => 1
  }

  /** Mail that is not HIGH. */
  function Bulk(): Message -> nat {
    (m: Message) => if m.priority > HIGH then 1 else 0
  }

  /** The processing steps a message may still cost. */
  function Left(tries: nat): Message -> nat {
    (m: Message) => if m.attempts < tries then tries - m.attempts else 0
  }

  function OfEntry(g: Message -> nat): Entry -> nat {
    (e: Entry) => g(e.message)
  }

  function OfJob(g: Message -> nat): ((nat, Message)) -> nat {
    (job: (nat, Message)) => g(job.1)
  }

  function PhaseWeight(g: Message -> nat, phase: Phase): nat {
    match phase
    case Checked(m) => g(m)
    case Admitted => 0
  }

  function OfPhase(g: Message -> nat): ((nat, Phase)) -> nat {
    (p: (nat, Phase)) => PhaseWeight(g, p.1)
  }

  function IsAdmitted(): ((nat, Phase)) -> nat {
    (p: (nat, Phase)) => if p.1.Admitted? then 1 else 0
  }

  ghost function Pairs<V>(m: map<nat, V>): set<(nat, V)> {
    set k | k in m :: (k, m[k])
  }

  ghost function Queued(m: Mail, g: Message -> nat): nat {
    Sum(m.q.Entries(), OfEntry(g))
  }

  ghost function Flying(m: Mail, g: Message -> nat): nat {
    Sum(Pairs(m.inFlight), OfJob(g))
  }

  ghost function Pending(m: Mail, g: Message -> nat): nat {
    Sum(Pairs(m.producers), OfPhase(g))
  }

  ghost function Uncounted(m: Mail): nat {
    Sum(Pairs(m.producers), IsAdmitted())
  }

  lemma PairsGrow<V(!new)>(m: map<nat, V>, k: nat, v: V)
    requires k !in m
    ensures (k, v) !in Pairs(m) && Pairs(m[k := v]) == Pairs(m) + {(k, v)}
  {
    var m' := m[k := v];
    forall item | item in Pairs(m) + {(k, v)} ensures item in Pairs(m') {
      assert item.0 in m' && item == (item.0, m'[item.0]);
    }
    forall item | item in Pairs(m') ensures item in Pairs(m) + {(k, v)} {
      assert item.0 != k ==> item.0 in m && item == (item.0, m[item.0]);
    }
    assert Pairs(m') == Pairs(m) + {(k, v)};
  }

  lemma PutItem<V(!new)>(m: map<nat, V>, k: nat, v: V, f: ((nat, V)) -> nat)
    requires k !in m
    ensures Sum(Pairs(m[k := v]), f) == Sum(Pairs(m), f) + f((k, v))
  {
    PairsGrow(m, k, v);
    SumGrow(Pairs(m), f, (k, v));
  }

  lemma DropItem<V(!new)>(m: map<nat, V>, k: nat, f: ((nat, V)) -> nat)
    requires k in m
    ensures Sum(Pairs(m), f) == Sum(Pairs(Without(m, k)), f) + f((k, m[k]))
  {
    assert Without(m, k)[k := m[k]] == m;
    PutItem(Without(m, k), k, m[k], f);
  }

  lemma {:induction false} SumOnes<T(!new)>(s: set<T>, f: T -> nat)
    requires forall x :: f(x) == 1
    ensures Sum(s, f) == |s|
    decreases |s|
  {
    if s != {} {
      var x :| x in s;
      SumPick(s, f, x);
      SumOnes(s - {x}, f);
    }
  }

  /** The counted sizes are the actual ones. */
  lemma SizesAreWeights(c: Config, m: Mail)
    requires m.q.Valid() && forall w :: w in m.inFlight ==> w < c.workers
    ensures |m.q.ready| + |m.q.delayed| == |m.q.Entries()| == Queued(m, One())
    ensures |m.inFlight| == Flying(m, One()) <= c.workers
  {
    SumOnes(m.q.Entries(), OfEntry(One()));
    SumOnes(Pairs(m.inFlight), OfJob(One()));
    PairsSize(m.inFlight);
    FlightSize(c, m.inFlight);
  }

  lemma {:induction false} PairsSize<V(!new)>(m: map<nat, V>)
    ensures |Pairs(m)| == |m|
    decreases |m|
  {
    if m != map[] {
      var k :| k in m;
      var rest := Without(m, k);
      PairsSize(rest);
      assert rest[k := m[k]] == m;
      PairsGrow(rest, k, m[k]);
    } else {
      assert Pairs(m) == {};
    }
  }

  /** Bulk mail is a part of what is queued, in flight or pending. */
  lemma BulkIsPart(c: Config, m: Mail)
    requires m.q.Valid() && forall w :: w in m.inFlight ==> w < c.workers
    ensures Queued(m, Bulk()) <= |m.q.ready| + |m.q.delayed|
    ensures Flying(m, Bulk()) <= c.workers
    ensures Pending(m, Bulk()) <= |m.producers|
  {
    SizesAreWeights(c, m);
    SumAtMostSize(m.q.Entries(), OfEntry(Bulk()));
    SumAtMostSize(Pairs(m.inFlight), OfJob(Bulk()));
    SumAtMostSize(Pairs(m.producers), OfPhase(Bulk()));
    PairsSize(m.inFlight);
    PairsSize(m.producers);
  }

  lemma FlightSize(c: Config, inFlight: map<nat, Message>)
    requires forall w :: w in inFlight ==> w < c.workers
    ensures |inFlight| <= c.workers
  {
    SetSpan(inFlight.Keys, 0, c.workers);
  }

  // -- how each step moves the weights ---------------------------------------------------

  lemma PutWeight(q: Queue, maxsize: int, message: Message, now: real, delay: real, force: bool, g: Message -> nat)
    requires q.Valid()
    ensures var (q', ok) := PutStep(q, maxsize, message, now, delay, force);
      q'.Valid() && Sum(q'.Entries(), OfEntry(g)) == Sum(q.Entries(), OfEntry(g)) + if ok then g(message) else 0
  {
    PutKeepsValid(q, maxsize, message, now, delay, force);
    SumGrow(q.Entries(), OfEntry(g), NewEntry(q, message, now, delay));
  }

  lemma ServeWeight(q: Queue, now: real, q': Queue, served: Option<Entry>, g: Message -> nat)
    requires q.Valid() && Serves(q, now, q', served)
    ensures q'.Valid()
    ensures Sum(q.Entries(), OfEntry(g))
         == Sum(q'.Entries(), OfEntry(g)) + if served.Some? then g(served.value.message) else 0
  {
    ServingKeepsValid(q, now, q', served);
    if served.Some? {
      SumPick(q.Entries(), OfEntry(g), served.value);
    }
  }

  lemma CheckWeights(c: Config, m: Mail, p: nat, message: Message, g: Message -> nat)
    requires p !in m.producers
    ensures var m' := StepCheck(c, m, p, message);
            var admitted := m'.producers != m.producers;
      && (admitted ==> message.priority == HIGH || |m.q.ready| + |m.q.delayed| < c.NormalLimit())
      && Pending(m', g) == Pending(m, g) + (if admitted then g(message) else 0)
      && Uncounted(m') == Uncounted(m)
  {
    PutItem(m.producers, p, Checked(message), OfPhase(g));
    PutItem(m.producers, p, Checked(message), IsAdmitted());
    assert m.producers[p := Checked(message)] != m.producers;
  }

  lemma PutWeights(c: Config, m: Mail, p: nat, now: real, g: Message -> nat)
    requires m.q.Valid() && p in m.producers && m.producers[p].Checked?
    ensures var message := m.producers[p].message;
            var m' := StepPut(c, m, p, message, now);
            var ok := PutStep(m.q, c.maxsize, message, now, 0.0, false).1;
      && m'.q.Valid()
      && Queued(m', g) == Queued(m, g) + (if ok then g(message) else 0)
      && Pending(m, g) == Pending(m', g) + g(message)
      && Uncounted(m') == Uncounted(m) + (if ok then 1 else 0)
  {
    var message := m.producers[p].message;
    PutWeight(m.q, c.maxsize, message, now, 0.0, false, g);
    DropItem(m.producers, p, OfPhase(g));
    DropItem(m.producers, p, IsAdmitted());
    var rest := Without(m.producers, p);
    PutItem(rest, p, Admitted, OfPhase(g));
    PutItem(rest, p, Admitted, IsAdmitted());
    assert rest[p := Admitted] == m.producers[p := Admitted];
  }

  lemma CountWeights(m: Mail, p: nat, g: Message -> nat)
    requires p in m.producers && m.producers[p].Admitted?
    ensures var m' := m.(producers := Without(m.producers, p), accepted := m.accepted + 1);
      && Pending(m', g) == Pending(m, g)
      && Uncounted(m) == Uncounted(m') + 1
  {
    DropItem(m.producers, p, OfPhase(g));
    DropItem(m.producers, p, IsAdmitted());
  }

  lemma TakeWeights(m: Mail, w: nat, now: real, q': Queue, e: Entry, g: Message -> nat)
    requires m.q.Valid() && w !in m.inFlight && Serves(m.q, now, q', Some(e))
    ensures var m' := StepTake(m, w, q', Some(e));
      && Queued(m, g) == Queued(m', g) + g(e.message)
      && Flying(m', g) == Flying(m, g) + g(e.message.(attempts := e.message.attempts + 1))
  {
    ServeWeight(m.q, now, q', Some(e), g);
    PutItem(m.inFlight, w, e.message.(attempts := e.message.attempts + 1), OfJob(g));
  }

  lemma FinishWeights(m: Mail, w: nat, g: Message -> nat)
    requires w in m.inFlight
    ensures Flying(m, g) == Flying(m.(inFlight := Without(m.inFlight, w)), g) + g(m.inFlight[w])
  {
    DropItem(m.inFlight, w, OfJob(g));
  }

  lemma RetryWeights(c: Config, m: Mail, w: nat, now: real, jitter: real, g: Message -> nat)
    requires m.q.Valid() && w in m.inFlight
    ensures var message := m.inFlight[w];
            var m' := StepRetry(c, m, w, message, now, jitter);
      && m'.q.Valid()
      && Flying(m, g) == Flying(m', g) + g(message)
      && Queued(m', g) == Queued(m, g) + (if m'.failed == m.failed then g(message) else 0)
      && (m'.failed == m.failed || m'.failed == m.failed + 1)
  {
    var message := m.inFlight[w];
    FinishWeights(m, w, g);
    PutWeight(m.q, c.maxsize, message, now, RetryDelay(message, jitter), true, g);
  }

  // -- the ledger --------------------------------------------------------------------------

  /** What a state owes and holds: messages admitted, finished, queued or in flight; mail
      that is not HIGH anywhere past the check; processing steps done or still possible. */
  datatype Ledger = Ledger(admitted: nat, finished: nat, live: nat, bulk: nat, work: nat)

  ghost function LedgerOf(c: Config, m: Mail): Ledger {
    Ledger(m.accepted + Uncounted(m),
           m.delivered + m.failed,
           Queued(m, One()) + Flying(m, One()),
           Queued(m, Bulk()) + Flying(m, Bulk()) + Pending(m, Bulk()),
           m.processed + Queued(m, Left(c.Tries())) + Flying(m, Left(c.Tries())))
  }

  ghost predicate Balanced(c: Config, l: Ledger) {
    && l.admitted == l.finished + l.live
    && l.live <= c.maxsize + c.workers
    && l.bulk + 1 <= c.NormalLimit() + c.workers + c.producers
    && l.work <= c.Tries() * l.admitted
  }

  /** Nothing new: messages move on or finish. */
  ghost predicate Settles(l: Ledger, l': Ledger) {
    && l'.admitted == l.admitted && l'.bulk <= l.bulk && l'.work <= l.work
    && ((l'.finished == l.finished && l'.live == l.live) || (l'.finished == l.finished + 1 && l'.live + 1 == l.live))
  }

  /** One new message. */
  ghost predicate Admits(c: Config, l: Ledger, l': Ledger) {
    && l'.admitted == l.admitted + 1 && l'.finished == l.finished && l'.live == l.live + 1
    && l'.bulk <= l.bulk && l'.work == l.work + c.Tries()
    && l'.live <= c.maxsize + c.workers
  }

  lemma SettlingKeepsBalance(c: Config, l: Ledger, l': Ledger)
    requires Balanced(c, l) && (Settles(l, l') || Admits(c, l, l'))
    ensures Balanced(c, l')
  {
    var tries := c.Tries();
    assert tries * (l.admitted + 1) == tries * l.admitted + tries;
  }

  lemma CheckLedger(c: Config, m: Mail, p: nat, message: Message)
    requires p !in m.producers
    ensures var l, l' := LedgerOf(c, m), LedgerOf(c, StepCheck(c, m, p, message));
      Settles(l, l') || (
        && l' == l.(bulk := l.bulk + 1)
        && |m.q.ready| + |m.q.delayed| < c.NormalLimit())
  {
    CheckWeights(c, m, p, message, Bulk());
  }

  lemma PutLiveMail(c: Config, m: Mail, p: nat, now: real)
    requires m.q.Valid() && p in m.producers && m.producers[p].Checked?
    ensures var l, l' := LedgerOf(c, m), LedgerOf(c, StepPut(c, m, p, m.producers[p].message, now));
            var ok := PutStep(m.q, c.maxsize, m.producers[p].message, now, 0.0, false).1;
      && l'.live == l.live + (if ok then 1 else 0)
      && l'.admitted == l.admitted + (if ok then 1 else 0)
      && l'.finished == l.finished
  {
    PutWeights(c, m, p, now, One());
  }

  lemma PutBulkMail(c: Config, m: Mail, p: nat, now: real)
    requires m.q.Valid() && p in m.producers && m.producers[p].Checked?
    ensures LedgerOf(c, StepPut(c, m, p, m.producers[p].message, now)).bulk <= LedgerOf(c, m).bulk
  {
    PutWeights(c, m, p, now, Bulk());
  }

  lemma PutWork(c: Config, m: Mail, p: nat, now: real)
    requires m.q.Valid() && p in m.producers && m.producers[p].Checked? && m.producers[p].message.attempts == 0
    ensures var ok := PutStep(m.q, c.maxsize, m.producers[p].message, now, 0.0, false).1;
      LedgerOf(c, StepPut(c, m, p, m.producers[p].message, now)).work
      == LedgerOf(c, m).work + if ok then c.Tries() else 0
  {
    PutWeights(c, m, p, now, Left(c.Tries()));
  }

  lemma AddedOrRefused(c: Config, l: Ledger, l': Ledger, ok: bool)
    requires l'.live == l.live + (if ok then 1 else 0)
    requires l'.admitted == l.admitted + (if ok then 1 else 0)
    requires l'.finished == l.finished && l'.bulk <= l.bulk
    requires l'.work == l.work + if ok then c.Tries() else 0
    requires ok ==> l.live < c.maxsize + c.workers
    ensures Settles(l, l') || Admits(c, l, l')
  {
  }

  lemma PutLedger(c: Config, m: Mail, p: nat, now: real)
    requires m.q.Valid() && p in m.producers && m.producers[p].Checked?
    requires m.producers[p].message.attempts == 0 && Flying(m, One()) <= c.workers
    requires |m.q.ready| + |m.q.delayed| == Queued(m, One())
    ensures var l, l' := LedgerOf(c, m), LedgerOf(c, StepPut(c, m, p, m.producers[p].message, now));
      Settles(l, l') || Admits(c, l, l')
  {
    PutIsRefusedWhenFull(m.q, c.maxsize, m.producers[p].message, now);
    var l, l' := LedgerOf(c, m), LedgerOf(c, StepPut(c, m, p, m.producers[p].message, now));
    var ok := PutStep(m.q, c.maxsize, m.producers[p].message, now, 0.0, false).1;
    assert ok ==> l.live < c.maxsize + c.workers;
    hide *;
    PutLiveMail(c, m, p, now);
    PutBulkMail(c, m, p, now);
    PutWork(c, m, p, now);
    AddedOrRefused(c, l, l', ok);
  }

  lemma PutIsRefusedWhenFull(q: Queue, maxsize: int, message: Message, now: real)
    ensures PutStep(q, maxsize, message, now, 0.0, false).1 ==> |q.ready| + |q.delayed| < maxsize
  {
  }

  lemma CountLedger(c: Config, m: Mail, p: nat)
    requires p in m.producers && m.producers[p].Admitted?
    ensures Settles(LedgerOf(c, m), LedgerOf(c, Step(c, m, CountAccepted(p))))
  {
    CountWeights(m, p, Bulk());
  }

  lemma TakeLedger(c: Config, m: Mail, w: nat, now: real, q': Queue, served: Option<Entry>)
    requires m.q.Valid() && w !in m.inFlight && Serves(m.q, now, q', served)
    requires served.Some? ==> served.value.message.attempts < c.Tries()
    ensures Settles(LedgerOf(c, m), LedgerOf(c, StepTake(m, w, q', served)))
  {
    if served.Some? {
      TakeWeights(m, w, now, q', served.value, One());
      TakeWeights(m, w, now, q', served.value, Bulk());
      TakeWeights(m, w, now, q', served.value, Left(c.Tries()));
      hide Sum, Serves;
    }
  }

  lemma FinishLedger(c: Config, m: Mail, w: nat, delivered: bool)
    requires w in m.inFlight
    ensures Settles(LedgerOf(c, m), LedgerOf(c, Step(c, m, if delivered then Delivered(w) else FailedForGood(w))))
  {
    FinishWeights(m, w, One());
    FinishWeights(m, w, Bulk());
    FinishWeights(m, w, Left(c.Tries()));
    hide Sum;
  }

  lemma RetryLedger(c: Config, m: Mail, w: nat, now: real, jitter: real)
    requires m.q.Valid() && w in m.inFlight
    ensures Settles(LedgerOf(c, m), LedgerOf(c, StepRetry(c, m, w, m.inFlight[w], now, jitter)))
  {
    RetryWeights(c, m, w, now, jitter, One());
    RetryWeights(c, m, w, now, jitter, Bulk());
    RetryWeights(c, m, w, now, jitter, Left(c.Tries()));
    hide Sum, PutStep;
  }

  // -- the invariant ---------------------------------------------------------------------

  ghost predicate JobOk(c: Config, w: nat, message: Message) {
    w < c.workers && 1 <= message.attempts <= c.Tries()
  }

  ghost predicate PhaseOk(phase: Phase) {
    phase.Checked? ==> phase.message.attempts == 0
  }

  ghost predicate WellFormed(c: Config, m: Mail) {
    && m.q.Valid()
    && |m.producers| <= c.producers
    && (forall p :: p in m.producers ==> PhaseOk(m.producers[p]))
    && (forall w :: w in m.inFlight ==> JobOk(c, w, m.inFlight[w]))
    && (forall e :: e in m.q.Entries() ==> e.message.attempts < c.Tries())
  }

  ghost predicate Invariant(c: Config, m: Mail) {
    WellFormed(c, m) && Balanced(c, LedgerOf(c, m))
  }

  lemma WithoutSize<V>(m: map<nat, V>, k: nat, v: V)
    requires k in m
    ensures |Without(m, k)| == |m| - 1 && |m[k := v]| == |m|
  {
    assert Without(m, k).Keys == m.Keys - {k};
    assert |Without(m, k).Keys| == |m.Keys| - 1;
    assert m[k := v].Keys == m.Keys;
    assert |m[k := v].Keys| == |m.Keys|;
  }

  lemma CheckKeepsWellFormed(c: Config, m: Mail, p: nat, message: Message)
    requires WellFormed(c, m) && Possible(c, m, CheckAdmission(p, message))
    ensures WellFormed(c, StepCheck(c, m, p, message))
  {
    hide Queue.Valid, Config.NormalLimit, Config.Tries;
    assert |m.producers[p := Checked(message)]| == |m.producers| + 1;
  }

  lemma PutProducersOk(c: Config, producers: map<nat, Phase>, p: nat)
    requires |producers| <= c.producers && p in producers
    requires forall x :: x in producers ==> PhaseOk(producers[x])
    ensures forall after | after == producers[p := Admitted] || after == Without(producers, p) ::
      |after| <= c.producers && forall x :: x in after ==> PhaseOk(after[x])
  {
    WithoutSize(producers, p, Admitted);
  }

  lemma PutEntriesOk(c: Config, q: Queue, message: Message, now: real, delay: real, force: bool)
    requires q.Valid() && message.attempts < c.Tries()
    requires forall e :: e in q.Entries() ==> e.message.attempts < c.Tries()
    ensures var q' := PutStep(q, c.maxsize, message, now, delay, force).0;
      q'.Valid() && forall e :: e in q'.Entries() ==> e.message.attempts < c.Tries()
  {
    PutKeepsValid(q, c.maxsize, message, now, delay, force);
    assert NewEntry(q, message, now, delay).message == message;
    hide PutStep, NewEntry, Queue.Valid, Config.Tries;
  }

  lemma PutKeepsWellFormed(c: Config, m: Mail, p: nat, now: real)
    requires WellFormed(c, m) && p in m.producers && m.producers[p].Checked?
    ensures WellFormed(c, StepPut(c, m, p, m.producers[p].message, now))
  {
    assert PhaseOk(m.producers[p]);
    PutEntriesOk(c, m.q, m.producers[p].message, now, 0.0, false);
    PutProducersOk(c, m.producers, p);
    hide PutStep, Queue.Valid, Config.Tries, JobOk, PhaseOk, Without;
  }

  lemma TakeKeepsWellFormed(c: Config, m: Mail, w: nat, now: real, q': Queue, served: Option<Entry>)
    requires WellFormed(c, m) && Possible(c, m, Take(w, now, q', served))
    ensures WellFormed(c, StepTake(m, w, q', served))
  {
    ServingKeepsValid(m.q, now, q', served);
    hide Serves, Queue.Valid;
  }

  lemma RetryKeepsWellFormed(c: Config, m: Mail, w: nat, now: real, jitter: real)
    requires WellFormed(c, m) && w in m.inFlight
    ensures WellFormed(c, StepRetry(c, m, w, m.inFlight[w], now, jitter))
  {
    assert JobOk(c, w, m.inFlight[w]);
    if !GivesUp(c, m.inFlight[w]) {
      PutEntriesOk(c, m.q, m.inFlight[w], now, RetryDelay(m.inFlight[w], jitter), true);
    }
    hide PutStep, Queue.Valid, RetryDelay, GivesUp;
  }

  lemma StepKeepsWellFormed(c: Config, m: Mail, e: Event)
    requires WellFormed(c, m) && Possible(c, m, e)
    ensures WellFormed(c, Step(c, m, e))
  {
    match e
    case Take(w, now, q', served) => TakeKeepsWellFormed(c, m, w, now, q', served);
    case Delivered(w) =>
    case FailedForGood(w) =>
    case FailedForNow(w, now, jitter) => RetryKeepsWellFormed(c, m, w, now, jitter);
    case Close => assert m.q.(closed := true).Entries() == m.q.Entries();
    case CheckAdmission(p, message) => CheckKeepsWellFormed(c, m, p, message);
    case PutMessage(p, now) => PutKeepsWellFormed(c, m, p, now);
    case CountAccepted(p) => WithoutSize(m.producers, p, Admitted);
  }

  ghost predicate Moves(c: Config, m: Mail, m': Mail) {
    Settles(LedgerOf(c, m), LedgerOf(c, m')) || Admits(c, LedgerOf(c, m), LedgerOf(c, m'))
  }

  lemma PutMoves(c: Config, m: Mail, p: nat, now: real)
    requires WellFormed(c, m) && Possible(c, m, PutMessage(p, now))
    ensures Moves(c, m, Step(c, m, PutMessage(p, now)))
  {
    SizesAreWeights(c, m);
    assert PhaseOk(m.producers[p]);
    PutLedger(c, m, p, now);
    hide LedgerOf, Settles, Admits, StepPut;
  }

  lemma CountMoves(c: Config, m: Mail, p: nat)
    requires WellFormed(c, m) && Possible(c, m, CountAccepted(p))
    ensures Moves(c, m, Step(c, m, CountAccepted(p)))
  {
    CountLedger(c, m, p);
    hide LedgerOf, Settles, Admits;
  }

  lemma TakeMoves(c: Config, m: Mail, w: nat, now: real, q': Queue, served: Option<Entry>)
    requires WellFormed(c, m) && Possible(c, m, Take(w, now, q', served))
    ensures Moves(c, m, Step(c, m, Take(w, now, q', served)))
  {
    ServingKeepsValid(m.q, now, q', served);
    TakeLedger(c, m, w, now, q', served);
    hide LedgerOf, Settles, Admits, StepTake;
  }

  lemma FinishMoves(c: Config, m: Mail, w: nat, delivered: bool)
    requires WellFormed(c, m) && w in m.inFlight
    ensures Moves(c, m, Step(c, m, if delivered then Delivered(w) else FailedForGood(w)))
  {
    FinishLedger(c, m, w, delivered);
    hide LedgerOf, Settles, Admits;
  }

  lemma RetryMoves(c: Config, m: Mail, w: nat, now: real, jitter: real)
    requires WellFormed(c, m) && w in m.inFlight
    ensures Moves(c, m, Step(c, m, FailedForNow(w, now, jitter)))
  {
    hide LedgerOf, Settles, Admits, StepRetry, Queue.Valid, JobOk, PhaseOk;
    RetryLedger(c, m, w, now, jitter);
  }

  lemma CloseMoves(c: Config, m: Mail)
    ensures Moves(c, m, Step(c, m, Close))
  {
    assert LedgerOf(c, Step(c, m, Close)) == LedgerOf(c, m);
  }

  lemma StepMovesLedger(c: Config, m: Mail, e: Event)
    requires WellFormed(c, m) && Possible(c, m, e) && !e.CheckAdmission?
    ensures Moves(c, m, Step(c, m, e))
  {
    hide Moves, Step, WellFormed;
    match e
    case PutMessage(p, now) => PutMoves(c, m, p, now);
    case CountAccepted(p) => CountMoves(c, m, p);
    case Take(w, now, q', served) => TakeMoves(c, m, w, now, q', served);
    case Delivered(w) => FinishMoves(c, m, w, true);
    case FailedForGood(w) => FinishMoves(c, m, w, false);
    case FailedForNow(w, now, jitter) => RetryMoves(c, m, w, now, jitter);
    case Close => CloseMoves(c, m);
  }

  lemma CheckKeepsBalance(c: Config, m: Mail, p: nat, message: Message)
    requires Invariant(c, m) && Possible(c, m, CheckAdmission(p, message))
    ensures Balanced(c, LedgerOf(c, StepCheck(c, m, p, message)))
  {
    var l, l' := LedgerOf(c, m), LedgerOf(c, StepCheck(c, m, p, message));
    CheckLedger(c, m, p, message);
    BulkIsPart(c, m);
    if Settles(l, l') {
      SettlingKeepsBalance(c, l, l');
    }
  }

  /** Whatever happens next, in whichever thread. */
  lemma StepKeepsInvariant(c: Config, m: Mail, e: Event)
    requires Invariant(c, m) && Possible(c, m, e)
    ensures Invariant(c, Step(c, m, e))
  {
    StepKeepsWellFormed(c, m, e);
    if e.CheckAdmission? {
      CheckKeepsBalance(c, m, e.producer, e.message);
    } else {
      StepMovesLedger(c, m, e);
      SettlingKeepsBalance(c, LedgerOf(c, m), LedgerOf(c, Step(c, m, e)));
    }
  }

  // -- every run -----------------------------------------------------------------------------

  ghost function Run(c: Config, m: Mail, events: seq<Event>): Mail
    decreases |events|
  {
    if events == [] then m else Run(c, Step(c, m, events[0]), events[1..])
  }

  ghost predicate PossibleRun(c: Config, m: Mail, events: seq<Event>)
    decreases |events|
  {
    events == [] || (Possible(c, m, events[0]) && PossibleRun(c, Step(c, m, events[0]), events[1..]))
  }

  lemma {:induction false} RunKeepsInvariant(c: Config, m: Mail, events: seq<Event>)
    requires Invariant(c, m) && PossibleRun(c, m, events)
    ensures Invariant(c, Run(c, m, events))
    decreases |events|
  {
    if events != [] {
      StepKeepsInvariant(c, m, events[0]);
      hide Invariant, Possible;
      RunKeepsInvariant(c, Step(c, m, events[0]), events[1..]);
    }
  }

  lemma EmptyIsBalanced(c: Config)
    ensures Invariant(c, Empty)
  {
    assert Empty.q.Entries() == {} && Pairs(Empty.inFlight) == {} && Pairs(Empty.producers) == {};
  }

  // -- in plain terms -------------------------------------------------------------------------

  function AdmittedProducers(m: Mail): set<nat> {
    set p | p in m.producers && m.producers[p].Admitted?
  }

  function BulkEntries(q: Queue): set<Entry> {
    set e | e in q.Entries() && e.message.priority > HIGH
  }

  function BulkJobs(m: Mail): set<nat> {
    set w | w in m.inFlight && m.inFlight[w].priority > HIGH
  }

  function Flagged<V>(m: map<nat, V>, f: ((nat, V)) -> nat): set<nat> {
    set k | k in m && f((k, m[k])) == 1
  }

  lemma FlaggedStep<V(!new)>(m: map<nat, V>, k: nat, f: ((nat, V)) -> nat)
    requires k in m && f((k, m[k])) <= 1
    ensures |Flagged(m, f)| == |Flagged(Without(m, k), f)| + f((k, m[k]))
  {
    var fewer := Flagged(Without(m, k), f);
    assert Flagged(m, f) == if f((k, m[k])) == 1 then fewer + {k} else fewer;
    assert k !in fewer;
  }

  lemma {:induction false} CountedPairs<V(!new)>(m: map<nat, V>, f: ((nat, V)) -> nat)
    requires forall item :: f(item) <= 1
    ensures Sum(Pairs(m), f) == |Flagged(m, f)|
    decreases |m|
  {
    if m == map[] {
      assert Pairs(m) == {} && Flagged(m, f) == {};
    } else {
      var k :| k in m;
      WithoutSize(m, k, m[k]);
      FlaggedStep(m, k, f);
      DropItem(m, k, f);
      CountedPairs(Without(m, k), f);
    }
  }

  lemma UncountedIsPlain(m: Mail)
    ensures Uncounted(m) == |AdmittedProducers(m)|
  {
    CountedPairs(m.producers, IsAdmitted());
    assert Flagged(m.producers, IsAdmitted()) == AdmittedProducers(m);
  }

  lemma BulkIsPlain(m: Mail)
    ensures Queued(m, Bulk()) == |BulkEntries(m.q)|
    ensures Flying(m, Bulk()) == |BulkJobs(m)|
  {
    CountedPairs(m.inFlight, OfJob(Bulk()));
    assert Flagged(m.inFlight, OfJob(Bulk())) == BulkJobs(m);
    SumIsCount(m.q.Entries(), OfEntry(Bulk()));
    assert Ones(m.q.Entries(), OfEntry(Bulk())) == BulkEntries(m.q);
  }

  lemma PlainTerms(c: Config, m: Mail)
    requires Invariant(c, m)
    ensures m.accepted + |AdmittedProducers(m)| == m.delivered + m.failed + |m.q.Entries()| + |m.inFlight|
    ensures |m.q.Entries()| + |m.inFlight| <= c.maxsize + c.workers
    ensures |BulkEntries(m.q)| + |BulkJobs(m)| + 1 <= c.NormalLimit() + c.workers + c.producers
  {
    var l := LedgerOf(c, m);
    assert forall w :: w in m.inFlight ==> JobOk(c, w, m.inFlight[w]);
    SizesAreWeights(c, m);
    UncountedIsPlain(m);
    BulkIsPlain(m);
    assert l.admitted == m.accepted + |AdmittedProducers(m)|;
    assert l.live == |m.q.Entries()| + |m.inFlight|;
    assert l.bulk >= |BulkEntries(m.q)| + |BulkJobs(m)|;
    assert Balanced(c, l);
    hide LedgerOf, Queue.Entries, AdmittedProducers, BulkEntries, BulkJobs, WellFormed;
  }

  /** All the processing done so far is paid for by what was admitted. */
  ghost predicate WorkIsPaidFor(c: Config, m: Mail) {
    m.processed <= c.Tries() * (m.accepted + |AdmittedProducers(m)|)
  }

  /** No message has been processed more often than its budget. */
  ghost predicate TriesAreKept(c: Config, m: Mail) {
    && (forall w :: w in m.inFlight ==> 1 <= m.inFlight[w].attempts <= c.Tries())
    && (forall e :: e in m.q.Entries() ==> e.message.attempts < c.Tries())
  }

  lemma WorkInPlainTerms(c: Config, m: Mail)
    requires Invariant(c, m)
    ensures WorkIsPaidFor(c, m)
  {
    UncountedIsPlain(m);
    var l := LedgerOf(c, m);
    var n := m.accepted + |AdmittedProducers(m)|;
    assert l.admitted == n && m.processed <= l.work;
    assert l.work <= c.Tries() * l.admitted;
    hide *;
  }

  /** Nothing accepted is ever lost, and the queue and the reserve hold for the whole run. */
  lemma RunConservesMail(c: Config, events: seq<Event>)
    requires PossibleRun(c, Empty, events)
    ensures var m := Run(c, Empty, events);
      && m.accepted + |AdmittedProducers(m)|
         == m.delivered + m.failed + |m.q.Entries()| + |m.inFlight|
      && |m.q.Entries()| + |m.inFlight| <= c.maxsize + c.workers
      && |BulkEntries(m.q)| + |BulkJobs(m)| + 1 <= c.NormalLimit() + c.workers + c.producers
  {
    EmptyIsBalanced(c);
    RunKeepsInvariant(c, Empty, events);
    PlainTerms(c, Run(c, Empty, events));
  }

  lemma TriesInPlainTerms(c: Config, m: Mail)
    requires WellFormed(c, m)
    ensures TriesAreKept(c, m)
  {
    assert forall w :: w in m.inFlight ==> JobOk(c, w, m.inFlight[w]);
  }

  /** Finitely many admitted messages cause finitely many processing steps, in any run. */
  lemma RunProcessesBoundedly(c: Config, events: seq<Event>)
    requires PossibleRun(c, Empty, events)
    ensures WorkIsPaidFor(c, Run(c, Empty, events)) && TriesAreKept(c, Run(c, Empty, events))
  {
    EmptyIsBalanced(c);
    RunKeepsInvariant(c, Empty, events);
    var m := Run(c, Empty, events);
    assert WellFormed(c, m);
    hide *;
    WorkInPlainTerms(c, m);
    TriesInPlainTerms(c, m);
  }

  /** A retry always has a delay to read, and that delay puts it in the delayed heap. */
  lemma RetryWaitsItsTurn(c: Config, message: Message, jitter: real)
    requires 1 <= message.attempts <= c.Tries() && !GivesUp(c, message) && 1.0 <= jitter <= 1.25
    ensures message.attempts - 1 < |RETRY_DELAYS|
    ensures var base := RETRY_DELAYS[message.attempts - 1];
      30.0 <= base <= RetryDelay(message, jitter) <= base * 1.25
  {
    var base := RETRY_DELAYS[message.attempts - 1];
    assert base * 1.0 <= base * jitter <= base * 1.25;
  }

  /** What the reserve is for: while the HIGH mail queued is below it, HIGH mail gets in. */
  lemma HighMailGetsIn(c: Config, m: Mail, message: Message, now: real)
    requires Invariant(c, m) && !m.q.closed
    requires |m.q.Entries() - BulkEntries(m.q)| + c.NormalLimit() + c.workers + c.producers <= c.maxsize
    ensures PutStep(m.q, c.maxsize, message, now, 0.0, false).1
  {
    PlainTerms(c, m);
    SizesAreWeights(c, m);
    assert BulkEntries(m.q) <= m.q.Entries();
  }

  // -- why the bound counts the producers ------------------------------------------------------

  function OrdinaryMail(m: Mail): nat {
    |BulkEntries(m.q)| + |BulkJobs(m)|
  }

  /** The most ordinary mail that can be queued and in flight: a full worker each, and in the
      queue what every thread past the check may add, up to its size. */
  function Peak(c: Config): int {
    c.workers + if c.NormalLimit() + c.producers - 1 <= c.maxsize then c.NormalLimit() + c.producers - 1 else c.maxsize
  }

  lemma RunStaysBelowPeak(c: Config, events: seq<Event>)
    requires PossibleRun(c, Empty, events)
    ensures OrdinaryMail(Run(c, Empty, events)) <= Peak(c)
  {
    RunConservesMail(c, events);
    var m := Run(c, Empty, events);
    hide Run, PossibleRun, Config.NormalLimit;
    SubsetCount(BulkEntries(m.q), m.q.Entries());
    SubsetCount(BulkJobs(m), m.inFlight.Keys);
  }

  ghost predicate Reachable(c: Config, m: Mail) {
    exists events :: PossibleRun(c, Empty, events) && Run(c, Empty, events) == m
  }

  lemma {:induction false} RunThenStep(c: Config, m: Mail, events: seq<Event>, e: Event)
    requires PossibleRun(c, m, events) && Possible(c, Run(c, m, events), e)
    ensures PossibleRun(c, m, events + [e]) && Run(c, m, events + [e]) == Step(c, Run(c, m, events), e)
    decreases |events|
  {
    var all := events + [e];
    if events != [] {
      assert all[0] == events[0] && all[1..] == events[1..] + [e];
      hide Possible, Step;
      RunThenStep(c, Step(c, m, events[0]), events[1..], e);
    } else {
      assert all == [e] && all[1..] == [];
    }
  }

  lemma ReachableStep(c: Config, m: Mail, e: Event)
    requires Reachable(c, m) && Possible(c, m, e)
    ensures Reachable(c, Step(c, m, e))
  {
    var events :| PossibleRun(c, Empty, events) && Run(c, Empty, events) == m;
    hide Possible, Step;
    RunThenStep(c, Empty, events, e);
  }

  const ORDINARY: Message := Message(0, 1, 0)

  predicate OnlyOrdinary(q: Queue) {
    q.delayed == {} && !q.closed && forall e :: e in q.ready ==> e.message.priority == 1
  }

  /** `n` ordinary messages are queued, the first `w` workers hold one each, and of the `r`
      threads past the check the first `k` have put theirs. */
  ghost predicate Stage(m: Mail, n: nat, w: nat, r: nat, k: nat) {
    && m.q.Valid() && OnlyOrdinary(m.q) && |m.q.ready| == n
    && (forall i: nat :: i in m.inFlight <==> i < w)
    && (forall i :: i in m.inFlight ==> m.inFlight[i].priority == 1)
    && (forall p: nat :: p in m.producers <==> p < r)
    && (forall p :: p in m.producers ==> m.producers[p] == if p < k then Admitted else Checked(ORDINARY))
  }

  lemma {:induction false} ProducersNumber(m: Mail, n: nat, w: nat, r: nat, k: nat)
    requires Stage(m, n, w, r, k)
    ensures |m.producers| == r
  {
    RangeMeans(0, r);
    assert m.producers.Keys == Range(0, r);
  }

  lemma CheckStage(c: Config, m: Mail, n: nat, w: nat, r: nat)
    requires Stage(m, n, w, r, 0) && n < c.NormalLimit() && r < c.producers
    ensures Possible(c, m, CheckAdmission(r, ORDINARY))
    ensures Stage(Step(c, m, CheckAdmission(r, ORDINARY)), n, w, r + 1, 0)
  {
    ProducersNumber(m, n, w, r, 0);
  }

  lemma PutStage(c: Config, m: Mail, n: nat, w: nat, r: nat, k: nat)
    requires Stage(m, n, w, r, k) && k < r && n < c.maxsize
    ensures Possible(c, m, PutMessage(k, 0.0))
    ensures Stage(Step(c, m, PutMessage(k, 0.0)), n + 1, w, r, k + 1)
  {
    PutKeepsValid(m.q, c.maxsize, ORDINARY, 0.0, 0.0, false);
    var e := NewEntry(m.q, ORDINARY, 0.0, 0.0);
    assert e !in m.q.Entries();
  }

  lemma CountStage(c: Config, m: Mail, n: nat, w: nat)
    requires Stage(m, n, w, 1, 1)
    ensures Possible(c, m, CountAccepted(0)) && Stage(Step(c, m, CountAccepted(0)), n, w, 0, 0)
  {
    assert 0 in m.producers;
  }

  lemma TakeStage(c: Config, m: Mail, w: nat) returns (e: Event)
    requires Stage(m, 1, w, 0, 0) && w < c.workers
    ensures Possible(c, m, e) && Stage(Step(c, m, e), 0, w + 1, 0, 0)
  {
    var first :| first in m.q.ready;
    assert |m.q.ready - {first}| == 0;
    assert m.q.ready == {first};
    assert m.q.ready + Overdue(m.q, 0.0) == {first};
    e := Take(w, 0.0, m.q.(ready := {}), Some(first));
  }

  lemma AdmitStage(c: Config, m: Mail, n: nat, w: nat) returns (m': Mail)
    requires Reachable(c, m) && Stage(m, n, w, 0, 0)
    requires n < c.NormalLimit() && n < c.maxsize && c.producers >= 1
    ensures Reachable(c, m') && Stage(m', n + 1, w, 0, 0)
  {
    hide Reachable, Stage, Possible, Step;
    CheckStage(c, m, n, w, 0);
    ReachableStep(c, m, CheckAdmission(0, ORDINARY));
    var m1 := Step(c, m, CheckAdmission(0, ORDINARY));
    PutStage(c, m1, n, w, 1, 0);
    ReachableStep(c, m1, PutMessage(0, 0.0));
    var m2 := Step(c, m1, PutMessage(0, 0.0));
    CountStage(c, m2, n + 1, w);
    ReachableStep(c, m2, CountAccepted(0));
    m' := Step(c, m2, CountAccepted(0));
  }

  lemma {:induction false} BusyWorkers(c: Config, w: nat) returns (m: Mail)
    requires w <= c.workers && c.producers >= 1 && c.maxsize >= 1
    ensures Reachable(c, m) && Stage(m, 0, w, 0, 0)
  {
    if w == 0 {
      m := Empty;
      assert PossibleRun(c, Empty, []) && Run(c, Empty, []) == Empty;
    } else {
      var m0 := BusyWorkers(c, w - 1);
      hide Reachable, Stage, Possible, Step;
      var m1 := AdmitStage(c, m0, 0, w - 1);
      var e := TakeStage(c, m1, w - 1);
      ReachableStep(c, m1, e);
      m := Step(c, m1, e);
    }
  }

  lemma {:induction false} FilledQueue(c: Config, n: nat) returns (m: Mail)
    requires n <= c.NormalLimit() && n <= c.maxsize && c.producers >= 1 && c.maxsize >= 1
    ensures Reachable(c, m) && Stage(m, n, c.workers, 0, 0)
  {
    hide Reachable, Stage;
    if n == 0 {
      m := BusyWorkers(c, c.workers);
    } else {
      m := FilledQueue(c, n - 1);
      m := AdmitStage(c, m, n - 1, c.workers);
    }
  }

  lemma {:induction false} PastTheCheck(c: Config, n: nat, r: nat) returns (m: Mail)
    requires n < c.NormalLimit() && n <= c.maxsize && r <= c.producers && c.producers >= 1 && c.maxsize >= 1
    ensures Reachable(c, m) && Stage(m, n, c.workers, r, 0)
    decreases r
  {
    hide Reachable, Stage, Possible, Step;
    if r == 0 {
      m := FilledQueue(c, n);
    } else {
      var m0 := PastTheCheck(c, n, r - 1);
      CheckStage(c, m0, n, c.workers, r - 1);
      ReachableStep(c, m0, CheckAdmission(r - 1, ORDINARY));
      m := Step(c, m0, CheckAdmission(r - 1, ORDINARY));
    }
  }

  lemma {:induction false} PastThePut(c: Config, n: nat, r: nat, k: nat) returns (m: Mail)
    requires n < c.NormalLimit() && n + k <= c.maxsize && k <= r <= c.producers && c.producers >= 1 && c.maxsize >= 1
    ensures Reachable(c, m) && Stage(m, n + k, c.workers, r, k)
    decreases k
  {
    hide Reachable, Stage, Possible, Step;
    if k == 0 {
      m := PastTheCheck(c, n, r);
    } else {
      var m0 := PastThePut(c, n, r, k - 1);
      PutStage(c, m0, n + (k - 1), c.workers, r, k - 1);
      ReachableStep(c, m0, PutMessage(k - 1, 0.0));
      m := Step(c, m0, PutMessage(k - 1, 0.0));
    }
  }

  lemma StageCounts(m: Mail, n: nat, w: nat, r: nat, k: nat)
    requires Stage(m, n, w, r, k)
    ensures OrdinaryMail(m) == n + w
  {
    RangeMeans(0, w);
    assert BulkEntries(m.q) == m.q.ready && BulkJobs(m) == Range(0, w);
  }

  /** The peak is reached, in every configuration that can hold mail at all. */
  lemma PeakIsReached(c: Config)
    requires c.producers >= 1 && c.maxsize >= 1
    ensures exists events :: PossibleRun(c, Empty, events) && OrdinaryMail(Run(c, Empty, events)) == Peak(c)
  {
    var n := c.NormalLimit() - 1;
    assert n < c.maxsize;
    var k := if c.producers <= c.maxsize - n then c.producers else c.maxsize - n;
    var m := PastThePut(c, n, k, k);
    StageCounts(m, n + k, c.workers, k, k);
  }

  /** The size is read in one locked section and the message put in another. So ordinary mail
      can pass its limit plus the workers exactly if two threads may be inside enqueue and the
      queue is larger than the limit. */
  lemma LimitIsPassedIff(c: Config)
    ensures (exists events ::
              PossibleRun(c, Empty, events) && OrdinaryMail(Run(c, Empty, events)) > c.NormalLimit() + c.workers)
       <==> c.producers >= 2 && c.maxsize > c.NormalLimit()
  {
    if events :| PossibleRun(c, Empty, events) && OrdinaryMail(Run(c, Empty, events)) > c.NormalLimit() + c.workers {
      RunStaysBelowPeak(c, events);
    }
    if c.producers >= 2 && c.maxsize > c.NormalLimit() {
      PeakIsReached(c);
      var events :| PossibleRun(c, Empty, events) && OrdinaryMail(Run(c, Empty, events)) == Peak(c);
    }
  }

  // -- the queue in memory ------------------------------------------------------------------

  class EmailQueue {
    const config: Config
    const queue: PriorityDelayQueue
    var producers: map<nat, Phase>
    var inFlight: map<nat, Message>
    var accepted: nat
    var delivered: nat
    var failed: nat
    var rejected: nat
    ghost var processed: nat

    ghost function Value(): Mail
      reads this, queue
    {
      Mail(queue.Value(), producers, inFlight, accepted, delivered, failed, rejected, processed)
    }

    ghost predicate Valid()
      reads this, queue
    {
      queue.Valid() && queue.maxsize == config.maxsize
    }

    constructor (config: Config)
      ensures Valid() && this.config == config && fresh(queue) && Value() == Empty
    {
      this.config := config;
      queue := new PriorityDelayQueue(config.maxsize);
      producers, inFlight := map[], map[];
      accepted, delivered, failed, rejected, processed := 0, 0, 0, 0, 0;
    }

    /** The first part of enqueue: the size is read before the put, outside its lock. */
    method CheckAdmission(producer: nat, message: Message) returns (ok: bool)
      requires Valid() && producer !in producers
      modifies this
      ensures Valid() && Value() == StepCheck(config, old(Value()), producer, message)
      ensures ok == (producer in producers)
    {
      var size := queue.SizeLocked();
      if message.priority > HIGH && size >= config.NormalLimit() {
        rejected := rejected + 1;
        return false;
      }
      producers := producers[producer := Checked(message)];
      ok := true;
    }

    method PutMessage(producer: nat, now: real) returns (ok: bool)
      requires Valid() && producer in producers && producers[producer].Checked?
      modifies this, queue
      ensures Valid()
      ensures Value() == StepPut(config, old(Value()), producer, old(producers)[producer].message, now)
      ensures ok == (producer in producers)
    {
      ok := queue.Put(producers[producer].message, now, 0.0, false);
      if ok {
        producers := producers[producer := Admitted];
      } else {
        producers := producers - {producer};
        rejected := rejected + 1;
      }
    }

    method CountAccepted(producer: nat)
      requires Valid() && producer in producers && producers[producer].Admitted?
      modifies this
      ensures Valid() && Value() == Step(config, old(Value()), Event.CountAccepted(producer))
    {
      producers := producers - {producer};
      accepted := accepted + 1;
    }

    /** A pass of a worker's get, and the first line of its processing. */
    method Take(worker: nat, now: real, later: real, deadline: real) returns (pass: Pass)
      requires Valid() && worker !in inFlight
      modifies this, queue
      ensures Valid()
      ensures Serves(old(Value()).q, now, Value().q, pass.Taken())
      ensures Value() == StepTake(old(Value()), worker, Value().q, pass.Taken())
    {
      pass := queue.Get(now, later, deadline);
      if pass.Served? {
        var message := pass.entry.message;
        inFlight := inFlight[worker := message.(attempts := message.attempts + 1)];
        processed := processed + 1;
      }
    }

    method Deliver(worker: nat)
      requires Valid() && worker in inFlight
      modifies this
      ensures Valid() && Value() == Step(config, old(Value()), Delivered(worker))
    {
      inFlight := inFlight - {worker};
      delivered := delivered + 1;
    }

    method HandleFailure(worker: nat, transient: bool, now: real, jitter: real)
      requires Valid() && worker in inFlight && 1 <= inFlight[worker].attempts
      modifies this, queue
      ensures Valid()
      ensures Value() == if transient then StepRetry(config, old(Value()), worker, old(inFlight)[worker], now, jitter)
                         else Step(config, old(Value()), FailedForGood(worker))
    {
      hide Stretched;
      var message := inFlight[worker];
      inFlight := inFlight - {worker};
      if !transient {
        failed := failed + 1;
        return;
      }
      if message.attempts > |RETRY_DELAYS| || message.attempts >= config.maxAttempts {
        failed := failed + 1;
        return;
      }
      var base := RETRY_DELAYS[message.attempts - 1];
      var queued := queue.Put(message, now, Stretched(base, jitter), true);
      if !queued {
        failed := failed + 1;
      }
    }
  }
}
