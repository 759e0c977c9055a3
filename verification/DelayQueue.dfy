/** The two-heap queue of outbound mail: ready entries by (priority, sequence number),
    delayed entries by (due time, sequence number). Every method is one locked section. */
module DelayQueue {
  import opened Wrappers

  datatype Message = Message(id: nat, priority: nat, attempts: nat)

  const HIGH: nat := 0

  datatype Entry = Entry(due: real, number: nat, message: Message)

  datatype Queue = Queue(ready: set<Entry>, delayed: set<Entry>, next: nat, closed: bool) {

    function Entries(): set<Entry> {
      ready + delayed
    }

    /** No entry is in both heaps, and sequence numbers are given out once. */
    ghost predicate Valid() {
      && ready !! delayed
      && (forall e :: e in Entries() ==> e.number < next)
      && (forall e, f :: e in Entries() && f in Entries() && e.number == f.number ==> e == f)
    }
  }

  // -- what the queue does -----------------------------------------------------------

  function NewEntry(q: Queue, m: Message, now: real, delay: real): Entry {
    Entry(if delay > 0.0 then now + delay else now, q.next, m)
  }

  function Added(q: Queue, e: Entry, late: bool): Queue {
    if late then q.(delayed := q.delayed + {e}, next := q.next + 1)
    else q.(ready := q.ready + {e}, next := q.next + 1)
  }

  predicate Accepts(q: Queue, maxsize: int, force: bool) {
    !q.closed && (force || |q.ready| + |q.delayed| < maxsize)
  }

  function PutStep(q: Queue, maxsize: int, m: Message, now: real, delay: real, force: bool): (Queue, bool) {
    if Accepts(q, maxsize, force) then (Added(q, NewEntry(q, m, now, delay), delay > 0.0), true)
    else (q, false)
  }

  function Overdue(q: Queue, now: real): set<Entry> {
    set e | e in q.delayed && e.due <= now
  }

  function Promote(q: Queue, now: real): Queue {
    q.(ready := q.ready + Overdue(q, now), delayed := q.delayed - Overdue(q, now))
  }

  /** Served first: the smaller priority value, then the smaller sequence number. */
  predicate Before(a: Entry, b: Entry) {
    a.message.priority < b.message.priority
    || (a.message.priority == b.message.priority && a.number < b.number)
  }

  predicate Sooner(a: Entry, b: Entry) {
    a.due < b.due || (a.due == b.due && a.number < b.number)
  }

  /** One pass of get: everything that is due at `now` competes, whichever heap it is in;
      nothing is returned only if nothing is due. */
  ghost predicate Serves(q: Queue, now: real, q': Queue, served: Option<Entry>) {
    var due := q.ready + Overdue(q, now);
    match served
    case None => due == {} && q' == q
    case Some(e) =>
      && e in due
      && (forall f :: f in due && f != e ==> Before(e, f))
      && q' == q.(ready := due - {e}, delayed := q.delayed - due)
  }

  /** How one pass of get ends: with an entry, with None, or waiting for another pass. */
  datatype Pass = Served(entry: Entry) | Nothing | Waiting {
    function Taken(): Option<Entry> {
      match this
      case Served(e) => Some(e)
      case _ => None
    }
  }

  /** Why a pass with nothing ready answers None: the queue is closed and drained, its time is
      over, or an entry has fallen due since the clock was read for the promotion. */
  ghost predicate AnswersNone(q: Queue, later: real, deadline: real) {
    (q.closed && q.delayed == {}) || deadline <= later || exists e :: e in q.delayed && e.due <= later
  }

  /** What one pass of get may do. */
  ghost predicate Passes(q: Queue, now: real, later: real, deadline: real, q': Queue, pass: Pass) {
    && Serves(q, now, q', pass.Taken())
    && (pass.Taken().None? ==> (pass == Nothing <==> AnswersNone(q, later, deadline)))
  }

  /** A closed queue with one message to be retried in ten seconds. */
  function OneRetry(m: Message): Queue {
    Queue({}, {Entry(10.0, 0, m)}, 1, true)
  }

  /** If it falls due between the two readings of the clock the pass answers None and leaves it
      there, minutes before the deadline, though a pass begun at the second reading takes it. */
  lemma NoneThoughDue(m: Message, q': Queue, pass: Pass)
    requires Passes(OneRetry(m), 9.99, 10.01, 600.0, q', pass)
    ensures pass == Nothing && q' == OneRetry(m) && Overdue(q', 10.01) == {Entry(10.0, 0, m)}
    ensures forall u, p :: Passes(OneRetry(m), 10.01, 10.01, 600.0, u, p) ==> p == Served(Entry(10.0, 0, m))
  {
    var e, q := Entry(10.0, 0, m), OneRetry(m);
    assert Overdue(q, 9.99) == {} && Overdue(q, 10.01) == {e};
    assert e in q.delayed;
    assert AnswersNone(q, 10.01, 600.0);
  }

  lemma AddedIsValid(q: Queue, e: Entry, late: bool)
    requires q.Valid() && e.number == q.next
    ensures Added(q, e, late).Valid()
    ensures e !in q.Entries() && Added(q, e, late).Entries() == q.Entries() + {e}
  {
    assert e !in q.Entries();
  }

  lemma PutKeepsValid(q: Queue, maxsize: int, m: Message, now: real, delay: real, force: bool)
    requires q.Valid()
    ensures var (q', ok) := PutStep(q, maxsize, m, now, delay, force);
            var e := NewEntry(q, m, now, delay);
      && q'.Valid()
      && e !in q.Entries()
      && q'.Entries() == q.Entries() + if ok then {e} else {}
  {
    AddedIsValid(q, NewEntry(q, m, now, delay), delay > 0.0);
    hide Added, Accepts;
  }

  /** A pass of get takes one entry out, moves the others between the heaps at most, and
      never takes one before its time. */
  lemma ServingKeepsValid(q: Queue, now: real, q': Queue, served: Option<Entry>)
    requires q.Valid() && Serves(q, now, q', served)
    ensures q'.Valid()
    ensures match served
      case None => q'.Entries() == q.Entries()
      case Some(e) =>
        && e in q.Entries() && q'.Entries() == q.Entries() - {e}
        && (e in q.delayed ==> e.due <= now)
  {
  }

  /** Order over time: of two entries present together, the one that goes first in the
      order is never overtaken once it is due. */
  lemma DueEntryIsNotOvertaken(q: Queue, now: real, q': Queue, served: Option<Entry>, e: Entry)
    requires q.Valid() && Serves(q, now, q', served)
    requires e in q.ready || (e in q.delayed && e.due <= now)
    ensures served.Some? && (served.value == e || (Before(served.value, e) && e in q'.ready))
  {
  }

  // -- the queue in memory -------------------------------------------------------------

  function ToSet(q: seq<Entry>): set<Entry> {
    set e | e in q
  }

  ghost predicate Distinct(q: seq<Entry>) {
    forall i, j :: 0 <= i < j < |q| ==> q[i] != q[j]
  }

  lemma WithoutOne(q: seq<Entry>, k: nat)
    requires Distinct(q) && k < |q|
    ensures var r := q[..k] + q[k + 1..]; Distinct(r) && ToSet(r) == ToSet(q) - {q[k]}
  {
    var r := q[..k] + q[k + 1..];
    forall e ensures e in r <==> e in q && e != q[k] {
      if e in q && e != q[k] {
        var i :| 0 <= i < |q| && q[i] == e;
        assert e == if i < k then r[i] else r[i - 1];
      }
    }
  }

  lemma {:induction false} DistinctSize(q: seq<Entry>)
    requires Distinct(q)
    ensures |ToSet(q)| == |q|
  {
    if q != [] {
      var front := q[..|q| - 1];
      DistinctSize(front);
      assert ToSet(q) == ToSet(front) + {q[|q| - 1]};
    }
  }

  lemma Appended(q: seq<Entry>, e: Entry)
    requires Distinct(q)
    ensures ToSet(q + [e]) == ToSet(q) + {e}
    ensures e !in ToSet(q) ==> Distinct(q + [e])
  {
  }

  class PriorityDelayQueue {
    const maxsize: int
    var ready: seq<Entry>
    var delayed: seq<Entry>
    var next: nat
    var closed: bool

    ghost function Value(): Queue
      reads this
    {
      Queue(ToSet(ready), ToSet(delayed), next, closed)
    }

    ghost predicate Valid()
      reads this
    {
      Distinct(ready) && Distinct(delayed) && Value().Valid()
    }

    constructor (maxsize: int)
      ensures this.maxsize == maxsize && Valid() && Value() == Queue({}, {}, 0, false)
    {
      this.maxsize := maxsize;
      ready, delayed, next, closed := [], [], 0, false;
    }

    method SizeLocked() returns (n: nat)
      requires Valid()
      ensures n == |Value().ready| + |Value().delayed|
    {
      DistinctSize(ready);
      DistinctSize(delayed);
      n := |ready| + |delayed|;
    }

    method Put(m: Message, now: real, delay: real, force: bool) returns (ok: bool)
      requires Valid()
      modifies this
      ensures Valid()
      ensures (Value(), ok) == PutStep(old(Value()), maxsize, m, now, delay, force)
    {
      var size := SizeLocked();
      if closed || (!force && size >= maxsize) {
        return false;
      }
      Push(Entry(if delay > 0.0 then now + delay else now, next, m), delay > 0.0);
      ok := true;
    }

    method Push(e: Entry, late: bool)
      requires Valid() && e.number == next
      modifies this
      ensures Valid() && Value() == Added(old(Value()), e, late)
    {
      AddedIsValid(Value(), e, late);
      Appended(ready, e);
      Appended(delayed, e);
      next := next + 1;
      if late {
        delayed := delayed + [e];
      } else {
        ready := ready + [e];
      }
    }

    /** The position of the entry that a heap ordered by (due, number) has on top. */
    method SoonestDelayed() returns (k: nat)
      requires delayed != []
      ensures k < |delayed| && forall i :: 0 <= i < |delayed| && i != k ==> !Sooner(delayed[i], delayed[k])
    {
      k := 0;
      for n := 1 to |delayed|
        invariant k < n
        invariant forall i :: 0 <= i < n && i != k ==> !Sooner(delayed[i], delayed[k])
      {
        if Sooner(delayed[n], delayed[k]) {
          k := n;
        }
      }
    }

    /** The position of the entry that a heap ordered by (priority, number) has on top. */
    method FirstReady() returns (k: nat)
      requires ready != []
      ensures k < |ready| && forall i :: 0 <= i < |ready| && i != k ==> !Before(ready[i], ready[k])
    {
      k := 0;
      for n := 1 to |ready|
        invariant k < n
        invariant forall i :: 0 <= i < n && i != k ==> !Before(ready[i], ready[k])
      {
        if Before(ready[n], ready[k]) {
          k := n;
        }
      }
    }

    method PromoteLocked(now: real)
      requires Valid()
      modifies this`ready, this`delayed
      ensures Valid()
      ensures Value() == Promote(old(Value()), now)
    {
      while delayed != []
        invariant Valid()
        invariant ToSet(ready) + ToSet(delayed) == old(Value()).Entries()
        invariant old(Value()).ready <= ToSet(ready)
        invariant forall e :: e in ToSet(ready) - old(Value()).ready ==> e.due <= now
        decreases |delayed|
      {
        var k := SoonestDelayed();
        if delayed[k].due > now {
          break;
        }
        WithoutOne(delayed, k);
        var e := delayed[k];
        delayed := delayed[..k] + delayed[k + 1..];
        ready := ready + [e];
      }
    }

    /** One pass: the clock is read for the promotion, and again, at `later`, when nothing is
        ready. So None can be the answer although an entry fell due between the two readings;
        that and the closed queue are the only cases before the deadline. */
    method Get(now: real, later: real, deadline: real) returns (pass: Pass)
      requires Valid()
      modifies this`ready, this`delayed
      ensures Valid()
      ensures Passes(old(Value()), now, later, deadline, Value(), pass)
    {
      PromoteLocked(now);
      if ready != [] {
        var k := FirstReady();
        WithoutOne(ready, k);
        pass := Served(ready[k]);
        ready := ready[..k] + ready[k + 1..];
        return;
      }
      if closed && delayed == [] {
        return Nothing;
      }
      var wait := deadline - later;
      if delayed != [] {
        var k := SoonestDelayed();
        assert delayed[k] in ToSet(delayed);
        assert forall e :: e in ToSet(delayed) ==> delayed[k].due <= e.due;
        wait := if delayed[k].due - later < wait then delayed[k].due - later else wait;
      }
      pass := if wait <= 0.0 then Nothing else Waiting;
    }

    method Close() returns (readyLeft: nat, delayedLeft: nat)
      requires Valid()
      modifies this`closed
      ensures Valid() && Value() == old(Value()).(closed := true)
      ensures readyLeft == |Value().ready| && delayedLeft == |Value().delayed|
    {
      DistinctSize(ready);
      DistinctSize(delayed);
      closed := true;
      return |ready|, |delayed|;
    }
  }
}
