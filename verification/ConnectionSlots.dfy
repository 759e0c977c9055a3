/** Connection slots of the V2 TCP server: a semaphore for all connections and a count per
    address, taken and given back by handlers that interleave at every await. */
module ConnectionSlots {
  const MAX_TOTAL := 500
  const MAX_PER_IP := 10

  // -- the limiters --------------------------------------------------------------------------

  datatype Slots = Slots(permits: int, perIp: map<string, int>)

  function Count(s: Slots, ip: string): int {
    if ip in s.perIp then s.perIp[ip] else 0
  }

  function WithCount(s: Slots, ip: string, n: int): Slots {
    s.(perIp := if n == 0 then s.perIp - {ip} else s.perIp[ip := n])
  }

  /** The decrement of the clean-up, with its guard. */
  function Given(s: Slots, ip: string): Slots {
    WithCount(s, ip, if Count(s, ip) - 1 > 0 then Count(s, ip) - 1 else 0)
  }

  /** A permit, if there is one. */
  function Acquire(s: Slots): (Slots, bool) {
    if s.permits <= 0 then (s, false) else (s.(permits := s.permits - 1), true)
  }

  /** The address counted in, or the permit back. */
  function AdmitOne(s: Slots, ip: string): (Slots, bool) {
    if Count(s, ip) >= MAX_PER_IP then (s.(permits := s.permits + 1), false)
    else (s.(perIp := s.perIp[ip := Count(s, ip) + 1]), true)
  }

  class ConnectionLimiter {
    var permits: int
    var perIpCount: map<string, int>

    ghost function State(): Slots
      reads this
    {
      Slots(permits, perIpCount)
    }

    constructor ()
      ensures State() == Slots(MAX_TOTAL, map[])
    {
      permits, perIpCount := MAX_TOTAL, map[];
    }

    method TryAcquireSemaphore() returns (ok: bool)
      modifies this`permits
      ensures (State(), ok) == Acquire(old(State()))
    {
      if permits <= 0 {
        return false;
      }
      permits := permits - 1;
      ok := true;
    }

    /** Counts the address in, or gives the permit back when the address is at its limit. */
    method Admit(ip: string) returns (ok: bool)
      modifies this
      ensures (State(), ok) == AdmitOne(old(State()), ip)
    {
      if ip in perIpCount && perIpCount[ip] >= MAX_PER_IP {
        permits := permits + 1;
        return false;
      }
      if ip !in perIpCount {
        perIpCount := perIpCount[ip := 0];
      }
      perIpCount := perIpCount[ip := perIpCount[ip] + 1];
      assert perIpCount == old(perIpCount)[ip := Count(old(State()), ip) + 1];
      ok := true;
    }

    method ReleaseAddress(ip: string)
      modifies this`perIpCount
      ensures State() == Given(old(State()), ip)
    {
      var n := (if ip in perIpCount then perIpCount[ip] else 0) - 1;
      perIpCount := perIpCount[ip := if n > 0 then n else 0];
      if perIpCount[ip] == 0 {
        perIpCount := perIpCount - {ip};
      }
      assert perIpCount == Given(old(State()), ip).perIp;
    }

    method ReleasePermit()
      modifies this`permits
      ensures permits == old(permits) + 1
    {
      permits := permits + 1;
    }
  }

  // -- the handlers -----------------------------------------------------------------------------

  /** Where a handler stands: before its permit; with it, waiting for the lock of the counts;
      counted in, but not yet inside its try block; inside it, from where it always reaches its
      clean-up; half way through that; and gone. The last two have ended without a clean-up. */
  datatype Phase =
    | Arrived | HasPermit | Counted | Serving | AddressReleased | Gone
    | LostWaiting | LostCounted

  datatype Handler = Handler(ip: string, phase: Phase, acquired: nat, released: nat)

  datatype Server = Server(slots: Slots, handlers: map<nat, Handler>)

  datatype Event =
    | Arrive(h: nat, ip: string)
    | RefuseBlocked(h: nat)
    | TryAcquire(h: nat)
    | Admit(h: nat)
    | EnterTry(h: nat)
    | ReleaseAddress(h: nat)
    | ReleasePermit(h: nat)
    | Vanish(h: nat)

  /** A handler can vanish with its permit only while it waits for the lock, or between being
      counted in and its try block. */
  predicate Possible(s: Server, e: Event) {
    if e.Arrive? then e.h !in s.handlers
    else
      e.h in s.handlers &&
      match e
      case RefuseBlocked(h) => s.handlers[h].phase == Arrived
      case TryAcquire(h) => s.handlers[h].phase == Arrived
      case Admit(h) => s.handlers[h].phase == HasPermit
      case EnterTry(h) => s.handlers[h].phase == Counted
      case ReleaseAddress(h) => s.handlers[h].phase == Serving
      case ReleasePermit(h) => s.handlers[h].phase == AddressReleased
      case Vanish(h) => s.handlers[h].phase == HasPermit || s.handlers[h].phase == Counted
      case Arrive(_, _) => true
  }

  function Put(s: Server, h: nat, handler: Handler, slots: Slots): Server {
    Server(slots, s.handlers[h := handler])
  }

  function Step(s: Server, e: Event): Server
    requires Possible(s, e)
  {
    match e
    case Arrive(h, ip) => Put(s, h, Handler(ip, Arrived, 0, 0), s.slots)
    case RefuseBlocked(h) => Put(s, h, s.handlers[h].(phase := Gone), s.slots)
    case TryAcquire(h) =>
      var x, (slots, ok) := s.handlers[h], Acquire(s.slots);
      Put(s, h, if ok then x.(phase := HasPermit, acquired := x.acquired + 1) else x.(phase := Gone), slots)
    case Admit(h) =>
      var x := s.handlers[h];
      var (slots, ok) := AdmitOne(s.slots, x.ip);
      Put(s, h, if ok then x.(phase := Counted) else x.(phase := Gone, released := x.released + 1), slots)
    case EnterTry(h) => Put(s, h, s.handlers[h].(phase := Serving), s.slots)
    case ReleaseAddress(h) =>
      var x := s.handlers[h];
      Put(s, h, x.(phase := AddressReleased), Given(s.slots, x.ip))
    case ReleasePermit(h) =>
      var x := s.handlers[h];
      Put(s, h, x.(phase := Gone, released := x.released + 1), s.slots.(permits := s.slots.permits + 1))
    case Vanish(h) =>
      var x := s.handlers[h];
      Put(s, h, x.(phase := if x.phase == HasPermit then LostWaiting else LostCounted), s.slots)
  }

  // -- conservation -------------------------------------------------------------------------------

  predicate Holds(x: Handler) {
    x.phase != Arrived && x.phase != Gone
  }

  predicate IsCounted(x: Handler) {
    x.phase == Counted || x.phase == Serving || x.phase == LostCounted
  }

  predicate IsLost(x: Handler) {
    x.phase == LostWaiting || x.phase == LostCounted
  }

  /** Everybody with a permit, the lost ones among them. */
  function Holders(s: Server): set<nat> {
    set h | h in s.handlers && Holds(s.handlers[h])
  }

  function CountedIn(s: Server, ip: string): set<nat> {
    set h | h in s.handlers && s.handlers[h].ip == ip && IsCounted(s.handlers[h])
  }

  /** A permit is taken at most once and given back exactly once, unless it is still held. */
  predicate Balanced(x: Handler) {
    x.acquired == x.released + (if Holds(x) then 1 else 0) && x.acquired <= 1
    && (x.phase == Arrived ==> x.acquired == 0)
  }

  predicate AddressRight(s: Server, ip: string) {
    && Count(s.slots, ip) == |CountedIn(s, ip)| <= MAX_PER_IP
    && (ip in s.slots.perIp ==> s.slots.perIp[ip] > 0)
  }

  ghost predicate Invariant(s: Server) {
    && 0 <= s.slots.permits
    && s.slots.permits + |Holders(s)| == MAX_TOTAL
    && (forall ip :: AddressRight(s, ip))
    && (forall h :: h in s.handlers ==> Balanced(s.handlers[h]))
  }

  function One(b: bool): int {
    if b then 1 else 0
  }

  predicate Holding(s: Server, h: nat) {
    h in s.handlers && Holds(s.handlers[h])
  }

  predicate IsCountedIn(s: Server, h: nat, ip: string) {
    h in s.handlers && s.handlers[h].ip == ip && IsCounted(s.handlers[h])
  }

  /** A step moves one handler, which takes or gives exactly what the slots lose or gain. */
  lemma PermitMoves(s: Server, e: Event)
    requires Possible(s, e)
    ensures var t := Step(s, e);
      t.slots.permits + One(Holding(t, e.h)) == s.slots.permits + One(Holding(s, e.h))
  {
  }

  lemma AddressMoves(s: Server, e: Event, ip: string)
    requires Possible(s, e) && (IsCountedIn(s, e.h, ip) ==> Count(s.slots, ip) >= 1)
    ensures var t := Step(s, e);
      && Count(t.slots, ip) - One(IsCountedIn(t, e.h, ip)) == Count(s.slots, ip) - One(IsCountedIn(s, e.h, ip))
      && (Count(s.slots, ip) <= MAX_PER_IP ==> Count(t.slots, ip) <= MAX_PER_IP)
  {
  }

  lemma KeysStayPositive(s: Server, e: Event, ip: string)
    requires Possible(s, e) && 0 <= Count(s.slots, ip) && (ip in s.slots.perIp ==> s.slots.perIp[ip] > 0)
    ensures ip in Step(s, e).slots.perIp ==> Step(s, e).slots.perIp[ip] > 0
  {
  }

  lemma OneHandlerMoves(s: Server, e: Event, other: nat)
    requires Possible(s, e) && other != e.h
    ensures var t := Step(s, e);
      && (other in t.handlers <==> other in s.handlers)
      && (other in s.handlers ==> t.handlers[other] == s.handlers[other])
  {
  }

  /** Two sets that differ in one element at most. */
  lemma SizesDiffer(a: set<nat>, b: set<nat>, h: nat)
    requires a - {h} == b - {h}
    ensures |b| - One(h in b) == |a| - One(h in a)
  {
    assert |a - {h}| == |a| - One(h in a);
    assert |b - {h}| == |b| - One(h in b);
  }

  lemma StepKeepsPermits(s: Server, e: Event)
    requires Invariant(s) && Possible(s, e)
    ensures 0 <= Step(s, e).slots.permits
    ensures Step(s, e).slots.permits + |Holders(Step(s, e))| == MAX_TOTAL
  {
    var t := Step(s, e);
    PermitMoves(s, e);
    assert s.slots.permits <= 0 ==> 0 <= t.slots.permits;
    hide Step, Possible, Invariant, Holds;
    forall h | h != e.h ensures h in Holders(t) <==> h in Holders(s) {
      OneHandlerMoves(s, e, h);
    }
    SizesDiffer(Holders(s), Holders(t), e.h);
  }

  lemma StepKeepsAddress(s: Server, e: Event, ip: string)
    requires Invariant(s) && Possible(s, e)
    ensures AddressRight(Step(s, e), ip)
  {
    var t := Step(s, e);
    assert AddressRight(s, ip);
    hide Step, Possible, Invariant;
    assert e.h in CountedIn(s, ip) ==> CountedIn(s, ip) != {};
    AddressMoves(s, e, ip);
    KeysStayPositive(s, e, ip);
    forall h | h != e.h ensures h in CountedIn(t, ip) <==> h in CountedIn(s, ip) {
      OneHandlerMoves(s, e, h);
    }
    SizesDiffer(CountedIn(s, ip), CountedIn(t, ip), e.h);
  }

  lemma StepKeepsHandlers(s: Server, e: Event)
    requires Invariant(s) && Possible(s, e)
    ensures forall h :: h in Step(s, e).handlers ==> Balanced(Step(s, e).handlers[h])
  {
  }

  lemma StepKeepsInvariant(s: Server, e: Event)
    requires Invariant(s) && Possible(s, e)
    ensures Invariant(Step(s, e))
  {
    StepKeepsPermits(s, e);
    StepKeepsHandlers(s, e);
    forall ip ensures AddressRight(Step(s, e), ip) {
      StepKeepsAddress(s, e, ip);
    }
  }

  /** The guard of the decrement never takes effect: a handler that gives its address back
      is counted. */
  lemma GuardNeverTakesEffect(s: Server, h: nat)
    requires Invariant(s) && Possible(s, ReleaseAddress(h))
    ensures Count(s.slots, s.handlers[h].ip) - 1 >= 0
  {
    var ip := s.handlers[h].ip;
    assert AddressRight(s, ip) && h in CountedIn(s, ip);
  }

  // -- runs ----------------------------------------------------------------------------------------

  predicate PossibleRun(s: Server, events: seq<Event>)
    decreases |events|
  {
    events == [] || (Possible(s, events[0]) && PossibleRun(Step(s, events[0]), events[1..]))
  }

  function Run(s: Server, events: seq<Event>): Server
    requires PossibleRun(s, events)
    decreases |events|
  {
    if events == [] then s else Run(Step(s, events[0]), events[1..])
  }

  const START: Server := Server(Slots(MAX_TOTAL, map[]), map[])

  lemma {:induction false} RunKeepsInvariant(s: Server, events: seq<Event>)
    requires Invariant(s) && PossibleRun(s, events)
    ensures Invariant(Run(s, events))
    decreases |events|
  {
    if events != [] {
      StepKeepsInvariant(s, events[0]);
      hide Invariant, Step, Possible;
      RunKeepsInvariant(Step(s, events[0]), events[1..]);
    }
  }

  lemma StartKeepsInvariant()
    ensures Invariant(START)
  {
    assert Holders(START) == {};
    forall ip ensures AddressRight(START, ip) {
      assert CountedIn(START, ip) == {};
    }
  }

  // -- what comes back -------------------------------------------------------------------------------

  function Lost(s: Server): set<nat> {
    set h | h in s.handlers && IsLost(s.handlers[h])
  }

  /** The handlers with a permit that will still give it back. */
  function LiveHolders(s: Server): set<nat> {
    set h | h in s.handlers && Holds(s.handlers[h]) && !IsLost(s.handlers[h])
  }

  function Vanishings(events: seq<Event>): nat {
    if events == [] then 0 else (if events[0].Vanish? then 1 else 0) + Vanishings(events[1..])
  }

  predicate NobodyVanishes(events: seq<Event>) {
    forall e :: e in events ==> !e.Vanish?
  }

  lemma {:induction false} NoVanishings(events: seq<Event>)
    ensures Vanishings(events) == 0 <==> NobodyVanishes(events)
    decreases |events|
  {
    if events != [] {
      NoVanishings(events[1..]);
      assert events == [events[0]] + events[1..];
    }
  }

  lemma StepLoses(s: Server, e: Event)
    requires Possible(s, e)
    ensures Lost(Step(s, e)) == if e.Vanish? then Lost(s) + {e.h} else Lost(s)
    ensures e.Vanish? ==> e.h !in Lost(s)
  {
  }

  lemma {:induction false} RunLoses(s: Server, events: seq<Event>)
    requires PossibleRun(s, events)
    ensures |Lost(Run(s, events))| == |Lost(s)| + Vanishings(events)
    decreases |events|
  {
    if events != [] {
      StepLoses(s, events[0]);
      hide Lost, Step, Possible;
      RunLoses(Step(s, events[0]), events[1..]);
    }
  }

  /** In every interleaving: the free permits, the ones held by live handlers and one for each
      handler that vanished are the 500, no address has more than ten, and a handler that is
      gone has given back exactly what it took. */
  lemma SlotsAreConserved(events: seq<Event>)
    requires PossibleRun(START, events)
    ensures var s := Run(START, events);
      && s.slots.permits + |LiveHolders(s)| + Vanishings(events) == MAX_TOTAL
      && (forall ip :: AddressRight(s, ip))
      && (forall h :: h in s.handlers && s.handlers[h].phase == Gone ==>
            s.handlers[h].acquired == s.handlers[h].released <= 1)
  {
    StartKeepsInvariant();
    RunKeepsInvariant(START, events);
    RunLoses(START, events);
    assert Lost(START) == {};
    var s := Run(START, events);
    hide Run, PossibleRun;
    assert Holders(s) == LiveHolders(s) + Lost(s) && LiveHolders(s) !! Lost(s);
  }

  /** Nobody is under way: each handler is gone or has vanished. */
  predicate AtRest(s: Server) {
    forall h :: h in s.handlers ==> s.handlers[h].phase == Gone || IsLost(s.handlers[h])
  }

  /** Once nobody is under way every slot is free again exactly if in the whole run no handler
      was torn away from the lock or from before its try block. */
  lemma AllSlotsComeBackIff(events: seq<Event>)
    requires PossibleRun(START, events) && AtRest(Run(START, events))
    ensures Run(START, events).slots == Slots(MAX_TOTAL, map[]) <==> NobodyVanishes(events)
  {
    SlotsAreConserved(events);
    NoVanishings(events);
    RunLoses(START, events);
    assert Lost(START) == {};
    var s := Run(START, events);
    hide Run, PossibleRun, NobodyVanishes;
    assert LiveHolders(s) == {};
    if Vanishings(events) == 0 {
      assert Lost(s) == {};
      forall ip ensures ip !in s.slots.perIp {
        assert AddressRight(s, ip);
        assert CountedIn(s, ip) <= Lost(s);
      }
      assert s.slots.perIp == map[];
    }
  }

  /** One handler that vanishes while it waits for the lock, or when it has been counted in. */
  function VanishingRun(counted: bool): seq<Event> {
    [Arrive(0, "a"), TryAcquire(0)] + (if counted then [Admit(0)] else []) + [Vanish(0)]
  }

  /** Nobody is left, and a permit is gone for good, with the address still counted if it was. */
  lemma VanishingLosesASlot(counted: bool)
    ensures PossibleRun(START, VanishingRun(counted)) && AtRest(Run(START, VanishingRun(counted)))
    ensures Run(START, VanishingRun(counted)).slots ==
      Slots(MAX_TOTAL - 1, if counted then map["a" := 1] else map[])
  {
    var events, last := VanishingRun(counted), [Vanish(0)];
    var s := Step(START, Arrive(0, "a"));
    var t := Step(s, TryAcquire(0));
    assert t.handlers[0].phase == HasPermit && t.slots == Slots(MAX_TOTAL - 1, map[]);
    assert last[1..] == [];
    if counted {
      var u := Step(t, Admit(0));
      OneVanishes(u, last);
      assert events[1..][1..] == [Admit(0)] + last && ([Admit(0)] + last)[1..] == last;
      assert Run(t, [Admit(0)] + last) == Run(u, last);
    } else {
      OneVanishes(t, last);
      assert events[1..][1..] == last;
    }
    assert Run(START, events) == Run(s, events[1..]) == Run(t, events[1..][1..]);
  }

  lemma OneVanishes(s: Server, last: seq<Event>)
    requires last == [Vanish(0)] && Possible(s, Vanish(0))
    ensures PossibleRun(s, last) && Run(s, last) == Step(s, Vanish(0))
  {
    assert last[1..] == [];
  }

  // -- who is turned away ----------------------------------------------------------------------------

  /** The handlers of an address that have been counted in and have not given it back. */
  function InPlaceOf(s: Server, ip: string): set<nat> {
    set h | h in s.handlers && s.handlers[h].ip == ip
      && (s.handlers[h].phase == Counted || s.handlers[h].phase == Serving || s.handlers[h].phase == LostCounted)
  }

  /** In every interleaving a handler gets no permit exactly if five hundred are taken, by live
      handlers and by vanished ones, and it is refused for its address exactly if ten of that
      address are counted in. */
  lemma TurnedAwayIff(events: seq<Event>, h: nat)
    requires PossibleRun(START, events)
    ensures var s := Run(START, events);
      && (Possible(s, TryAcquire(h)) ==>
            (Step(s, TryAcquire(h)).handlers[h].phase == Gone <==>
               |LiveHolders(s)| + Vanishings(events) == 500))
      && (Possible(s, Admit(h)) ==>
            (Step(s, Admit(h)).handlers[h].phase == Gone <==> |InPlaceOf(s, s.handlers[h].ip)| == 10))
  {
    var s := Run(START, events);
    SlotsAreConserved(events);
    StartKeepsInvariant();
    RunKeepsInvariant(START, events);
    assert 0 <= s.slots.permits;
    hide Run, PossibleRun;
    if Possible(s, Admit(h)) {
      var ip := s.handlers[h].ip;
      assert AddressRight(s, ip);
      assert InPlaceOf(s, ip) == CountedIn(s, ip);
    }
  }
}
