/** The password file follows the database: writers commit and then announce what they
    changed, one worker claims, reads, writes and queues again, in any interleaving. */
module SyncConvergence {
  import opened Wrappers
  import opened AclPolicy

  // -- the database -------------------------------------------------------------------------

  datatype Row = Row(protocol: string, owner: nat, password: string)

  /** Vehicles by their immutable id, and whether each user is active. */
  datatype Db = Db(vehicles: map<string, Row>, active: map<nat, bool>)

  predicate WellFormed(d: Db) {
    forall vid :: vid in d.vehicles ==> d.vehicles[vid].owner in d.active
  }

  predicate OnMqtt(d: Db, vid: string) {
    vid in d.vehicles && IsMqtt(d.vehicles[vid].protocol)
  }

  predicate OwnedBy(d: Db, vid: string, uid: nat) {
    vid in d.vehicles && d.vehicles[vid].owner == uid
  }

  /** The password the vehicle's entry should verify, or None for no entry. */
  function Target(d: Db, vid: string): Option<string> {
    if !OnMqtt(d, vid) then None
    else
      var v := d.vehicles[vid];
      if v.owner in d.active && !d.active[v.owner] then None else Some(v.password)
  }

  // -- the writers ----------------------------------------------------------------------------

  datatype Change =
    | CreateVehicle(vid: string, row: Row)
    | UpdateVehicle(vid: string, protocol: Option<string>, password: Option<string>)
    | DeleteVehicle(vid: string)
    | CreateUser(uid: nat, active: bool)
    | UpdateUser(uid: nat, setActive: Option<bool>)
    | DeleteUser(uid: nat)
    | ActivateUser(uid: nat)

  /** `seen` is the database as the writer read it before it committed. */
  predicate Committable(d: Db, c: Change, seen: Db) {
    match c
    case CreateVehicle(vid, row) => vid !in d.vehicles && row.owner in d.active
    case UpdateVehicle(vid, _, _) => vid in d.vehicles && vid in seen.vehicles
    case DeleteVehicle(vid) => vid in d.vehicles && vid in seen.vehicles
    case CreateUser(uid, _) => uid !in d.active
    case UpdateUser(uid, _) => uid in d.active && uid in seen.active
    case DeleteUser(uid) => uid in d.active
    case ActivateUser(uid) => uid in d.active
  }

  /** A field set to the value the writer had read is not written at all. */
  function Written<T(==)>(current: T, set_: Option<T>, seen: T): T {
    if set_.Some? && set_.value != seen then set_.value else current
  }

  function After(d: Db, c: Change, seen: Db): Db
    requires Committable(d, c, seen)
  {
    match c
    case CreateVehicle(vid, row) => d.(vehicles := d.vehicles[vid := row])
    case UpdateVehicle(vid, protocol, password) =>
      var v := d.vehicles[vid];
      d.(vehicles := d.vehicles[vid := v.(
        protocol := Written(v.protocol, protocol, seen.vehicles[vid].protocol),
        password := password.GetOr(v.password))])
    case DeleteVehicle(vid) => d.(vehicles := d.vehicles - {vid})
    case CreateUser(uid, active) => d.(active := d.active[uid := active])
    case UpdateUser(uid, setActive) =>
      d.(active := d.active[uid := Written(d.active[uid], setActive, seen.active[uid])])
    case DeleteUser(uid) =>
      Db(map vid | vid in d.vehicles && d.vehicles[vid].owner != uid :: d.vehicles[vid], d.active - {uid})
    case ActivateUser(uid) => d.(active := d.active[uid := true])
  }

  /** The vehicles the writer marks once it has committed. */
  function Marks(d: Db, c: Change, seen: Db): set<string>
    requires Committable(d, c, seen)
  {
    match c
    case CreateVehicle(vid, row) => if IsMqtt(row.protocol) then {vid} else {}
    case UpdateVehicle(vid, _, password) =>
      if seen.vehicles[vid].protocol != After(d, c, seen).vehicles[vid].protocol || password.Some? then {vid} else {}
    case DeleteVehicle(vid) => if IsMqtt(seen.vehicles[vid].protocol) then {vid} else {}
    case DeleteUser(uid) => set vid | vid in seen.vehicles && seen.vehicles[vid].owner == uid
    case _ => {}
  }

  /** The users whose vehicles it looks up, after the commit, to mark them. */
  function MarksOwnedBy(d: Db, c: Change, seen: Db): set<nat>
    requires Committable(d, c, seen)
  {
    match c
    case UpdateUser(uid, setActive) =>
      if setActive.Some? && seen.active[uid] != After(d, c, seen).active[uid] then {uid} else {}
    case _ => {}
  }

  // -- every interleaving --------------------------------------------------------------------------

  /** `owed` and `owedUsers` are the announcements of writers past their commit; `taken` the
      claimed jobs still to be read, `current` the one being applied, with the password its
      writer read for it; `since` every database the worker's session may still see. */
  datatype State = State(
    db: Db, file: map<string, string>,
    owed: multiset<string>, owedUsers: multiset<nat>,
    pending: set<string>, taken: set<string>, current: Option<(string, Option<string>)>, failed: set<string>,
    since: seq<Db>)

  datatype Event =
    | Commit(change: Change, seen: Db)
    | Mark(vid: string)
    | LookUpOwned(uid: nat)
    | Claim(jobs: set<string>)
    | Read(vid: string, view: nat)
    | Apply(ok: bool)
    | Requeue

  predicate Resting(s: State) {
    s.taken == {} && s.current.None? && s.failed == {}
  }

  predicate Possible(s: State, e: Event) {
    match e
    case Commit(c, seen) => Committable(s.db, c, seen)
    case Mark(vid) => vid in s.owed
    case LookUpOwned(uid) => uid in s.owedUsers
    case Claim(jobs) => Resting(s) && jobs <= s.pending
    case Read(vid, view) => vid in s.taken && s.current.None? && view < |s.since|
    case Apply(_) => s.current.Some?
    case Requeue => s.taken == {} && s.current.None?
  }

  function OwnedSet(d: Db, uid: nat): set<string> {
    set vid | vid in d.vehicles && d.vehicles[vid].owner == uid
  }

  function Step(s: State, e: Event): State
    requires Possible(s, e)
  {
    match e
    case Commit(c, seen) =>
      var d := After(s.db, c, seen);
      s.(db := d, since := s.since + [d],
        owed := s.owed + multiset(Marks(s.db, c, seen)),
        owedUsers := s.owedUsers + multiset(MarksOwnedBy(s.db, c, seen)))
    case Mark(vid) => s.(owed := s.owed - multiset{vid}, pending := s.pending + {vid})
    case LookUpOwned(uid) =>
      s.(owed := s.owed + multiset(OwnedSet(s.db, uid)), owedUsers := s.owedUsers - multiset{uid})
    case Claim(jobs) => s.(pending := s.pending - jobs, taken := jobs, since := [s.db])
    case Read(vid, view) => s.(taken := s.taken - {vid}, current := Some((vid, Target(s.since[view], vid))))
    case Apply(ok) =>
      var (vid, target) := s.current.value;
      if ok then
        s.(current := None,
          file := match target { case Some(p) => s.file[vid := p] case None => s.file - {vid} })
      else s.(current := None, failed := s.failed + {vid})
    case Requeue => s.(pending := s.pending + s.failed, failed := {})
  }

  // -- the invariant -----------------------------------------------------------------------------

  function Filed(s: State, vid: string): Option<string> {
    if vid in s.file then Some(s.file[vid]) else None
  }

  predicate Announced(s: State, vid: string) {
    vid in s.pending || vid in s.owed || (OnMqtt(s.db, vid) && s.db.vehicles[vid].owner in s.owedUsers)
  }

  predicate InHand(s: State, vid: string) {
    vid in s.taken || vid in s.failed || (s.current.Some? && s.current.value.0 == vid)
  }

  predicate FileRight(s: State, vid: string) {
    Filed(s, vid) == Target(s.db, vid) || Announced(s, vid) || InHand(s, vid)
  }

  predicate TakenRight(s: State, vid: string, view: nat) {
    vid in s.taken && view < |s.since| && Target(s.since[view], vid) != Target(s.db, vid) ==> Announced(s, vid)
  }

  predicate CurrentRight(s: State) {
    s.current.Some? && s.current.value.1 != Target(s.db, s.current.value.0) ==> Announced(s, s.current.value.0)
  }

  ghost predicate Invariant(s: State) {
    && WellFormed(s.db)
    && (forall vid :: FileRight(s, vid))
    && (forall vid, view: nat :: TakenRight(s, vid, view))
    && CurrentRight(s)
  }

  // -- which commits announce enough ---------------------------------------------------------------

  /** Every change to a vehicle's target is announced, and no announcement is lost. Only three
      writers can miss: a deletion that read the vehicle or the owner's vehicles too early, and
      the activation of an account by its mail link. */
  ghost predicate AnnouncesEnough(d: Db, c: Change, seen: Db)
    requires Committable(d, c, seen)
  {
    match c
    case DeleteVehicle(vid) => IsMqtt(seen.vehicles[vid].protocol) || !OnMqtt(d, vid)
    case DeleteUser(uid) => forall vid :: OwnedBy(d, vid, uid) && OnMqtt(d, vid) ==> OwnedBy(seen, vid, uid)
    case ActivateUser(uid) => d.active[uid] || forall vid :: OwnedBy(d, vid, uid) ==> !OnMqtt(d, vid)
    case _ => true
  }

  lemma CommitKeepsWellFormed(d: Db, c: Change, seen: Db)
    requires WellFormed(d) && Committable(d, c, seen)
    ensures WellFormed(After(d, c, seen))
  {
  }

  lemma CommitAnnounces(s: State, c: Change, seen: Db, vid: string)
    requires WellFormed(s.db) && Committable(s.db, c, seen) && AnnouncesEnough(s.db, c, seen)
    ensures var t := Step(s, Commit(c, seen));
      && (Target(t.db, vid) != Target(s.db, vid) ==> Announced(t, vid))
      && (Announced(s, vid) ==> Announced(t, vid))
  {
    match c {
      case DeleteUser(uid) =>
        assert OwnedBy(s.db, vid, uid) && OnMqtt(s.db, vid) ==> OwnedBy(seen, vid, uid);
      case ActivateUser(uid) =>
        assert OwnedBy(s.db, vid, uid) ==> s.db.active[uid] || !OnMqtt(s.db, vid);
      case _ =>
    }
  }

  lemma CommitKeepsInvariant(s: State, c: Change, seen: Db)
    requires Invariant(s) && Committable(s.db, c, seen) && AnnouncesEnough(s.db, c, seen)
    ensures Invariant(Step(s, Commit(c, seen)))
  {
    var t := Step(s, Commit(c, seen));
    CommitKeepsWellFormed(s.db, c, seen);
    forall vid
      ensures Target(t.db, vid) != Target(s.db, vid) ==> Announced(t, vid)
      ensures Announced(s, vid) ==> Announced(t, vid)
    {
      CommitAnnounces(s, c, seen, vid);
    }
    assert t.since == s.since + [t.db] && t.file == s.file;
    assert t.taken == s.taken && t.failed == s.failed && t.current == s.current;
    hide WellFormed, Announced, Target, Step, AnnouncesEnough;
    forall vid ensures FileRight(t, vid) {
      assert FileRight(s, vid);
    }
    forall vid, view: nat ensures TakenRight(t, vid, view) {
      assert TakenRight(s, vid, view);
    }
  }

  // -- the other steps -------------------------------------------------------------------------------

  lemma AnnouncementKeepsInvariant(s: State, e: Event)
    requires Invariant(s) && Possible(s, e) && (e.Mark? || e.LookUpOwned?)
    ensures Invariant(Step(s, e))
  {
    var t := Step(s, e);
    forall vid | Announced(s, vid) ensures Announced(t, vid) {
      if e.LookUpOwned? && OwnedBy(s.db, vid, e.uid) {
        assert vid in OwnedSet(s.db, e.uid);
      }
    }
    assert t.db == s.db && t.file == s.file && t.since == s.since;
    assert t.taken == s.taken && t.failed == s.failed && t.current == s.current;
    hide WellFormed, Announced, Target, Step;
    forall vid ensures FileRight(t, vid) {
      assert FileRight(s, vid);
    }
    forall vid, view: nat ensures TakenRight(t, vid, view) {
      assert TakenRight(s, vid, view);
    }
  }

  lemma ClaimKeepsInvariant(s: State, jobs: set<string>)
    requires Invariant(s) && Possible(s, Claim(jobs))
    ensures Invariant(Step(s, Claim(jobs)))
  {
    var t := Step(s, Claim(jobs));
    hide WellFormed, Target;
    forall vid ensures FileRight(t, vid) {
      assert FileRight(s, vid);
    }
  }

  lemma ReadKeepsInvariant(s: State, vid: string, view: nat)
    requires Invariant(s) && Possible(s, Read(vid, view))
    ensures Invariant(Step(s, Read(vid, view)))
  {
    var t := Step(s, Read(vid, view));
    assert TakenRight(s, vid, view);
    hide WellFormed, Target;
    forall v ensures FileRight(t, v) {
      assert FileRight(s, v);
    }
    forall v, i: nat ensures TakenRight(t, v, i) {
      assert TakenRight(s, v, i);
    }
  }

  lemma ApplyKeepsInvariant(s: State, ok: bool)
    requires Invariant(s) && Possible(s, Apply(ok))
    ensures Invariant(Step(s, Apply(ok)))
  {
    var t := Step(s, Apply(ok));
    hide WellFormed, Target;
    forall v ensures FileRight(t, v) {
      assert FileRight(s, v);
    }
    forall v, i: nat ensures TakenRight(t, v, i) {
      assert TakenRight(s, v, i);
    }
  }

  lemma RequeueKeepsInvariant(s: State)
    requires Invariant(s) && Possible(s, Requeue)
    ensures Invariant(Step(s, Requeue))
  {
    var t := Step(s, Requeue);
    hide WellFormed, Target;
    forall v ensures FileRight(t, v) {
      assert FileRight(s, v);
    }
  }

  /** A commit is fit when it announces enough; every other step is. */
  ghost predicate Fit(s: State, e: Event) {
    Possible(s, e) && (e.Commit? ==> AnnouncesEnough(s.db, e.change, e.seen))
  }

  lemma StepKeepsInvariant(s: State, e: Event)
    requires Invariant(s) && Fit(s, e)
    ensures Invariant(Step(s, e))
  {
    match e
    case Commit(c, seen) => CommitKeepsInvariant(s, c, seen);
    case Mark(_) => AnnouncementKeepsInvariant(s, e);
    case LookUpOwned(_) => AnnouncementKeepsInvariant(s, e);
    case Claim(jobs) => ClaimKeepsInvariant(s, jobs);
    case Read(vid, view) => ReadKeepsInvariant(s, vid, view);
    case Apply(ok) => ApplyKeepsInvariant(s, ok);
    case Requeue => RequeueKeepsInvariant(s);
  }

  // -- runs ------------------------------------------------------------------------------------------

  ghost predicate FitRun(s: State, events: seq<Event>)
    decreases |events|
  {
    events == [] || (Fit(s, events[0]) && FitRun(Step(s, events[0]), events[1..]))
  }

  ghost function Run(s: State, events: seq<Event>): State
    requires FitRun(s, events)
    decreases |events|
  {
    if events == [] then s else Run(Step(s, events[0]), events[1..])
  }

  lemma {:induction false} RunKeepsInvariant(s: State, events: seq<Event>)
    requires Invariant(s) && FitRun(s, events)
    ensures Invariant(Run(s, events))
    decreases |events|
  {
    if events != [] {
      StepKeepsInvariant(s, events[0]);
      hide Invariant, Fit, Step;
      RunKeepsInvariant(Step(s, events[0]), events[1..]);
    }
  }

  /** The entries a full synchronisation leaves. */
  function Targets(d: Db): map<string, string> {
    map vid | vid in d.vehicles && Target(d, vid).Some? :: Target(d, vid).value
  }

  ghost predicate InSync(s: State) {
    forall vid :: Filed(s, vid) == Target(s.db, vid)
  }

  /** Nothing pending, nothing in hand, every writer done. */
  predicate Idle(s: State) {
    Resting(s) && s.pending == {} && s.owed == multiset{} && s.owedUsers == multiset{}
  }

  function Synced(d: Db): State {
    State(d, Targets(d), multiset{}, multiset{}, {}, {}, None, {}, [])
  }

  lemma SyncedKeepsInvariant(d: Db)
    requires WellFormed(d)
    ensures Invariant(Synced(d)) && InSync(Synced(d)) && Idle(Synced(d))
  {
    assert forall vid :: Filed(Synced(d), vid) == Target(d, vid);
  }

  /** From the start-up synchronisation on, in every run: whenever the worker idles with
      nothing pending and every writer is done, each entry agrees with the database. */
  lemma IdleMeansInSync(d: Db, events: seq<Event>)
    requires WellFormed(d) && FitRun(Synced(d), events)
    requires Idle(Run(Synced(d), events))
    ensures InSync(Run(Synced(d), events))
  {
    SyncedKeepsInvariant(d);
    RunKeepsInvariant(Synced(d), events);
    var t := Run(Synced(d), events);
    forall vid ensures Filed(t, vid) == Target(t.db, vid) {
      assert FileRight(t, vid);
    }
  }

  // -- convergence --------------------------------------------------------------------------------------

  predicate QuietStep(e: Event) {
    e.Read? || e == Apply(true)
  }

  lemma {:induction false} QuietRun(s: State, events: seq<Event>)
    requires FitRun(s, events) && forall e :: e in events ==> QuietStep(e)
    ensures var t := Run(s, events);
      && t.db == s.db && t.pending == s.pending && t.failed == s.failed
      && t.owed == s.owed && t.owedUsers == s.owedUsers
    decreases |events|
  {
    if events != [] {
      assert QuietStep(events[0]);
      QuietRun(Step(s, events[0]), events[1..]);
    }
  }

  /** Once the writers are done, one cycle that takes everything pending and fails nowhere
      brings the file in line. */
  lemma SuccessfulCycleConverges(s: State, cycle: seq<Event>)
    requires Invariant(s) && Resting(s) && s.owed == multiset{} && s.owedUsers == multiset{}
    requires forall e :: e in cycle ==> QuietStep(e)
    requires FitRun(s, [Claim(s.pending)] + cycle) && Resting(Run(s, [Claim(s.pending)] + cycle))
    ensures Idle(Run(s, [Claim(s.pending)] + cycle)) && InSync(Run(s, [Claim(s.pending)] + cycle))
  {
    var events := [Claim(s.pending)] + cycle;
    var claimed := Step(s, Claim(s.pending));
    assert events[1..] == cycle;
    RunKeepsInvariant(s, events);
    QuietRun(claimed, cycle);
    var t := Run(s, events);
    forall vid ensures Filed(t, vid) == Target(t.db, vid) {
      assert FileRight(t, vid);
    }
  }

  // -- the writers that miss ------------------------------------------------------------------------

  /** A commit keeps the promise in every state, and as much in every state that a run from
      the start-up synchronisation reaches, exactly when it announces enough. */
  lemma ExactlyTheAnnouncing(d: Db, c: Change, seen: Db)
    requires WellFormed(d) && Committable(d, c, seen)
    ensures AnnouncesEnough(d, c, seen)
       <==> forall s: State :: s.db == d && Invariant(s) ==> Invariant(Step(s, Commit(c, seen)))
    ensures AnnouncesEnough(d, c, seen)
       <==> forall d0, events :: Reaches(d0, events, d) ==> Invariant(Step(Run(Synced(d0), events), Commit(c, seen)))
  {
    if AnnouncesEnough(d, c, seen) {
      forall s: State | s.db == d && Invariant(s) ensures Invariant(Step(s, Commit(c, seen))) {
        CommitKeepsInvariant(s, c, seen);
      }
      forall d0, events | Reaches(d0, events, d)
        ensures Invariant(Step(Run(Synced(d0), events), Commit(c, seen)))
      {
        SyncedKeepsInvariant(d0);
        RunKeepsInvariant(Synced(d0), events);
        CommitKeepsInvariant(Run(Synced(d0), events), c, seen);
      }
    } else {
      var d0, events := Overlooked(d, c, seen);
      var s := Run(Synced(d0), events);
      assert s.db == d && Invariant(s) && !Invariant(Step(s, Commit(c, seen)));
    }
  }

  /** A run from the start-up synchronisation of `d0` that ends with the database `d`. */
  ghost predicate Reaches(d0: Db, events: seq<Event>, d: Db) {
    WellFormed(d0) && FitRun(Synced(d0), events) && Run(Synced(d0), events).db == d
  }

  /** The run a missing announcement spoils: none at all where the file follows the database,
      or the deactivation of the owner whose vehicles are still to be looked up. */
  lemma Overlooked(d: Db, c: Change, seen: Db) returns (d0: Db, events: seq<Event>)
    requires WellFormed(d) && Committable(d, c, seen) && !AnnouncesEnough(d, c, seen)
    ensures Reaches(d0, events, d)
    ensures var s := Run(Synced(d0), events); Invariant(s) && !Invariant(Step(s, Commit(c, seen)))
  {
    match c {
      case ActivateUser(uid) =>
        var vid :| OwnedBy(d, vid, uid) && OnMqtt(d, vid);
        d0, events := d, [];
        SyncedKeepsInvariant(d);
        assert !FileRight(Step(Synced(d), Commit(c, seen)), vid);
      case DeleteVehicle(vid) =>
        d0, events := EntryStillFiled(d, vid);
        assert !FileRight(Step(Run(Synced(d0), events), Commit(c, seen)), vid);
      case DeleteUser(uid) =>
        var vid :| OwnedBy(d, vid, uid) && OnMqtt(d, vid) && !OwnedBy(seen, vid, uid);
        d0, events := EntryStillFiled(d, vid);
        assert !FileRight(Step(Run(Synced(d0), events), Commit(c, seen)), vid);
      case _ =>
    }
  }

  lemma EntryStillFiled(d: Db, vid: string) returns (d0: Db, events: seq<Event>)
    requires WellFormed(d) && OnMqtt(d, vid)
    ensures Reaches(d0, events, d) && Invariant(Run(Synced(d0), events))
    ensures var s := Run(Synced(d0), events);
      vid in s.file && vid !in s.pending && vid !in s.owed && !InHand(s, vid)
  {
    var uid := d.vehicles[vid].owner;
    if d.active[uid] {
      d0, events := d, [];
    } else {
      d0 := d.(active := d.active[uid := true]);
      var e := Commit(UpdateUser(uid, Some(false)), d0);
      events := [e];
      assert After(d0, e.change, d0).active == d.active;
      assert Step(Synced(d0), e).db == d;
      assert events[1..] == [];
      assert Target(d0, vid).Some?;
    }
    SyncedKeepsInvariant(d0);
    RunKeepsInvariant(Synced(d0), events);
  }

  /** What a change of one vehicle sets off: its mark, and a cycle that serves it. */
  function Served(vid: string): seq<Event> {
    [Mark(vid), Claim({vid}), Read(vid, 0), Apply(true), Requeue]
  }

  function WithEntry(file: map<string, string>, vid: string, target: Option<string>): map<string, string> {
    match target case Some(p) => file[vid := p] case None => file - {vid}
  }

  lemma StepThen(s: State, e: Event, rest: seq<Event>)
    requires Fit(s, e) && FitRun(Step(s, e), rest)
    ensures FitRun(s, [e] + rest) && Run(s, [e] + rest) == Run(Step(s, e), rest)
  {
    assert ([e] + rest)[1..] == rest;
  }

  /** The stages of a cycle that serves one vehicle. */
  function Cycling(s: State, vid: string, stage: nat): State {
    var quiet := s.(owed := multiset{});
    match stage
    case 0 => s
    case 1 => quiet.(pending := {vid})
    case 2 => quiet.(taken := {vid}, since := [s.db])
    case 3 => quiet.(since := [s.db], current := Some((vid, Target(s.db, vid))))
    case _ => quiet.(since := [s.db], file := WithEntry(s.file, vid, Target(s.db, vid)))
  }

  lemma CycleStep(s: State, vid: string, stage: nat)
    requires Resting(s) && s.pending == {} && s.owed == multiset{vid} && stage < 5
    ensures Fit(Cycling(s, vid, stage), Served(vid)[stage])
    ensures Step(Cycling(s, vid, stage), Served(vid)[stage]) == Cycling(s, vid, stage + 1)
  {
    hide Target;
  }

  lemma {:induction false} CycleFrom(s: State, vid: string, stage: nat)
    requires Resting(s) && s.pending == {} && s.owed == multiset{vid} && stage <= 5
    ensures FitRun(Cycling(s, vid, stage), Served(vid)[stage..])
    ensures Run(Cycling(s, vid, stage), Served(vid)[stage..]) == Cycling(s, vid, 5)
    decreases 5 - stage
  {
    if stage < 5 {
      assert Served(vid)[stage..] == [Served(vid)[stage]] + Served(vid)[stage + 1..];
      hide Cycling, Step, Served, Fit;
      CycleStep(s, vid, stage);
      CycleFrom(s, vid, stage + 1);
      StepThen(Cycling(s, vid, stage), Served(vid)[stage], Served(vid)[stage + 1..]);
    }
  }

  lemma ServedRun(s: State, vid: string)
    requires Resting(s) && s.pending == {} && s.owed == multiset{vid}
    ensures FitRun(s, Served(vid))
    ensures Run(s, Served(vid))
         == s.(owed := multiset{}, since := [s.db], file := WithEntry(s.file, vid, Target(s.db, vid)))
  {
    assert Served(vid)[0..] == Served(vid);
    assert Cycling(s, vid, 0) == s;
    hide Served, Run, FitRun;
    CycleFrom(s, vid, 0);
  }

  /** A login stays behind although nothing is pending and every writer is done. */
  ghost predicate Stranded(s: State, vid: string) {
    Idle(s) && Filed(s, vid) != Target(s.db, vid)
  }

  /** The vehicle is read while it speaks no MQTT, switched to it by somebody else, synced,
      and then deleted as if nothing had happened. */
  lemma StaleVehicleDeletionStrands(d0: Db, vid: string)
    requires WellFormed(d0) && vid in d0.vehicles && !OnMqtt(d0, vid) && d0.active[d0.vehicles[vid].owner]
    ensures var events := [Commit(UpdateVehicle(vid, Some("v3"), None), d0)] + Served(vid);
      && FitRun(Synced(d0), events)
      && Possible(Run(Synced(d0), events), Commit(DeleteVehicle(vid), d0))
      && Stranded(Step(Run(Synced(d0), events), Commit(DeleteVehicle(vid), d0)), vid)
  {
    var e := Commit(UpdateVehicle(vid, Some("v3"), None), d0);
    var s := Step(Synced(d0), e);
    assert s.owed == multiset{vid} && Target(s.db, vid).Some?;
    ServedRun(s, vid);
    StepThen(Synced(d0), e, Served(vid));
  }

  lemma CreatedAndServed(d0: Db, uid: nat, vid: string, password: string)
    requires WellFormed(d0) && uid in d0.active && d0.active[uid] && vid !in d0.vehicles
    ensures var events := [Commit(CreateVehicle(vid, Row("v3", uid, password)), d0)] + Served(vid);
      && FitRun(Synced(d0), events)
      && var t := Run(Synced(d0), events);
         Idle(t) && vid in t.file && OwnedBy(t.db, vid, uid) && t.db.active == d0.active
  {
    var e := Commit(CreateVehicle(vid, Row("v3", uid, password)), d0);
    var s := Step(Synced(d0), e);
    assert s.owed == multiset{vid} && Target(s.db, vid) == Some(password);
    ServedRun(s, vid);
    StepThen(Synced(d0), e, Served(vid));
  }

  lemma UserDeletionLeavesEntry(t: State, d0: Db, uid: nat, vid: string)
    requires Idle(t) && vid in t.file && OwnedBy(t.db, vid, uid) && uid in t.db.active
    requires forall v :: v in d0.vehicles ==> d0.vehicles[v].owner != uid
    ensures Possible(t, Commit(DeleteUser(uid), d0)) && Stranded(Step(t, Commit(DeleteUser(uid), d0)), vid)
  {
    assert Marks(t.db, DeleteUser(uid), d0) == {};
  }

  /** The owner's vehicles are read while there are none, one is created and synced, and then
      the owner is deleted with it. */
  lemma StaleUserDeletionStrands(d0: Db, uid: nat, vid: string, password: string)
    requires WellFormed(d0) && uid in d0.active && d0.active[uid] && vid !in d0.vehicles
    requires forall v :: v in d0.vehicles ==> d0.vehicles[v].owner != uid
    ensures var events := [Commit(CreateVehicle(vid, Row("v3", uid, password)), d0)] + Served(vid);
      && FitRun(Synced(d0), events)
      && Possible(Run(Synced(d0), events), Commit(DeleteUser(uid), d0))
      && Stranded(Step(Run(Synced(d0), events), Commit(DeleteUser(uid), d0)), vid)
  {
    hide *;
    CreatedAndServed(d0, uid, vid, password);
    var events := [Commit(CreateVehicle(vid, Row("v3", uid, password)), d0)] + Served(vid);
    UserDeletionLeavesEntry(Run(Synced(d0), events), d0, uid, vid);
  }

  /** An account that owns a vehicle on MQTT is activated by its mail link. */
  lemma ActivationStrands(d: Db, uid: nat, vid: string)
    requires WellFormed(d) && OnMqtt(d, vid) && OwnedBy(d, vid, uid) && !d.active[uid]
    ensures Stranded(Step(Synced(d), Commit(ActivateUser(uid), d)), vid)
  {
  }

  // -- runs that need no care ------------------------------------------------------------------------

  /** Every writer reads in the same breath as it commits, and an account is activated by its
      mail link only while it owns no vehicle on MQTT. */
  ghost predicate Careful(s: State, e: Event) {
    Possible(s, e) && (e.Commit? ==>
      e.seen == s.db
      && (e.change.ActivateUser? ==> forall vid :: OwnedBy(s.db, vid, e.change.uid) ==> !OnMqtt(s.db, vid)))
  }

  ghost predicate CarefulRun(s: State, events: seq<Event>)
    decreases |events|
  {
    events == [] || (Careful(s, events[0]) && CarefulRun(Step(s, events[0]), events[1..]))
  }

  lemma {:induction false} CarefulRunsAreFit(s: State, events: seq<Event>)
    requires CarefulRun(s, events)
    ensures FitRun(s, events)
    decreases |events|
  {
    if events != [] {
      assert Fit(s, events[0]);
      hide Careful, Fit, Step;
      CarefulRunsAreFit(Step(s, events[0]), events[1..]);
    }
  }

  /** Then whenever the worker idles with nothing pending the file agrees. */
  lemma CarefulWritersStayInSync(d: Db, events: seq<Event>)
    requires WellFormed(d) && CarefulRun(Synced(d), events)
    ensures FitRun(Synced(d), events)
    ensures Idle(Run(Synced(d), events)) ==> InSync(Run(Synced(d), events))
  {
    CarefulRunsAreFit(Synced(d), events);
    if Idle(Run(Synced(d), events)) {
      IdleMeansInSync(d, events);
    }
  }
}
