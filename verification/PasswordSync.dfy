/** The full synchronisation: the password file rebuilt from the service accounts, the
    vehicles that may log in and the API keys it already knew. */
module PasswordSync {
  import opened AclPolicy
  import opened PasswordFile
  import SyncConvergence

  // -- the accounts the file should hold ---------------------------------------------------

  /** A vehicle the full synchronisation gives a login. */
  predicate LogsIn(v: Vehicle) {
    SpeaksMqtt(v) && v.owner.Some? && v.owner.value.active
  }

  predicate VehicleAccount(db: Database, user: string) {
    exists v :: v in db.vehicles && LogsIn(v) && Vid(v) == user
  }

  predicate KeptKey(db: Database, current: map<string, string>, now: int, user: string) {
    user in current && exists k :: k in db.keys && Unexpired(k, now) && k.prefix == user
  }

  /** The configured pairs as the dict literal reads them: for one name the later pair counts. */
  function Configured(creds: seq<(string, string)>): map<string, string> {
    if creds == [] then map[]
    else Configured(creds[..|creds| - 1])[creds[|creds| - 1].0 := creds[|creds| - 1].1]
  }

  predicate ServiceAccount(creds: seq<(string, string)>, user: string) {
    user in Configured(creds) && user != "" && Configured(creds)[user] != ""
  }

  /** What one account's line holds after the synchronisation. A kept key wins over a vehicle
      of that name, and a vehicle over a service account. `hash` is the salted hash drawn for
      that name and password in this run. */
  ghost predicate RightHash(
    creds: seq<(string, string)>, db: Database, current: map<string, string>, now: int,
    hash: (string, string) -> string, user: string, h: string)
  {
    if KeptKey(db, current, now, user) then h == current[user]
    else if VehicleAccount(db, user) then
      exists v :: v in db.vehicles && LogsIn(v) && Vid(v) == user && h == hash(user, v.password)
    else ServiceAccount(creds, user) && h == hash(user, Configured(creds)[user])
  }

  /** The accounts: exactly those three kinds, each with its hash. */
  ghost predicate Complete(
    accounts: map<string, string>, creds: seq<(string, string)>, db: Database, current: map<string, string>,
    now: int, hash: (string, string) -> string)
  {
    forall user ::
      && (user in accounts <==>
          KeptKey(db, current, now, user) || VehicleAccount(db, user) || ServiceAccount(creds, user))
      && (user in accounts ==> RightHash(creds, db, current, now, hash, user, accounts[user]))
  }

  function Part(vehicles: seq<Vehicle>, keys: seq<ApiKey>): Database {
    Database(vehicles, keys)
  }

  // -- building them, kind by kind ----------------------------------------------------------

  method ServiceAccounts(
    creds: seq<(string, string)>, now: int, hash: (string, string) -> string, ghost current: map<string, string>)
    returns (accounts: map<string, string>)
    ensures Complete(accounts, creds, Part([], []), current, now, hash)
  {
    var backend := Configured(creds);
    accounts := map[];
    var left := backend.Keys;
    while left != {}
      invariant left <= backend.Keys
      invariant forall u :: u in accounts <==> ServiceAccount(creds, u) && u !in left
      invariant forall u :: u in accounts ==> accounts[u] == hash(u, backend[u])
      decreases left
    {
      var u :| u in left;
      if u != "" && backend[u] != "" {
        accounts := accounts[u := hash(u, backend[u])];
      }
      left := left - {u};
    }
  }

  method VehicleAccounts(
    given: map<string, string>, vehicles: seq<Vehicle>, hash: (string, string) -> string,
    ghost creds: seq<(string, string)>, ghost now: int, ghost current: map<string, string>)
    returns (accounts: map<string, string>)
    requires Complete(given, creds, Part([], []), current, now, hash)
    ensures Complete(accounts, creds, Part(vehicles, []), current, now, hash)
  {
    accounts := given;
    for i := 0 to |vehicles|
      invariant Complete(accounts, creds, Part(vehicles[..i], []), current, now, hash)
    {
      var v := vehicles[i];
      VehicleStep(accounts, creds, vehicles[..i], v, current, now, hash);
      assert vehicles[..i + 1] == vehicles[..i] + [v];
      if LogsIn(v) {
        accounts := accounts[Vid(v) := hash(Vid(v), v.password)];
      }
    }
    assert vehicles[..|vehicles|] == vehicles;
  }

  lemma VehicleStep(
    accounts: map<string, string>, creds: seq<(string, string)>, vehicles: seq<Vehicle>, v: Vehicle,
    current: map<string, string>, now: int, hash: (string, string) -> string)
    requires Complete(accounts, creds, Part(vehicles, []), current, now, hash)
    ensures Complete(
      if LogsIn(v) then accounts[Vid(v) := hash(Vid(v), v.password)] else accounts,
      creds, Part(vehicles + [v], []), current, now, hash)
  {
    hide ServiceAccount, Vid, SpeaksMqtt, LogsIn;
    assert forall w :: w in vehicles + [v] <==> w in vehicles || w == v;
    assert v in vehicles + [v];
  }

  method KeptAccounts(
    given: map<string, string>, db: Database, current: map<string, string>, now: int,
    ghost creds: seq<(string, string)>, ghost hash: (string, string) -> string)
    returns (accounts: map<string, string>)
    requires Complete(given, creds, Part(db.vehicles, []), current, now, hash)
    ensures Complete(accounts, creds, db, current, now, hash)
  {
    accounts := given;
    for i := 0 to |db.keys|
      invariant Complete(accounts, creds, Part(db.vehicles, db.keys[..i]), current, now, hash)
    {
      var k := db.keys[i];
      KeyStep(accounts, creds, db, db.keys[..i], k, current, now, hash);
      assert db.keys[..i + 1] == db.keys[..i] + [k];
      if Unexpired(k, now) && k.prefix in current {
        accounts := accounts[k.prefix := current[k.prefix]];
      }
    }
    assert Part(db.vehicles, db.keys[..|db.keys|]) == db;
  }

  lemma KeyStep(
    accounts: map<string, string>, creds: seq<(string, string)>, db: Database, keys: seq<ApiKey>, k: ApiKey,
    current: map<string, string>, now: int, hash: (string, string) -> string)
    requires Complete(accounts, creds, Part(db.vehicles, keys), current, now, hash)
    ensures Complete(
      if Unexpired(k, now) && k.prefix in current then accounts[k.prefix := current[k.prefix]] else accounts,
      creds, Part(db.vehicles, keys + [k]), current, now, hash)
  {
    hide ServiceAccount, Vid, LogsIn, Unexpired;
    assert forall j :: j in keys + [k] <==> j in keys || j == k;
    assert k in keys + [k];
  }

  // -- the file they become ---------------------------------------------------------------------

  ghost predicate PlainAccounts(accounts: map<string, string>) {
    forall u :: u in accounts ==> ':' !in u && Strip(Entry(u, accounts[u])) == Entry(u, accounts[u])
  }

  ghost predicate IsPrintOf(lines: seq<string>, accounts: map<string, string>) {
    forall l :: l in lines <==> exists u :: u in accounts && l == Entry(u, accounts[u])
  }

  method FinalLines(accounts: map<string, string>) returns (lines: seq<string>)
    ensures IsPrintOf(lines, accounts)
  {
    lines := [];
    var left := accounts.Keys;
    while left != {}
      invariant left <= accounts.Keys
      invariant forall l :: l in lines <==> exists u :: u in accounts && u !in left && l == Entry(u, accounts[u])
      decreases left
    {
      var u :| u in left;
      lines := lines + [Entry(u, accounts[u])];
      left := left - {u};
    }
  }

  /** Reading the printed file gives the accounts back. */
  lemma PrintedReadsBack(lines: seq<string>, accounts: map<string, string>)
    requires IsPrintOf(lines, accounts) && PlainAccounts(accounts)
    ensures Clean(lines) && OneLineEach(lines) && Parse(lines) == accounts
  {
    forall u | u in accounts
      ensures ':' in Entry(u, accounts[u]) && UserOf(Entry(u, accounts[u])) == u
    {
      EntryParts(u, accounts[u]);
    }
    assert Clean(lines) && OneLineEach(lines);
    hide Strip, Entry, UserOf, HashOf, OneLineEach;
    ParsedUsersArePlain(lines);
    forall u | ':' !in u
      ensures u in Parse(lines) <==> u in accounts
      ensures u in accounts ==> Parse(lines)[u] == accounts[u]
    {
      OneAccountReadsBack(lines, accounts, u);
    }
  }

  lemma OneAccountReadsBack(lines: seq<string>, accounts: map<string, string>, u: string)
    requires IsPrintOf(lines, accounts) && PlainAccounts(accounts) && Clean(lines) && ':' !in u
    ensures u in Parse(lines) <==> u in accounts
    ensures u in accounts ==> Parse(lines)[u] == accounts[u]
  {
    ParseIsLastRead(lines, u);
    LastReadIsOne(lines, u);
    hide Parse, Strip, Clean, LastRead;
    if u in accounts {
      EntryParts(u, accounts[u]);
      assert Entry(u, accounts[u]) in lines && ReadsAs(Entry(u, accounts[u]), u);
    }
    if u in Parse(lines) {
      var l := LastRead(lines, u).value;
      var w :| w in accounts && l == Entry(w, accounts[w]);
      EntryParts(w, accounts[w]);
    }
  }

  // -- what there is to strip -----------------------------------------------------------------

  predicate Stripped(s: string) {
    s == [] || (!IsSpace(s[0]) && !IsSpace(s[|s| - 1]))
  }

  lemma {:induction false} StripLeaves(s: string)
    ensures Stripped(Strip(s))
  {
    LeftStrips(s);
    RightStrips(StripLeft(s));
  }

  lemma {:induction false} LeftStrips(s: string)
    ensures StripLeft(s) != [] ==> !IsSpace(StripLeft(s)[0])
  {
    if s != [] && IsSpace(s[0]) {
      LeftStrips(s[1..]);
    }
  }

  lemma {:induction false} RightStrips(s: string)
    requires s != [] ==> !IsSpace(s[0])
    ensures Stripped(StripRight(s))
  {
    if s != [] && IsSpace(s[|s| - 1]) {
      RightStrips(s[..|s| - 1]);
    }
  }

  lemma StrippedEntry(user: string, h: string)
    requires Stripped(user) && Stripped(h)
    ensures Strip(Entry(user, h)) == Entry(user, h)
  {
    var e := Entry(user, h);
    assert e[0] == if user == [] then ':' else user[0];
    assert e[|e| - 1] == if h == [] then ':' else h[|h| - 1];
  }

  lemma {:induction false} ParsedEntriesAreClean(lines: seq<string>)
    ensures PlainAccounts(Parse(lines))
    decreases |lines|
  {
    if lines != [] {
      var last := lines[|lines| - 1];
      ParsedEntriesAreClean(lines[..|lines| - 1]);
      if ':' in last {
        StripLeaves(last);
        LineParts(Strip(last));
      }
    }
  }

  ghost predicate PlainInput(creds: seq<(string, string)>, db: Database, hash: (string, string) -> string) {
    && (forall c :: c in creds ==> ':' !in c.0 && Stripped(c.0))
    && (forall v :: v in db.vehicles ==> ':' !in Vid(v) && Stripped(Vid(v)))
    && (forall u, p :: Stripped(hash(u, p)))
  }

  lemma {:induction false} ConfiguredArePlain(creds: seq<(string, string)>)
    requires forall c :: c in creds ==> ':' !in c.0 && Stripped(c.0)
    ensures forall u :: u in Configured(creds) ==> ':' !in u && Stripped(u)
    decreases |creds|
  {
    if creds != [] {
      ConfiguredArePlain(creds[..|creds| - 1]);
    }
  }

  lemma CompleteIsPlain(
    accounts: map<string, string>, creds: seq<(string, string)>, db: Database, current: map<string, string>,
    now: int, hash: (string, string) -> string)
    requires Complete(accounts, creds, db, current, now, hash)
    requires PlainAccounts(current) && PlainInput(creds, db, hash)
    ensures PlainAccounts(accounts)
  {
    ConfiguredArePlain(creds);
    hide Strip, Stripped, Entry, Configured, Vid, LogsIn;
    forall u | u in accounts ensures ':' !in u && Strip(Entry(u, accounts[u])) == Entry(u, accounts[u]) {
      if !KeptKey(db, current, now, u) {
        StrippedEntry(u, accounts[u]);
      }
    }
  }

  // -- sync_all_from_db ----------------------------------------------------------------------

  /** After a successful run the file, as the broker reads it, holds exactly the service
      accounts, the vehicles that may log in and the still valid keys it held before, the
      last ones with the very hash they had. */
  method SyncAllFromDb(
    manager: Manager, creds: seq<(string, string)>, db: Database, now: int, hash: (string, string) -> string,
    works: bool) returns (ok: bool)
    requires PlainInput(creds, db, hash)
    modifies manager
    ensures ok == works && (!works ==> manager.file == old(manager.file))
    ensures works ==> manager.file.Some? && Sorted(manager.Lines()) && Clean(manager.Lines())
    ensures works ==> OneLineEach(manager.Lines())
    ensures works ==> Complete(Parse(manager.Lines()), creds, db, Parse(old(manager.Lines())), now, hash)
  {
    hide *;
    var current := Parse(manager.Lines());
    var accounts := ServiceAccounts(creds, now, hash, current);
    accounts := VehicleAccounts(accounts, db.vehicles, hash, creds, now, current);
    accounts := KeptAccounts(accounts, db, current, now, creds, hash);
    ParsedEntriesAreClean(manager.Lines());
    CompleteIsPlain(accounts, creds, db, current, now, hash);
    var lines := FinalLines(accounts);  // distinct users, so distinct lines
    var sorted := SortedUnique(lines);
    SameLines(lines, sorted, accounts);
    PrintedReadsBack(sorted, accounts);
    ok := manager.AtomicWrite(sorted, works);
    assert works ==> manager.Lines() == sorted;
  }

  lemma SameLines(a: seq<string>, b: seq<string>, accounts: map<string, string>)
    requires IsPrintOf(a, accounts) && LinesOf(a) == LinesOf(b)
    ensures IsPrintOf(b, accounts)
  {
    forall l ensures l in a <==> l in b {
      assert l in LinesOf(a) <==> l in LinesOf(b);
    }
  }

  // -- the other synchronisation -------------------------------------------------------------------

  /** `d` has the same vehicles, owners and passwords as `db`, by id. */
  ghost predicate Describes(d: SyncConvergence.Db, db: Database) {
    && (forall v :: v in db.vehicles ==>
          && v.owner.Some? && v.ownerId in d.active && d.active[v.ownerId] == v.owner.value.active
          && Vid(v) in d.vehicles
          && d.vehicles[Vid(v)] == SyncConvergence.Row(v.protocol, v.ownerId, v.password))
    && (forall vid :: vid in d.vehicles ==> exists v :: v in db.vehicles && Vid(v) == vid)
  }

  /** What the full synchronisation leaves for a vehicle is what the per-vehicle one aims at:
      the state in which the worker starts. */
  lemma FullSyncMeetsTheTargets(
    accounts: map<string, string>, creds: seq<(string, string)>, db: Database, current: map<string, string>,
    now: int, hash: (string, string) -> string, d: SyncConvergence.Db, vid: string)
    requires Complete(accounts, creds, db, current, now, hash) && Describes(d, db)
    requires vid in d.vehicles && !ServiceAccount(creds, vid) && !KeptKey(db, current, now, vid)
    ensures vid in accounts <==> SyncConvergence.Target(d, vid).Some?
    ensures vid in accounts ==> accounts[vid] == hash(vid, SyncConvergence.Target(d, vid).value)
  {
    var v :| v in db.vehicles && Vid(v) == vid;
    assert LogsIn(v) <==> SyncConvergence.Target(d, vid).Some?;
    hide ServiceAccount, KeptKey, Vid;
    if vid in accounts {
      var w :| w in db.vehicles && LogsIn(w) && Vid(w) == vid && accounts[vid] == hash(vid, w.password);
    }
  }

  /** The last pair for a name: the one that counts. */
  predicate LastPair(creds: seq<(string, string)>, i: int, user: string) {
    0 <= i < |creds| && creds[i].0 == user && forall j :: i < j < |creds| ==> creds[j].0 != user
  }

  predicate KeyStands(k: ApiKey, now: int) {
    k.active && (k.expiresAt.Some? ==> now < k.expiresAt.value)
  }

  predicate OnProtocol(v: Vehicle) {
    (v.protocol == "v3" || v.protocol == "both") && v.owner.Some? && v.owner.value.active
  }

  ghost predicate HasKey(db: Database, current: map<string, string>, now: int, user: string) {
    user in current && exists k :: k in db.keys && k.prefix == user && KeyStands(k, now)
  }

  /** The names in the new file and their hashes, in terms of settings and rows: a key the file
      already had that is switched on and not past its date, with the very hash it had; a vehicle
      on the protocol with an active owner; and a configured pair with a name and a password, of
      which the last for a name counts. Of two kinds under one name the first here wins. */
  lemma AccountsInTheFile(
    accounts: map<string, string>, creds: seq<(string, string)>, db: Database, current: map<string, string>,
    now: int, hash: (string, string) -> string, user: string)
    requires Complete(accounts, creds, db, current, now, hash)
    ensures user in accounts <==>
      || HasKey(db, current, now, user)
      || (exists v :: v in db.vehicles && Upper(v.vehicleId) == user && OnProtocol(v))
      || (user != "" && exists i :: LastPair(creds, i, user) && creds[i].1 != "")
    ensures user in accounts ==>
      if HasKey(db, current, now, user) then accounts[user] == current[user]
      else
        || (exists v :: v in db.vehicles && Upper(v.vehicleId) == user && OnProtocol(v)
                     && accounts[user] == hash(user, v.password))
        || ((forall v :: v in db.vehicles && OnProtocol(v) ==> Upper(v.vehicleId) != user)
            && exists i :: LastPair(creds, i, user) && accounts[user] == hash(user, creds[i].1))
  {
    ConfiguredMeans(creds, user);
    assert HasKey(db, current, now, user) <==> KeptKey(db, current, now, user);
    hide Upper, Configured;
  }

  lemma {:induction false} ConfiguredMeans(creds: seq<(string, string)>, user: string)
    ensures forall i :: LastPair(creds, i, user) ==> user in Configured(creds) && Configured(creds)[user] == creds[i].1
    ensures user in Configured(creds) ==> exists i :: LastPair(creds, i, user)
    decreases |creds|
  {
    if creds != [] {
      var n := |creds| - 1;
      ConfiguredMeans(creds[..n], user);
      assert LastPair(creds, n, user) <==> creds[n].0 == user;
      if creds[n].0 != user {
        forall i ensures LastPair(creds, i, user) <==> LastPair(creds[..n], i, user) {
          assert forall j :: 0 <= j < n ==> creds[..n][j] == creds[j];
        }
      }
    }
  }

  // -- runs of the file --------------------------------------------------------------------------

  /** What the server does to the file, each succeeding or failing. */
  datatype Change =
    | Upsert(user: string, hash: string, works: bool)
    | Remove(user: string, works: bool)
    | Rebuild(creds: seq<(string, string)>, db: Database, now: int, salted: (string, string) -> string, works: bool)

  /** What the manager's methods promise of the lines. */
  ghost predicate FileLeads(lines: seq<string>, c: Change, after: seq<string>) {
    if !c.works then after == lines
    else
      match c
      case Upsert(user, hash, _) => IsUpsert(lines, after, user, hash)
      case Remove(user, _) => after == WithoutUser(lines, user)
      case Rebuild(creds, db, now, salted, _) =>
        && Clean(after) && OneLineEach(after)
        && Complete(Parse(after), creds, db, Parse(lines), now, salted)
  }

  /** The same change to a map from users to hashes. */
  ghost predicate MapLeads(m: map<string, string>, c: Change, after: map<string, string>) {
    if !c.works then after == m
    else
      match c
      case Upsert(user, hash, _) => after == m[user := hash]
      case Remove(user, _) => after == m - {user}
      case Rebuild(creds, db, now, salted, _) => Complete(after, creds, db, m, now, salted)
  }

  /** Names and hashes as the server makes them. */
  ghost predicate PlainChange(c: Change) {
    match c
    case Upsert(user, hash, _) => PlainName(user) && Stripped(Entry(user, hash))
    case Remove(user, _) => PlainName(user)
    case Rebuild(creds, db, _, salted, _) => PlainInput(creds, db, salted)
  }

  lemma StrippedMeans(s: string)
    requires Stripped(s)
    ensures Strip(s) == s
  {
  }

  lemma ChangeKeepsWritten(lines: seq<string>, c: Change, after: seq<string>)
    requires Clean(lines) && OneLineEach(lines) && PlainChange(c) && FileLeads(lines, c, after)
    ensures Clean(after) && OneLineEach(after) && MapLeads(Parse(lines), c, Parse(after))
  {
    hide Clean, OneLineEach, IsUpsert, WithoutUser, Parse, Complete, PlainName;
    if c.works {
      match c {
        case Upsert(user, hash, _) =>
          StrippedMeans(Entry(user, hash));
          UpsertOnWrittenFile(lines, after, user, hash);
        case Remove(user, _) => RemoveOnWrittenFile(lines, user);
        case Rebuild(_, _, _, _, _) =>
      }
    }
  }

  ghost predicate FileRun(files: seq<seq<string>>, changes: seq<Change>) {
    && |files| == |changes| + 1
    && forall i :: 0 <= i < |changes| ==> PlainChange(changes[i]) && FileLeads(files[i], changes[i], files[i + 1])
  }

  /** From a file as the server writes it, every run of rebuilds, upserts and removals, some of
      them failing, is for the reader a run of the same changes to a map, and the file stays one
      line for each user with nothing to strip. */
  lemma {:induction false} FileRunIsMapRun(files: seq<seq<string>>, changes: seq<Change>, i: nat)
    requires FileRun(files, changes) && Clean(files[0]) && OneLineEach(files[0]) && i < |files|
    ensures Clean(files[i]) && OneLineEach(files[i])
    ensures i < |changes| ==> MapLeads(Parse(files[i]), changes[i], Parse(files[i + 1]))
  {
    if i > 0 {
      FileRunIsMapRun(files, changes, i - 1);
      ChangeKeepsWritten(files[i - 1], changes[i - 1], files[i]);
    }
    if i < |changes| {
      ChangeKeepsWritten(files[i], changes[i], files[i + 1]);
    }
  }

  /** Whatever the file was: from the first rebuild that works on, the same. */
  lemma RunAfterRebuildIsMapRun(files: seq<seq<string>>, changes: seq<Change>, first: nat, i: nat)
    requires FileRun(files, changes) && first < i < |files|
    requires changes[first].Rebuild? && changes[first].works
    ensures Clean(files[i]) && OneLineEach(files[i])
    ensures i < |changes| ==> MapLeads(Parse(files[i]), changes[i], Parse(files[i + 1]))
  {
    var rest, later := files[first + 1..], changes[first + 1..];
    assert FileLeads(files[first], changes[first], files[first + 1]);
    assert forall j :: 0 <= j < |later| ==> later[j] == changes[first + 1 + j] && rest[j] == files[first + 1 + j];
    hide FileLeads, PlainChange, Clean, OneLineEach;
    forall j | 0 <= j < |later| ensures PlainChange(later[j]) && FileLeads(rest[j], later[j], rest[j + 1]) {
      assert rest[j + 1] == files[first + 1 + j + 1];
    }
    FileRunIsMapRun(rest, later, i - first - 1);
  }
}
