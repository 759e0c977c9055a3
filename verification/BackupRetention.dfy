/** What an upload, a promotion and a deletion do to the config_backups table. */
module BackupRetention {
  import opened Wrappers
  import opened BackupTable

  datatype Settings = Settings(
    maxAuto: nat,
    maxManual: nat,
    maxDevices: nat,
    coalesceMinutes: int,
    minIntervalSeconds: int,
    maxChars: nat)
  {
    predicate Valid() {
      1 <= maxAuto && 1 <= maxDevices
    }

    function CoalesceSpan(): int {
      coalesceMinutes * 60_000_000
    }

    function MinInterval(): int {
      minIntervalSeconds * 1_000_000
    }
  }

  datatype Upload = Upload(
    kind: Kind,
    payload: string,
    device: Option<string>,
    deviceName: Option<string>,
    labelText: Option<string>,
    appVersion: Option<string>,
    platform: Option<string>,
    schemaVersion: int,
    digest: string)

  datatype StoreOutcome = Created | Throttled | Deduplicated | Coalesced

  datatype Answer =
    | Stored(id: nat, outcome: StoreOutcome)
    | ManualLimitReached
    | StorageQuotaExceeded

  // -- the pieces ---------------------------------------------------------------

  function AdoptDeviceName(t: Table, owner: nat, device: Option<string>, name: Option<string>): Table {
    if device.None? || name.None? then
      t
    else
      map id | id in t ::
        if t[id].owner == owner && t[id].device == device then t[id].(deviceName := name) else t[id]
  }

  /** The rows of a bucket that are newer than row `id`. */
  function Above(t: Table, bucket: set<nat>, id: nat): set<nat>
    requires bucket <= t.Keys && id in t
  {
    set j | j in bucket && Newer(t, j, id)
  }

  /** The rows past an OFFSET of `keep` in the bucket, newest first. */
  function Stale(t: Table, bucket: set<nat>, keep: nat): set<nat>
    requires bucket <= t.Keys
  {
    set id | id in bucket && keep <= |Above(t, bucket, id)|
  }

  function EvictOldestAuto(s: Settings, t: Table, owner: nat, device: Option<string>): Table {
    t - Stale(t, Bucket(t, owner, Auto, device), s.maxAuto)
  }

  /** `order` lists every auto window once, the one whose newest row is oldest first.
      Windows with equal newest times may come in any order: the query leaves it open. */
  ghost predicate IsStalenessOrder(t: Table, owner: nat, order: seq<Option<string>>) {
    && (forall i, j :: 0 <= i < j < |order| ==> order[i] != order[j])
    && (forall d :: d in order <==> d in Windows(t, owner))
    && (forall i, j :: 0 <= i < j < |order| ==>
          WindowTime(t, owner, order[i]) <= WindowTime(t, owner, order[j]))
  }

  ghost function WindowTime(t: Table, owner: nat, device: Option<string>): int {
    var ids := Bucket(t, owner, Auto, device);
    if ids == {} then 0 else t[Newest(t, ids)].createdAt
  }

  function WindowIds(t: Table, owner: nat, devices: seq<Option<string>>): set<nat> {
    set id | id in t && t[id].owner == owner && t[id].kind == Auto && t[id].device in devices
  }

  /** The windows that give way before `device` opens one of its own. */
  function Victims(s: Settings, device: Option<string>, order: seq<Option<string>>): seq<Option<string>>
  {
    var excess := |order| - s.maxDevices + 1;
    if device in order || excess <= 0 then [] else order[..if excess <= |order| then excess else |order|]
  }

  function MakeRoomForDevice(
      s: Settings, t: Table, owner: nat, device: Option<string>, order: seq<Option<string>>): Table
  {
    t - WindowIds(t, owner, Victims(s, device, order))
  }

  function NewRow(owner: nat, u: Upload, now: int): Row {
    Row(owner, u.kind, u.labelText, u.device, u.deviceName, u.appVersion, u.platform,
        u.schemaVersion, u.payload, |u.payload|, u.digest, now)
  }

  function Merged(row: Row, u: Upload, now: int): Row {
    row.(payload := u.payload, storedChars := |u.payload|, digest := u.digest, createdAt := now,
         deviceName := if u.deviceName.Some? then u.deviceName else row.deviceName,
         appVersion := u.appVersion, platform := u.platform, schemaVersion := u.schemaVersion,
         labelText := if u.labelText.Some? then u.labelText else row.labelText)
  }

  function Relabelled(row: Row, u: Upload): Row {
    if u.labelText.Some? then row.(labelText := u.labelText) else row
  }

  ghost predicate WithinQuota(s: Settings, t: Table, owner: nat, delta: int) {
    Chars(t, OwnedIds(t, owner)) + delta <= s.maxChars
  }

  /** The table into which a created row goes. */
  function Roomy(s: Settings, t: Table, owner: nat, u: Upload, order: seq<Option<string>>): Table {
    if u.kind == Auto then MakeRoomForDevice(s, t, owner, u.device, order) else t
  }

  /** A row of another of the owner's windows: only such a row goes before the key is drawn. */
  predicate GaveRoom(row: Row, owner: nat, u: Upload) {
    u.kind == Auto && row.owner == owner && row.kind == Auto && row.device != u.device
  }

  /** A key is drawn above every key in the table it goes into. A database without a sequence
      may draw the key of a row that has just made room. */
  predicate FreshId(s: Settings, t: Table, owner: nat, u: Upload, newId: nat, order: seq<Option<string>>) {
    forall id :: id in Roomy(s, t, owner, u, order) ==> id < newId
  }

  function Inserted(
      s: Settings, t: Table, owner: nat, u: Upload, now: int, newId: nat,
      order: seq<Option<string>>): Table
  {
    var roomy := Roomy(s, t, owner, u, order);
    var added := AdoptDeviceName(roomy[newId := NewRow(owner, u, now)], owner, u.device, u.deviceName);
    if u.kind == Auto then EvictOldestAuto(s, added, owner, u.device) else added
  }

  // -- the operations -----------------------------------------------------------

  /** An unchanged upload: the newest row takes its label, the device its name. */
  function KeptTable(t: Table, owner: nat, u: Upload, n: nat): Table
    requires n in t
  {
    AdoptDeviceName(t[n := Relabelled(t[n], u)], owner, u.device, u.deviceName)
  }

  /** A coalesced upload: it replaces the newest row. */
  function RefilledTable(t: Table, owner: nat, u: Upload, now: int, n: nat): Table
    requires n in t
  {
    AdoptDeviceName(t[n := Merged(t[n], u, now)], owner, u.device, u.deviceName)
  }

  predicate IsThrottled(s: Settings, row: Row, u: Upload, now: int) {
    && u.kind == Auto && row.digest == u.digest
    && (u.deviceName.None? || row.deviceName == u.deviceName)
    && now - row.createdAt < s.MinInterval()
  }

  predicate IsYoung(s: Settings, row: Row, u: Upload, now: int) {
    u.kind == Auto && 0 < s.CoalesceSpan() && now - row.createdAt < s.CoalesceSpan()
  }

  ghost function Store(
      s: Settings, t: Table, owner: nat, u: Upload, now: int, newId: nat,
      order: seq<Option<string>>): (Table, Answer)
  {
    match NewestIn(t, Bucket(t, owner, u.kind, u.device))
    case Some(n) =>
      if IsThrottled(s, t[n], u, now) then (t, Stored(n, Throttled))
      else if t[n].digest == u.digest then (KeptTable(t, owner, u, n), Stored(n, Deduplicated))
      else if IsYoung(s, t[n], u, now) then
        if WithinQuota(s, t, owner, |u.payload| - t[n].storedChars) then
          (RefilledTable(t, owner, u, now, n), Stored(n, Coalesced))
        else
          (t, StorageQuotaExceeded)
      else
        Create(s, t, owner, u, now, newId, order)
    case None => Create(s, t, owner, u, now, newId, order)
  }

  ghost function Create(
      s: Settings, t: Table, owner: nat, u: Upload, now: int, newId: nat,
      order: seq<Option<string>>): (Table, Answer)
  {
    if u.kind == Manual && s.maxManual <= |KindIds(t, owner, Manual)| then (t, ManualLimitReached)
    else
      var after := Inserted(s, t, owner, u, now, newId, order);
      if WithinQuota(s, after, owner, 0) then (after, Stored(newId, Created))
      else (t, StorageQuotaExceeded)
  }

  datatype PromoteAnswer = Pinned | NotFound | PinLimitReached

  function Promote(s: Settings, t: Table, owner: nat, id: nat): (Table, PromoteAnswer) {
    if id !in OwnedIds(t, owner) then (t, NotFound)
    else if t[id].kind == Manual then (t, Pinned)
    else if s.maxManual <= |KindIds(t, owner, Manual)| then (t, PinLimitReached)
    else (t[id := t[id].(kind := Manual)], Pinned)
  }

  function Delete(t: Table, owner: nat, id: nat): (Table, bool) {
    if id in OwnedIds(t, owner) then (t - {id}, true) else (t, false)
  }

  // -- runs ----------------------------------------------------------------------

  datatype State = State(table: Table, clock: int)

  datatype Event =
    | Submission(owner: nat, upload: Upload, now: int, newId: nat, order: seq<Option<string>>)
    | Promotion(owner: nat, id: nat)
    | Deletion(owner: nat, id: nat)

  /** What the database and the clock promise: time does not run backwards, the staleness
      query is answered correctly, and a primary key is drawn above those in the table. */
  ghost predicate Possible(s: Settings, st: State, e: Event) {
    match e
    case Submission(owner, u, now, newId, order) =>
      && st.clock <= now
      && IsStalenessOrder(st.table, owner, order)
      && FreshId(s, st.table, owner, u, newId, order)
    case Promotion(_, _) => true
    case Deletion(_, _) => true
  }

  ghost function Step(s: Settings, st: State, e: Event): State {
    match e
    case Submission(owner, u, now, newId, order) =>
      State(Store(s, st.table, owner, u, now, newId, order).0, now)
    case Promotion(owner, id) => st.(table := Promote(s, st.table, owner, id).0)
    case Deletion(owner, id) => st.(table := Delete(st.table, owner, id).0)
  }

  ghost function Run(s: Settings, st: State, events: seq<Event>): State
    decreases |events|
  {
    if events == [] then st else Run(s, Step(s, st, events[0]), events[1..])
  }

  ghost predicate PossibleRun(s: Settings, st: State, events: seq<Event>)
    decreases |events|
  {
    events == [] ||
    (Possible(s, st, events[0]) && PossibleRun(s, Step(s, st, events[0]), events[1..]))
  }
}
