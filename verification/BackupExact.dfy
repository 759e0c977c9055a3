/** What the operations on the snapshot table do, row by row: each outcome's condition, every
    row afterwards, how many rows go, and what pinning and deleting mean for later runs. */
module BackupExact {
  import opened Wrappers
  import opened Counting
  import opened BackupTable
  import opened BackupRetention
  import opened BackupInvariants
  import opened BackupGuarantees

  // -- making room ---------------------------------------------------------------------------

  function Elements(q: seq<Option<string>>): set<Option<string>> {
    set d | d in q
  }

  lemma WindowsLeft(t: Table, owner: nat, gone: seq<Option<string>>)
    ensures Windows(t - WindowIds(t, owner, gone), owner) == Windows(t, owner) - Elements(gone)
  {
    RoomyWindows(t, owner, gone);
    var roomy := t - WindowIds(t, owner, gone);
    forall d | d in Windows(t, owner) && d !in gone ensures d in Windows(roomy, owner) {
      var id :| id in t && t[id].owner == owner && t[id].kind == Auto && t[id].device == d;
      assert id in roomy && roomy[id].device == d;
    }
  }

  lemma VictimsNumber(s: Settings, device: Option<string>, order: seq<Option<string>>)
    requires s.Valid()
    ensures Victims(s, device, order) ==
      if device !in order && s.maxDevices <= |order| then order[..|order| - s.maxDevices + 1] else []
  {
  }

  lemma RoomCounted(s: Settings, t: Table, owner: nat, device: Option<string>, order: seq<Option<string>>)
    requires s.Valid() && IsStalenessOrder(t, owner, order) && device !in order && 1 <= s.maxDevices <= |order|
    ensures |Windows(MakeRoomForDevice(s, t, owner, device, order), owner)| == s.maxDevices - 1
  {
    hide *;
    OrderIsWindows(t, owner, order);
    RoomyWindowsAre(s, t, owner, device, order);
    VictimsNumber(s, device, order);
    WindowsWithout(Windows(t, owner), order, |order| - s.maxDevices + 1);
  }

  lemma RoomyWindowsAre(s: Settings, t: Table, owner: nat, device: Option<string>, order: seq<Option<string>>)
    ensures Windows(MakeRoomForDevice(s, t, owner, device, order), owner)
         == Windows(t, owner) - Elements(Victims(s, device, order))
  {
    WindowsLeft(t, owner, Victims(s, device, order));
  }

  lemma NoRoomNeeded(s: Settings, t: Table, owner: nat, device: Option<string>, order: seq<Option<string>>)
    requires s.Valid() && (device in order || |order| < s.maxDevices)
    ensures MakeRoomForDevice(s, t, owner, device, order) == t
  {
    assert WindowIds(t, owner, []) == {};
  }

  lemma OrderIsWindows(t: Table, owner: nat, order: seq<Option<string>>)
    requires IsStalenessOrder(t, owner, order)
    ensures |Windows(t, owner)| == |order|
    ensures forall i, j :: 0 <= i < j < |order| ==> order[i] != order[j]
    ensures forall d :: d in Windows(t, owner) <==> d in order
  {
    assert (set d | d in order) == Windows(t, owner);
    DistinctCount(order);
  }

  lemma WindowsWithout(windows: set<Option<string>>, order: seq<Option<string>>, n: nat)
    requires n <= |order| && forall i, j :: 0 <= i < j < |order| ==> order[i] != order[j]
    requires forall d :: d in windows <==> d in order
    ensures |windows - Elements(order[..n])| == |order| - n
  {
    PrefixCount(order, n);
    assert windows == set d | d in order;
  }

  lemma RoomyRows(t: Table, owner: nat, gone: seq<Option<string>>, id: nat)
    requires id in t
    ensures var roomy := t - WindowIds(t, owner, gone);
      if id in roomy then roomy[id] == t[id]
      else t[id].owner == owner && t[id].kind == Auto && t[id].device !in Windows(roomy, owner)
  {
    WindowsLeft(t, owner, gone);
    hide Windows;
  }

  /** Room is made only for a device without a window when the cap is reached, and then one
      window fewer than the cap is left; the windows that stay are whole, and so are all rows
      of other owners and all pinned rows. */
  lemma RoomIsExact(s: Settings, t: Table, owner: nat, device: Option<string>, order: seq<Option<string>>)
    requires s.Valid() && IsStalenessOrder(t, owner, order)
    ensures var roomy := MakeRoomForDevice(s, t, owner, device, order);
      && (if device !in Windows(t, owner) && s.maxDevices <= |Windows(t, owner)| then
            |Windows(roomy, owner)| == s.maxDevices - 1
          else roomy == t)
      && Windows(roomy, owner) <= Windows(t, owner)
      && forall id :: id in t ==>
           if id in roomy then roomy[id] == t[id]
           else t[id].owner == owner && t[id].kind == Auto && t[id].device !in Windows(roomy, owner)
  {
    OrderIsWindows(t, owner, order);
    if device !in order && s.maxDevices <= |order| {
      RoomCounted(s, t, owner, device, order);
    } else {
      NoRoomNeeded(s, t, owner, device, order);
    }
    WindowsLeft(t, owner, Victims(s, device, order));
    var roomy := MakeRoomForDevice(s, t, owner, device, order);
    assert Windows(roomy, owner) <= Windows(t, owner);
    hide Windows, Victims;
    forall id | id in t
      ensures if id in roomy then roomy[id] == t[id]
        else t[id].owner == owner && t[id].kind == Auto && t[id].device !in Windows(roomy, owner)
    {
      RoomyRows(t, owner, Victims(s, device, order), id);
    }
  }

  // -- a created row -------------------------------------------------------------------------

  /** The name an upload gives to a row, if it has one for it. */
  function NameFor(row: Row, owner: nat, u: Upload): Option<string> {
    if u.device.Some? && u.deviceName.Some? && row.owner == owner && row.device == u.device then u.deviceName
    else row.deviceName
  }

  lemma InsertedKeys(
      s: Settings, t: Table, owner: nat, u: Upload, now: int, newId: nat, order: seq<Option<string>>)
    ensures var roomy := Roomy(s, t, owner, u, order);
      var added := AdoptDeviceName(roomy[newId := NewRow(owner, u, now)], owner, u.device, u.deviceName);
      var t' := Inserted(s, t, owner, u, now, newId, order);
      && added.Keys == roomy.Keys + {newId}
      && (forall id :: id in t' ==> id in added && t'[id] == added[id])
      && (u.kind == Manual ==> t' == added)
      && (u.kind == Auto ==> forall id :: id in added && id !in t' ==>
            id in Stale(added, Bucket(added, owner, Auto, u.device), s.maxAuto))
  {
    hide Roomy, NewRow;
  }

  /** The rows after a created upload: the new one with all it was given, and of the old ones
      those that stay, as they were but for the new name of the device. */
  lemma CreatedRows(
      s: Settings, t: Table, owner: nat, u: Upload, now: int, newId: nat, order: seq<Option<string>>, id: nat)
    requires id in Inserted(s, t, owner, u, now, newId, order)
    ensures var row := Inserted(s, t, owner, u, now, newId, order)[id];
      if id == newId then
        row == Row(owner, u.kind, u.labelText, u.device, u.deviceName, u.appVersion, u.platform, u.schemaVersion,
                   u.payload, |u.payload|, u.digest, now)
      else id in t && row == t[id].(deviceName := NameFor(t[id], owner, u))
  {
    InsertedKeys(s, t, owner, u, now, newId, order);
    hide BackupRetention.Inserted, Stale, Victims;
  }

  /** The table with the new row, before its eviction pass. */
  function Added(
      s: Settings, t: Table, owner: nat, u: Upload, now: int, newId: nat, order: seq<Option<string>>): Table
  {
    AdoptDeviceName(Roomy(s, t, owner, u, order)[newId := NewRow(owner, u, now)], owner, u.device, u.deviceName)
  }

  lemma AddedBuckets(
      s: Settings, t: Table, owner: nat, u: Upload, now: int, newId: nat, order: seq<Option<string>>)
    requires FreshId(s, t, owner, u, newId, order) && u.kind == Auto
    ensures var roomy, added := Roomy(s, t, owner, u, order), Added(s, t, owner, u, now, newId, order);
      && newId !in roomy && added.Keys == roomy.Keys + {newId}
      && Bucket(added, owner, Auto, u.device) == Bucket(roomy, owner, Auto, u.device) + {newId}
      && (forall d :: d != u.device ==> Bucket(added, owner, Auto, d) == Bucket(roomy, owner, Auto, d))
  {
    assert newId !in Roomy(s, t, owner, u, order);
    hide Roomy;
  }

  lemma InsertedIs(
      s: Settings, t: Table, owner: nat, u: Upload, now: int, newId: nat, order: seq<Option<string>>)
    requires u.kind == Auto
    ensures var added := Added(s, t, owner, u, now, newId, order);
      Inserted(s, t, owner, u, now, newId, order)
      == added - Stale(added, Bucket(added, owner, Auto, u.device), s.maxAuto)
  {
    hide AdoptDeviceName, Roomy, Stale, Bucket, NewRow;
  }

  lemma BucketsWithout(t: Table, owner: nat, device: Option<string>, gone: set<nat>)
    requires gone <= Bucket(t, owner, Auto, device)
    ensures Bucket(t - gone, owner, Auto, device) == Bucket(t, owner, Auto, device) - gone
    ensures forall d :: d != device ==> Bucket(t - gone, owner, Auto, d) == Bucket(t, owner, Auto, d)
  {
  }

  /** The buckets after an insertion: the uploader's own loses its eldest past the cap, all the
      others are what making room left. */
  lemma BucketsAfter(
      s: Settings, t: Table, owner: nat, u: Upload, now: int, newId: nat, order: seq<Option<string>>)
    requires s.Valid() && FreshId(s, t, owner, u, newId, order) && u.kind == Auto
    ensures var roomy, t' := Roomy(s, t, owner, u, order), Inserted(s, t, owner, u, now, newId, order);
      && |Bucket(t', owner, Auto, u.device)|
         == (if |Bucket(roomy, owner, Auto, u.device)| < s.maxAuto then |Bucket(roomy, owner, Auto, u.device)| + 1
             else s.maxAuto)
      && (forall d :: d != u.device ==> Bucket(t', owner, Auto, d) == Bucket(roomy, owner, Auto, d))
  {
    var roomy, added := Roomy(s, t, owner, u, order), Added(s, t, owner, u, now, newId, order);
    var bucket := Bucket(added, owner, Auto, u.device);
    assert Stale(added, bucket, s.maxAuto) <= bucket;
    assert newId !in Bucket(roomy, owner, Auto, u.device) by {
      AddedBuckets(s, t, owner, u, now, newId, order);
    }
    assert 1 <= s.maxAuto;
    hide *;
    AddedBuckets(s, t, owner, u, now, newId, order);
    InsertedIs(s, t, owner, u, now, newId, order);
    EvictionCount(added, bucket, s.maxAuto);
    BucketsWithout(added, owner, u.device, Stale(added, bucket, s.maxAuto));
  }

  lemma WindowMeans(t: Table, owner: nat, d: Option<string>)
    ensures d in Windows(t, owner) <==> Bucket(t, owner, Auto, d) != {}
  {
    if d in Windows(t, owner) {
      var id :| id in t && t[id].owner == owner && t[id].kind == Auto && t[id].device == d;
      assert id in Bucket(t, owner, Auto, d);
    }
    if Bucket(t, owner, Auto, d) != {} {
      var id :| id in Bucket(t, owner, Auto, d);
    }
  }

  /** What making room leaves of each window: all of it or nothing. */
  lemma RoomyBuckets(s: Settings, t: Table, owner: nat, device: Option<string>, order: seq<Option<string>>)
    requires s.Valid() && IsStalenessOrder(t, owner, order)
    ensures var roomy := MakeRoomForDevice(s, t, owner, device, order);
      && (forall d :: d in Windows(roomy, owner) ==> Bucket(roomy, owner, Auto, d) == Bucket(t, owner, Auto, d))
      && Bucket(roomy, owner, Auto, device) == Bucket(t, owner, Auto, device)
  {
    var roomy := MakeRoomForDevice(s, t, owner, device, order);
    RoomIsExact(s, t, owner, device, order);
    assert roomy.Keys <= t.Keys;
    hide MakeRoomForDevice, Windows, IsStalenessOrder;
    forall d | d in Windows(roomy, owner) ensures Bucket(roomy, owner, Auto, d) == Bucket(t, owner, Auto, d) {
    }
    WindowMeans(t, owner, device);
    WindowMeans(roomy, owner, device);
    if device !in Windows(t, owner) {
      assert Bucket(roomy, owner, Auto, device) == {};
    }
  }

  predicate Whole(t: Table, t': Table, owner: nat, d: Option<string>) {
    Bucket(t', owner, Auto, d) == Bucket(t, owner, Auto, d)
  }

  /** How many windows the owner has after an auto upload that was created. */
  ghost function WindowsAfter(s: Settings, t: Table, owner: nat, device: Option<string>): nat {
    var n := |Windows(t, owner)|;
    if device in Windows(t, owner) then n else if n < s.maxDevices then n + 1 else s.maxDevices
  }

  lemma WindowsOf(t: Table, t': Table, owner: nat, device: Option<string>)
    requires Bucket(t', owner, Auto, device) != {}
    requires forall d :: d != device ==> Bucket(t', owner, Auto, d) == Bucket(t, owner, Auto, d)
    ensures Windows(t', owner) == Windows(t, owner) + {device}
  {
    forall d ensures d in Windows(t', owner) <==> d in Windows(t, owner) + {device} {
      WindowMeans(t, owner, d);
      WindowMeans(t', owner, d);
    }
  }

  /** An auto upload that created a row gives up no more than it must: the owner has one window
      more, or as many as the cap if it was reached; every other window that is left is whole;
      and the device's own window is one row longer, or as long as its cap. */
  lemma CreatedLeaves(
      s: Settings, t: Table, owner: nat, u: Upload, now: int, newId: nat, order: seq<Option<string>>)
    requires s.Valid() && FreshId(s, t, owner, u, newId, order) && IsStalenessOrder(t, owner, order)
    requires u.kind == Auto && Store(s, t, owner, u, now, newId, order).1 == Stored(newId, Created)
    ensures var t' := Store(s, t, owner, u, now, newId, order).0;
      && |Windows(t', owner)| == WindowsAfter(s, t, owner, u.device)
      && u.device in Windows(t', owner) && Windows(t', owner) <= Windows(t, owner) + {u.device}
      && (forall d :: d in Windows(t', owner) && d != u.device ==> Whole(t, t', owner, d))
      && |Bucket(t', owner, Auto, u.device)|
         == (if |Bucket(t, owner, Auto, u.device)| < s.maxAuto then |Bucket(t, owner, Auto, u.device)| + 1
             else s.maxAuto)
  {
    var t' := Store(s, t, owner, u, now, newId, order).0;
    assert t' == Inserted(s, t, owner, u, now, newId, order) by {
      CreatedIsInserted(s, t, owner, u, now, newId, order);
    }
    var roomy := MakeRoomForDevice(s, t, owner, u.device, order);
    assert roomy == Roomy(s, t, owner, u, order);
    assert 1 <= s.maxAuto && 1 <= s.maxDevices;
    hide *;
    BucketsAfter(s, t, owner, u, now, newId, order);
    RoomyBuckets(s, t, owner, u.device, order);
    RoomIsExact(s, t, owner, u.device, order);
    WindowsOf(roomy, t', owner, u.device);
    RoomyWithDevice(s, t, owner, u.device, order);
    forall d | d in Windows(t', owner) && d != u.device ensures Whole(t, t', owner, d) {
      assert d in Windows(roomy, owner);
      WholeThrough(t, roomy, t', owner, d);
    }
  }

  lemma WholeThrough(t: Table, roomy: Table, t': Table, owner: nat, d: Option<string>)
    requires Bucket(roomy, owner, Auto, d) == Bucket(t, owner, Auto, d)
    requires Bucket(t', owner, Auto, d) == Bucket(roomy, owner, Auto, d)
    ensures Whole(t, t', owner, d)
  {
  }

  lemma RoomyWithDevice(s: Settings, t: Table, owner: nat, device: Option<string>, order: seq<Option<string>>)
    requires s.Valid() && IsStalenessOrder(t, owner, order)
    ensures var roomy := MakeRoomForDevice(s, t, owner, device, order);
      |Windows(roomy, owner) + {device}| == WindowsAfter(s, t, owner, device)
  {
    var roomy := MakeRoomForDevice(s, t, owner, device, order);
    RoomIsExact(s, t, owner, device, order);
    hide MakeRoomForDevice, IsStalenessOrder, Windows;
    if device in Windows(roomy, owner) {
      assert Windows(roomy, owner) + {device} == Windows(roomy, owner);
    }
  }

  lemma CreatedIsInserted(
      s: Settings, t: Table, owner: nat, u: Upload, now: int, newId: nat, order: seq<Option<string>>)
    requires Store(s, t, owner, u, now, newId, order).1 == Stored(newId, Created)
    ensures Store(s, t, owner, u, now, newId, order).0 == Inserted(s, t, owner, u, now, newId, order)
  {
    hide BackupRetention.Inserted, IsThrottled, IsYoung, WithinQuota;
  }

  // -- which outcome, and every row after it -----------------------------------------------------

  /** The content is the newest of its bucket already. */
  ghost predicate Unchanged(t: Table, owner: nat, u: Upload) {
    exists n :: IsNewest(t, Bucket(t, owner, u.kind, u.device), n) && t[n].digest == u.digest
  }

  /** The bucket's newest row is younger than this many microseconds. */
  ghost predicate NewestYoungerThan(t: Table, owner: nat, u: Upload, now: int, span: int) {
    exists n :: IsNewest(t, Bucket(t, owner, u.kind, u.device), n) && now - t[n].createdAt < span
  }

  /** The newest row carries the upload's name already, or the upload has none. */
  ghost predicate NothingToName(t: Table, owner: nat, u: Upload) {
    u.deviceName.None? ||
    exists n :: IsNewest(t, Bucket(t, owner, u.kind, u.device), n) && t[n].deviceName == u.deviceName
  }

  lemma NewestIsUnique(t: Table, ids: set<nat>, m: nat, n: nat)
    requires ids <= t.Keys && IsNewest(t, ids, m) && IsNewest(t, ids, n)
    ensures m == n
  {
  }

  /** Which way an upload goes, in minutes, seconds and characters. */
  lemma OutcomeIs(
      s: Settings, t: Table, owner: nat, u: Upload, now: int, newId: nat, order: seq<Option<string>>)
    requires Sound(t, now)
    ensures var answer := Store(s, t, owner, u, now, newId, order).1;
      var throttled := u.kind == Auto && Unchanged(t, owner, u) && NothingToName(t, owner, u)
        && NewestYoungerThan(t, owner, u, now, s.minIntervalSeconds * 1_000_000);
      var refilled := u.kind == Auto && !Unchanged(t, owner, u)
        && NewestYoungerThan(t, owner, u, now, s.coalesceMinutes * 60_000_000);
      && ((answer.Stored? && answer.outcome == Throttled) <==> throttled)
      && ((answer.Stored? && answer.outcome == Deduplicated) <==> Unchanged(t, owner, u) && !throttled)
      && (answer.Stored? && answer.outcome == Coalesced ==> refilled)
      && (answer.Stored? && answer.outcome == Created ==> !Unchanged(t, owner, u) && !refilled)
      && (answer == ManualLimitReached ==> u.kind == Manual)
  {
    hide BackupRetention.Inserted, WithinQuota, KeptTable, RefilledTable;
    var bucket := Bucket(t, owner, u.kind, u.device);
    if bucket != {} {
      var n := Newest(t, bucket);
      forall m | IsNewest(t, bucket, m) ensures m == n {
        NewestIsUnique(t, bucket, m, n);
      }
    }
  }

  /** Refilling a row leaves its owner this many characters. */
  ghost predicate RefillFits(s: Settings, t: Table, owner: nat, u: Upload) {
    var bucket := Bucket(t, owner, u.kind, u.device);
    bucket != {} && Chars(t, OwnedIds(t, owner) - {Newest(t, bucket)}) + |u.payload| <= s.maxChars
  }

  /** An upload is refused for its size exactly if what it would leave exceeds the quota: the
      rows but for the one it would refill, with its own payload, or the rows after its own
      evictions. */
  lemma QuotaRefusalIff(
      s: Settings, t: Table, owner: nat, u: Upload, now: int, newId: nat, order: seq<Option<string>>)
    requires Sound(t, now)
    ensures var answer := Store(s, t, owner, u, now, newId, order).1;
      var refilled := u.kind == Auto && !Unchanged(t, owner, u)
        && NewestYoungerThan(t, owner, u, now, s.coalesceMinutes * 60_000_000);
      var after := Inserted(s, t, owner, u, now, newId, order);
      answer == StorageQuotaExceeded <==>
        && (refilled ==> !RefillFits(s, t, owner, u))
        && (!refilled ==>
              && !Unchanged(t, owner, u)
              && (u.kind == Manual ==> |KindIds(t, owner, Manual)| < s.maxManual)
              && s.maxChars < Chars(after, OwnedIds(after, owner)))
  {
    hide BackupRetention.Inserted, KeptTable, RefilledTable;
    var bucket := Bucket(t, owner, u.kind, u.device);
    if bucket != {} {
      var n := Newest(t, bucket);
      forall m | IsNewest(t, bucket, m) ensures m == n {
        NewestIsUnique(t, bucket, m, n);
      }
      CharsPick(t, OwnedIds(t, owner), n);
    }
  }

  /** Every row after an upload that was not created: the returned one is refilled, relabelled
      or as it was, and the others are as they were, but for the new name of the device. */
  lemma RowsInPlace(
      s: Settings, t: Table, owner: nat, u: Upload, now: int, newId: nat, order: seq<Option<string>>, id: nat)
    requires id in t
    requires var answer := Store(s, t, owner, u, now, newId, order).1; !(answer.Stored? && answer.outcome == Created)
    ensures var (t', answer) := Store(s, t, owner, u, now, newId, order);
      var labelText := if u.labelText.Some? then u.labelText else t[id].labelText;
      && t'.Keys == t.Keys
      && t'[id] ==
           if answer == Stored(id, Deduplicated) then
             t[id].(deviceName := NameFor(t[id], owner, u), labelText := labelText)
           else if answer == Stored(id, Coalesced) then
             t[id].(payload := u.payload, storedChars := |u.payload|, digest := u.digest, createdAt := now,
                    deviceName := if u.deviceName.Some? then u.deviceName else t[id].deviceName,
                    appVersion := u.appVersion, platform := u.platform, schemaVersion := u.schemaVersion,
                    labelText := labelText)
           else if answer.Stored? && answer.outcome != Throttled then
             t[id].(deviceName := NameFor(t[id], owner, u))
           else t[id]
  {
    hide BackupRetention.Inserted, IsThrottled, IsYoung, WithinQuota;
  }

  // -- pinning and deleting --------------------------------------------------------------------------

  predicate Owns(t: Table, owner: nat, id: nat) {
    id in t && t[id].owner == owner
  }

  /** A row is pinned if it is the caller's and it is pinned already or a pin is free; then it is
      manual and otherwise as it was. Nothing else ever changes. */
  lemma PromoteMeans(s: Settings, t: Table, owner: nat, id: nat)
    ensures var (t', answer) := Promote(s, t, owner, id);
      && (answer == NotFound <==> !Owns(t, owner, id))
      && (answer == Pinned <==>
            && Owns(t, owner, id)
            && (t[id].kind == Manual || |set i | i in t && t[i].owner == owner && t[i].kind == Manual| < s.maxManual))
      && t' == if answer == Pinned then t[id := t[id].(kind := Manual)] else t
  {
    assert KindIds(t, owner, Manual) == set i | i in t && t[i].owner == owner && t[i].kind == Manual;
  }

  /** A row pinned in a run outlives the rest of it, with its content, unless it is deleted. */
  lemma PromotedRowsOutliveRuns(s: Settings, st: State, owner: nat, id: nat, events: seq<Event>)
    requires Owns(st.table, owner, id)
    requires st.table[id].kind == Manual || |KindIds(st.table, owner, Manual)| < s.maxManual
    requires PossibleRun(s, Step(s, st, Promotion(owner, id)), events) && Deletion(owner, id) !in events
    ensures var u := Run(s, Step(s, st, Promotion(owner, id)), events);
      && Owns(u.table, owner, id) && u.table[id].kind == Manual
      && SameContent(st.table[id].(kind := Manual), u.table[id])
  {
    PromoteMeans(s, st.table, owner, id);
    PinnedRowsOutliveRuns(s, Step(s, st, Promotion(owner, id)), events, id);
    hide Promote, Run;
  }

  lemma DeleteMeans(t: Table, owner: nat, id: nat)
    ensures var (t', deleted) := Delete(t, owner, id);
      && (deleted <==> Owns(t, owner, id))
      && t' == if deleted then t - {id} else t
  {
  }

  /** Only a created upload brings a key into the table. */
  lemma OnlyCreationAdds(s: Settings, st: State, e: Event, id: nat)
    requires id !in st.table && (e.Submission? ==> e.newId != id)
    ensures id !in Step(s, st, e).table
  {
    if e.Submission? {
      var t, owner, u := st.table, e.owner, e.upload;
      var (t', answer) := Store(s, t, owner, u, e.now, e.newId, e.order);
      StoreKeys(s, t, owner, u, e.now, e.newId, e.order);
      InsertedRows(s, t, owner, u, e.now, e.newId, e.order);
      hide BackupRetention.Store, BackupRetention.Inserted;
    }
  }

  lemma StoreKeys(
      s: Settings, t: Table, owner: nat, u: Upload, now: int, newId: nat, order: seq<Option<string>>)
    ensures var t' := Store(s, t, owner, u, now, newId, order).0;
      t'.Keys == t.Keys || t' == Inserted(s, t, owner, u, now, newId, order)
  {
    hide BackupRetention.Inserted, IsThrottled, IsYoung, WithinQuota;
  }

  /** A row deleted in a run is gone, and its key with it until an upload draws it again. */
  lemma DeletedRowsAreGone(s: Settings, st: State, owner: nat, id: nat, events: seq<Event>)
    requires Owns(st.table, owner, id)
    requires PossibleRun(s, Step(s, st, Deletion(owner, id)), events)
    requires forall e :: e in events && e.Submission? ==> e.newId != id
    ensures id !in Run(s, Step(s, st, Deletion(owner, id)), events).table
  {
    DeleteMeans(st.table, owner, id);
    AbsentStays(s, Step(s, st, Deletion(owner, id)), events, id);
  }

  lemma {:induction false} AbsentStays(s: Settings, st: State, events: seq<Event>, id: nat)
    requires id !in st.table && PossibleRun(s, st, events)
    requires forall e :: e in events && e.Submission? ==> e.newId != id
    ensures id !in Run(s, st, events).table
    decreases |events|
  {
    if events != [] {
      OnlyCreationAdds(s, st, events[0], id);
      hide Step, Possible;
      AbsentStays(s, Step(s, st, events[0]), events[1..], id);
    }
  }

  /** What the windows are ordered by: the date of their newest row. */
  lemma StalenessMeans(t: Table, owner: nat, device: Option<string>)
    requires device in Windows(t, owner)
    ensures var rows := set id | id in t && t[id].owner == owner && t[id].kind == Auto && t[id].device == device;
      && (exists id :: id in rows && t[id].createdAt == WindowTime(t, owner, device))
      && forall id :: id in rows ==> t[id].createdAt <= WindowTime(t, owner, device)
  {
    WindowMeans(t, owner, device);
    var rows := set id | id in t && t[id].owner == owner && t[id].kind == Auto && t[id].device == device;
    assert rows == Bucket(t, owner, Auto, device);
    var n := Newest(t, Bucket(t, owner, Auto, device));
    assert t[n].createdAt == WindowTime(t, owner, device);
  }
}
