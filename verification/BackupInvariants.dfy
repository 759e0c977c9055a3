/** What every run of uploads, promotions and deletions keeps. */
module BackupInvariants {
  import opened Wrappers
  import opened Counting
  import opened BackupTable
  import opened BackupRetention

  // -- the invariant ---------------------------------------------------------------

  ghost predicate AutoCapsHold(s: Settings, t: Table, owner: nat) {
    && (forall d :: |Bucket(t, owner, Auto, d)| <= s.maxAuto)
    && |Windows(t, owner)| <= s.maxDevices
  }

  ghost predicate CapsHold(s: Settings, t: Table, owner: nat) {
    && AutoCapsHold(s, t, owner)
    && |KindIds(t, owner, Manual)| <= s.maxManual
    && Chars(t, OwnedIds(t, owner)) <= s.maxChars
  }

  /** Two auto rows of one device are at least a coalesce period apart. */
  ghost predicate Spaced(s: Settings, t: Table, owner: nat) {
    forall i, j :: i in t && j in t && i != j && SameWindow(t, owner, i, j)
      && t[i].createdAt <= t[j].createdAt
      ==> s.CoalesceSpan() <= t[j].createdAt - t[i].createdAt
  }

  predicate SameWindow(t: Table, owner: nat, i: nat, j: nat)
    requires i in t && j in t
  {
    && t[i].owner == owner == t[j].owner
    && t[i].kind == Auto == t[j].kind
    && t[i].device == t[j].device
  }

  ghost predicate Sound(t: Table, clock: int) {
    forall id :: id in t ==> t[id].storedChars == |t[id].payload| && t[id].createdAt <= clock
  }

  ghost predicate Invariant(s: Settings, st: State) {
    && Sound(st.table, st.clock)
    && forall owner: nat :: CapsHold(s, st.table, owner) && Spaced(s, st.table, owner)
  }

  // -- removing, renaming and relabelling keep it -----------------------------------

  /** Equal in everything the caps, the quota and the spacing depend on. */
  predicate SameWeight(r: Row, r': Row) {
    && r'.owner == r.owner && r'.kind == r.kind && r'.device == r.device
    && r'.storedChars == r.storedChars && r'.createdAt == r.createdAt
  }

  ghost predicate NoHeavier(t: Table, t': Table, owner: nat) {
    forall id :: id in OwnedIds(t', owner) ==> id in t && SameWeight(t[id], t'[id])
  }

  /** Every auto row of the owner in `t'` was an auto row of the same window in `t`. */
  ghost predicate AutoRowsFrom(t: Table, t': Table, owner: nat) {
    forall id :: id in KindIds(t', owner, Auto) ==>
      id in KindIds(t, owner, Auto) && t[id].device == t'[id].device
  }

  lemma AutoCapsShrink(s: Settings, t: Table, t': Table, owner: nat)
    requires AutoRowsFrom(t, t', owner) && AutoCapsHold(s, t, owner)
    ensures AutoCapsHold(s, t', owner)
  {
    forall d ensures |Bucket(t', owner, Auto, d)| <= s.maxAuto {
      forall id | id in Bucket(t', owner, Auto, d) ensures id in Bucket(t, owner, Auto, d) {
        assert id in KindIds(t', owner, Auto);
      }
      SubsetCount(Bucket(t', owner, Auto, d), Bucket(t, owner, Auto, d));
    }
    WindowsShrink(t, t', owner);
    SubsetCount(Windows(t', owner), Windows(t, owner));
  }

  lemma WindowsShrink(t: Table, t': Table, owner: nat)
    requires AutoRowsFrom(t, t', owner)
    ensures Windows(t', owner) <= Windows(t, owner)
  {
    forall id | id in KindIds(t', owner, Auto) ensures t'[id].device in Windows(t, owner) {
      assert t[id].device == t'[id].device;
    }
  }

  lemma SpacedShrink(s: Settings, t: Table, t': Table, owner: nat)
    requires AutoRowsFrom(t, t', owner) && Spaced(s, t, owner)
    requires forall id :: id in KindIds(t', owner, Auto) ==> id in t && t'[id].createdAt == t[id].createdAt
    ensures Spaced(s, t', owner)
  {
    forall i, j | i in t' && j in t' && i != j && SameWindow(t', owner, i, j)
        && t'[i].createdAt <= t'[j].createdAt
      ensures s.CoalesceSpan() <= t'[j].createdAt - t'[i].createdAt
    {
      assert i in KindIds(t', owner, Auto) && j in KindIds(t', owner, Auto);
      assert SameWindow(t, owner, i, j);
    }
  }

  lemma NoHeavierKeeps(s: Settings, t: Table, t': Table, owner: nat)
    requires NoHeavier(t, t', owner)
    requires CapsHold(s, t, owner) && Spaced(s, t, owner)
    ensures CapsHold(s, t', owner) && Spaced(s, t', owner)
  {
    forall id | id in KindIds(t', owner, Auto)
      ensures id in KindIds(t, owner, Auto) && SameWeight(t[id], t'[id])
    {
      assert id in OwnedIds(t', owner);
    }
    AutoCapsShrink(s, t, t', owner);
    SpacedShrink(s, t, t', owner);
    forall id | id in KindIds(t', owner, Manual) ensures id in KindIds(t, owner, Manual) {
      assert id in OwnedIds(t', owner);
    }
    SubsetCount(KindIds(t', owner, Manual), KindIds(t, owner, Manual));
    var ids := OwnedIds(t', owner);
    assert ids <= OwnedIds(t, owner);
    CharsCongruence(t, t', ids);
    CharsMonotone(t, ids, OwnedIds(t, owner));
  }

  // -- eviction --------------------------------------------------------------------

  lemma OldestGoesFirst(t: Table, bucket: set<nat>, keep: nat, last: nat)
    requires bucket <= t.Keys && IsOldest(t, bucket, last) && keep < |bucket|
    ensures bucket - Stale(t, bucket, keep) == bucket - {last} - Stale(t, bucket - {last}, keep)
  {
    var rest := bucket - {last};
    assert Above(t, bucket, last) == rest;
    forall id | id in rest ensures Above(t, bucket, id) == Above(t, rest, id) {
      assert last !in Above(t, bucket, id);
    }
  }

  /** An eviction leaves exactly the newest `keep` rows of the bucket. */
  lemma {:induction false} EvictionCount(t: Table, bucket: set<nat>, keep: nat)
    requires bucket <= t.Keys
    ensures |bucket - Stale(t, bucket, keep)| == if |bucket| <= keep then |bucket| else keep
    decreases |bucket|
  {
    if bucket != {} {
      OldestExists(t, bucket);
      var last :| IsOldest(t, bucket, last);
      if |bucket| <= keep {
        forall id | id in bucket ensures id !in Stale(t, bucket, keep) {
          assert id !in Above(t, bucket, id);
          SubsetCount(Above(t, bucket, id), bucket - {id});
        }
        assert bucket - Stale(t, bucket, keep) == bucket;
      } else {
        OldestGoesFirst(t, bucket, keep, last);
        hide Stale, Above;
        EvictionCount(t, bucket - {last}, keep);
      }
    }
  }

  /** Every row that stays is newer than every row that goes. */
  lemma EvictionOrder(t: Table, bucket: set<nat>, keep: nat, gone: nat, kept: nat)
    requires bucket <= t.Keys
    requires gone in Stale(t, bucket, keep) && kept in bucket - Stale(t, bucket, keep)
    ensures Newer(t, kept, gone)
  {
    if !Newer(t, kept, gone) {
      assert Above(t, bucket, gone) <= Above(t, bucket, kept);
      SubsetCount(Above(t, bucket, gone), Above(t, bucket, kept));
      assert false;
    }
  }

  // -- making room -----------------------------------------------------------------

  lemma RoomyWindows(t: Table, owner: nat, victims: seq<Option<string>>)
    ensures Windows(t - WindowIds(t, owner, victims), owner) <= Windows(t, owner) - set d | d in victims
  {
    var roomy := t - WindowIds(t, owner, victims);
    forall id | id in roomy && roomy[id].owner == owner && roomy[id].kind == Auto
      ensures roomy[id].device in Windows(t, owner) && roomy[id].device !in victims
    {
      assert id in t && id !in WindowIds(t, owner, victims);
    }
  }

  lemma PrefixCount<T>(q: seq<T>, n: nat)
    requires n <= |q| && forall i, j :: 0 <= i < j < |q| ==> q[i] != q[j]
    ensures |(set x | x in q) - (set x | x in q[..n])| == |q| - n
  {
    DistinctCount(q);
    DistinctCount(q[..n]);
    assert (set x | x in q[..n]) <= (set x | x in q);
  }

  lemma RoomCount(s: Settings, device: Option<string>, order: seq<Option<string>>, left: set<Option<string>>)
    requires s.Valid()
    requires forall i, j :: 0 <= i < j < |order| ==> order[i] != order[j]
    requires left <= (set d | d in order) - (set d | d in Victims(s, device, order))
    ensures |left + {device}| <= if device in order then |order| else s.maxDevices
  {
    var windows := set d | d in order;
    DistinctCount(order);
    if device in order {
      SubsetCount(left + {device}, windows);
    } else {
      var victims := Victims(s, device, order);
      PrefixCount(order, |victims|);
      SubsetCount(left, windows - set d | d in victims);
    }
  }

  /** After making room, a window for `device` fits under the cap whatever was stored before. */
  lemma RoomMade(s: Settings, t: Table, owner: nat, device: Option<string>, order: seq<Option<string>>)
    requires s.Valid() && IsStalenessOrder(t, owner, order)
    ensures |Windows(MakeRoomForDevice(s, t, owner, device, order), owner) + {device}|
         <= if device in Windows(t, owner) then |Windows(t, owner)| else s.maxDevices
  {
    RoomyWindows(t, owner, Victims(s, device, order));
    assert (set d | d in order) == Windows(t, owner);
    DistinctCount(order);
    RoomCount(s, device, order, Windows(MakeRoomForDevice(s, t, owner, device, order), owner));
  }

  // -- a new row -------------------------------------------------------------------

  /** Equal but for the name of the device. */
  predicate Renamed(r: Row, r': Row) {
    r' == r.(deviceName := r'.deviceName)
  }

  predicate SameContent(r: Row, r': Row) {
    && r'.payload == r.payload && r'.digest == r.digest && r'.createdAt == r.createdAt
    && r'.storedChars == r.storedChars && r'.owner == r.owner && r'.kind == r.kind
    && r'.device == r.device
  }

  lemma KeptRows(t: Table, owner: nat, u: Upload, n: nat)
    requires n in t
    ensures var t' := KeptTable(t, owner, u, n);
      t'.Keys == t.Keys && forall id :: id in t ==> SameContent(t[id], t'[id])
  {
  }

  lemma RefilledRows(t: Table, owner: nat, u: Upload, now: int, n: nat)
    requires n in t
    ensures var t' := RefilledTable(t, owner, u, now, n);
      && t'.Keys == t.Keys
      && SameContent(Merged(t[n], u, now), t'[n])
      && forall id :: id in t && id != n ==> SameContent(t[id], t'[id])
  {
  }

  lemma InsertedRows(
      s: Settings, t: Table, owner: nat, u: Upload, now: int, newId: nat, order: seq<Option<string>>)
    ensures var t' := Inserted(s, t, owner, u, now, newId, order);
            forall id :: id in t' ==>
              if id == newId then Renamed(NewRow(owner, u, now), t'[id])
              else id in t && Renamed(t[id], t'[id])
  {
  }

  lemma InsertedWindowCap(
      s: Settings, t: Table, owner: nat, u: Upload, now: int, newId: nat, order: seq<Option<string>>)
    requires u.kind == Auto
    ensures |Bucket(Inserted(s, t, owner, u, now, newId, order), owner, Auto, u.device)| <= s.maxAuto
  {
    var roomy := MakeRoomForDevice(s, t, owner, u.device, order);
    var added := AdoptDeviceName(roomy[newId := NewRow(owner, u, now)], owner, u.device, u.deviceName);
    var bucket := Bucket(added, owner, Auto, u.device);
    hide AdoptDeviceName, MakeRoomForDevice;
    assert Bucket(Inserted(s, t, owner, u, now, newId, order), owner, Auto, u.device)
        == bucket - Stale(added, bucket, s.maxAuto);
    EvictionCount(added, bucket, s.maxAuto);
  }

  lemma InsertedDeviceCap(
      s: Settings, t: Table, owner: nat, u: Upload, now: int, newId: nat, order: seq<Option<string>>)
    requires s.Valid() && u.kind == Auto && IsStalenessOrder(t, owner, order)
    ensures |Windows(Inserted(s, t, owner, u, now, newId, order), owner)|
         <= if u.device in Windows(t, owner) then |Windows(t, owner)| else s.maxDevices
  {
    var roomy := MakeRoomForDevice(s, t, owner, u.device, order);
    var t' := Inserted(s, t, owner, u, now, newId, order);
    forall id | id in t' && t'[id].owner == owner && t'[id].kind == Auto
      ensures t'[id].device in Windows(roomy, owner) + {u.device}
    {
      InsertedRow(s, t, owner, u, now, newId, order, id);
    }
    hide BackupRetention.Inserted;
    SubsetCount(Windows(t', owner), Windows(roomy, owner) + {u.device});
    RoomMade(s, t, owner, u.device, order);
  }

  /** An auto row after the insertion: the new one, or one that was left after making room. */
  lemma InsertedRow(
      s: Settings, t: Table, owner: nat, u: Upload, now: int, newId: nat, order: seq<Option<string>>, id: nat)
    requires u.kind == Auto && id in Inserted(s, t, owner, u, now, newId, order)
    ensures var t' := Inserted(s, t, owner, u, now, newId, order);
      var roomy := MakeRoomForDevice(s, t, owner, u.device, order);
      if id == newId then Renamed(NewRow(owner, u, now), t'[id]) else id in roomy && Renamed(roomy[id], t'[id])
  {
    hide MakeRoomForDevice;
  }

  lemma InsertKeepsCaps(
      s: Settings, t: Table, owner: nat, u: Upload, now: int, newId: nat, order: seq<Option<string>>)
    requires s.Valid() && FreshId(s, t, owner, u, newId, order) && IsStalenessOrder(t, owner, order)
    requires CapsHold(s, t, owner)
    requires u.kind == Manual ==> |KindIds(t, owner, Manual)| < s.maxManual
    requires WithinQuota(s, Inserted(s, t, owner, u, now, newId, order), owner, 0)
    ensures CapsHold(s, Inserted(s, t, owner, u, now, newId, order), owner)
  {
    var t' := Inserted(s, t, owner, u, now, newId, order);
    hide BackupRetention.Inserted;
    InsertedRows(s, t, owner, u, now, newId, order);
    if u.kind == Auto {
      InsertedWindowCap(s, t, owner, u, now, newId, order);
      InsertedDeviceCap(s, t, owner, u, now, newId, order);
      forall d | d != u.device ensures |Bucket(t', owner, Auto, d)| <= s.maxAuto {
        SubsetCount(Bucket(t', owner, Auto, d), Bucket(t, owner, Auto, d));
      }
      SubsetCount(KindIds(t', owner, Manual), KindIds(t, owner, Manual));
    } else {
      AutoCapsShrink(s, t, t', owner);
      SubsetCount(KindIds(t', owner, Manual), KindIds(t, owner, Manual) + {newId});
    }
  }

  lemma InsertKeepsSpacing(
      s: Settings, t: Table, owner: nat, u: Upload, now: int, newId: nat, order: seq<Option<string>>)
    requires FreshId(s, t, owner, u, newId, order) && Sound(t, now) && Spaced(s, t, owner)
    requires u.kind == Auto ==>
      forall i :: i in Bucket(t, owner, Auto, u.device) ==> s.CoalesceSpan() <= now - t[i].createdAt
    ensures Spaced(s, Inserted(s, t, owner, u, now, newId, order), owner)
  {
    var t' := Inserted(s, t, owner, u, now, newId, order);
    InsertedRows(s, t, owner, u, now, newId, order);
    forall i, j | i in t' && j in t' && i != j && SameWindow(t', owner, i, j)
        && t'[i].createdAt <= t'[j].createdAt
      ensures s.CoalesceSpan() <= t'[j].createdAt - t'[i].createdAt
    {
      if j == newId {
        assert i in Bucket(t, owner, Auto, u.device);
      } else if i == newId {
        assert j in Bucket(t, owner, Auto, u.device);
      } else {
        assert SameWindow(t, owner, i, j);
      }
    }
  }

  lemma CoalesceKeepsSpacing(s: Settings, t: Table, t': Table, owner: nat, device: Option<string>, now: int, n: nat)
    requires t'.Keys == t.Keys && Sound(t, now) && Spaced(s, t, owner)
    requires IsNewest(t, Bucket(t, owner, Auto, device), n)
    requires AutoRowsFrom(t, t', owner) && t'[n].createdAt == now
    requires forall id :: id in t && id != n ==> t'[id].createdAt == t[id].createdAt
    ensures Spaced(s, t', owner)
  {
    forall i, j | i in t' && j in t' && i != j && SameWindow(t', owner, i, j)
        && t'[i].createdAt <= t'[j].createdAt
      ensures s.CoalesceSpan() <= t'[j].createdAt - t'[i].createdAt
    {
      assert i in KindIds(t', owner, Auto) && j in KindIds(t', owner, Auto);
      assert SameWindow(t, owner, i, j);
      assert i == n ==> j in Bucket(t, owner, Auto, device);
      assert j == n ==> i in Bucket(t, owner, Auto, device);
    }
  }

  /** `t'` is `t` with row `n` refilled at `now`; labels and names may differ anywhere. */
  ghost predicate Refilled(t: Table, t': Table, n: nat, now: int) {
    && t'.Keys == t.Keys
    && n in t && SameWeight(t[n].(storedChars := t'[n].storedChars, createdAt := now), t'[n])
    && forall id :: id in t && id != n ==> SameWeight(t[id], t'[id])
  }

  lemma CoalesceKeeps(s: Settings, t: Table, t': Table, owner: nat, device: Option<string>, now: int, n: nat)
    requires Sound(t, now) && CapsHold(s, t, owner) && Spaced(s, t, owner)
    requires IsNewest(t, Bucket(t, owner, Auto, device), n)
    requires Refilled(t, t', n, now)
    requires WithinQuota(s, t, owner, t'[n].storedChars - t[n].storedChars)
    ensures CapsHold(s, t', owner) && Spaced(s, t', owner)
  {
    var ids := OwnedIds(t, owner);
    assert OwnedIds(t', owner) == ids;
    CharsPick(t, ids, n);
    CharsPick(t', ids, n);
    CharsCongruence(t, t', ids - {n});
    assert KindIds(t', owner, Manual) == KindIds(t, owner, Manual);
    AutoCapsShrink(s, t, t', owner);
    CoalesceKeepsSpacing(s, t, t', owner, device, now, n);
  }

  // -- one step, and every run -------------------------------------------------------

  lemma CreateKeepsOwner(
      s: Settings, t: Table, owner: nat, u: Upload, now: int, newId: nat, order: seq<Option<string>>)
    requires s.Valid() && Sound(t, now) && FreshId(s, t, owner, u, newId, order) && IsStalenessOrder(t, owner, order)
    requires CapsHold(s, t, owner) && Spaced(s, t, owner)
    requires u.kind == Auto ==>
      forall i :: i in Bucket(t, owner, Auto, u.device) ==> s.CoalesceSpan() <= now - t[i].createdAt
    ensures var t' := Create(s, t, owner, u, now, newId, order).0;
            CapsHold(s, t', owner) && Spaced(s, t', owner)
  {
    if Create(s, t, owner, u, now, newId, order).1 == Stored(newId, Created) {
      InsertKeepsCaps(s, t, owner, u, now, newId, order);
      InsertKeepsSpacing(s, t, owner, u, now, newId, order);
    }
  }

  lemma StoreKeepsOwner(
      s: Settings, t: Table, owner: nat, u: Upload, now: int, newId: nat, order: seq<Option<string>>)
    requires s.Valid() && Sound(t, now) && FreshId(s, t, owner, u, newId, order) && IsStalenessOrder(t, owner, order)
    requires CapsHold(s, t, owner) && Spaced(s, t, owner)
    ensures var t' := Store(s, t, owner, u, now, newId, order).0;
            CapsHold(s, t', owner) && Spaced(s, t', owner)
  {
    hide BackupRetention.Inserted, BackupRetention.KeptTable, BackupRetention.RefilledTable;
    var (t', answer) := Store(s, t, owner, u, now, newId, order);
    var bucket := Bucket(t, owner, u.kind, u.device);
    if bucket == {} {
      CreateKeepsOwner(s, t, owner, u, now, newId, order);
    } else {
      var n := Newest(t, bucket);
      KeptRows(t, owner, u, n);
      RefilledRows(t, owner, u, now, n);
      if t[n].digest == u.digest {
        NoHeavierKeeps(s, t, t', owner);
      } else if IsYoung(s, t[n], u, now) {
        if answer != StorageQuotaExceeded {
          CoalesceKeeps(s, t, t', owner, u.device, now, n);
        }
      } else {
        CreateKeepsOwner(s, t, owner, u, now, newId, order);
      }
    }
  }

  /** The row under `id`, as far as owner `o` has one. */
  function RowFor(t: Table, o: nat, id: nat): Option<Row> {
    if id in t && t[id].owner == o then Some(t[id]) else None
  }

  ghost predicate SameFor(t: Table, t': Table, o: nat) {
    forall id :: RowFor(t', o, id) == RowFor(t, o, id)
  }

  lemma AdoptIsolates(t: Table, owner: nat, device: Option<string>, name: Option<string>, other: nat)
    requires other != owner
    ensures SameFor(t, AdoptDeviceName(t, owner, device, name), other)
  {
  }

  lemma KeyGaveRoom(s: Settings, t: Table, owner: nat, u: Upload, newId: nat, order: seq<Option<string>>)
    requires FreshId(s, t, owner, u, newId, order)
    ensures newId in t ==> GaveRoom(t[newId], owner, u)
  {
    assert newId !in Roomy(s, t, owner, u, order);
    assert u.device !in Victims(s, u.device, order);
  }

  lemma InsertedIsolates(
      s: Settings, t: Table, owner: nat, u: Upload, now: int, newId: nat, order: seq<Option<string>>, other: nat)
    requires FreshId(s, t, owner, u, newId, order) && other != owner
    ensures SameFor(t, Inserted(s, t, owner, u, now, newId, order), other)
  {
    KeyGaveRoom(s, t, owner, u, newId, order);
    var roomy := Roomy(s, t, owner, u, order);
    var put := roomy[newId := NewRow(owner, u, now)];
    AdoptIsolates(put, owner, u.device, u.deviceName, other);
    hide BackupRetention.AdoptDeviceName;
  }

  lemma StoreIsolatesOwners(
      s: Settings, t: Table, owner: nat, u: Upload, now: int, newId: nat, order: seq<Option<string>>, other: nat)
    requires FreshId(s, t, owner, u, newId, order) && other != owner
    ensures SameFor(t, Store(s, t, owner, u, now, newId, order).0, other)
  {
    InsertedIsolates(s, t, owner, u, now, newId, order, other);
    hide BackupRetention.Inserted;
    var bucket := Bucket(t, owner, u.kind, u.device);
    if bucket != {} {
      var n := Newest(t, bucket);
      AdoptIsolates(t[n := Relabelled(t[n], u)], owner, u.device, u.deviceName, other);
      AdoptIsolates(t[n := Merged(t[n], u, now)], owner, u.device, u.deviceName, other);
    }
    hide BackupRetention.AdoptDeviceName;
  }

  lemma SameForKeeps(s: Settings, t: Table, t': Table, o: nat)
    requires SameFor(t, t', o) && CapsHold(s, t, o) && Spaced(s, t, o)
    ensures CapsHold(s, t', o) && Spaced(s, t', o)
  {
    forall id | id in OwnedIds(t', o) ensures id in t && SameWeight(t[id], t'[id]) {
      assert RowFor(t', o, id) == RowFor(t, o, id);
    }
    NoHeavierKeeps(s, t, t', o);
  }

  /** Caps, quota and spacing survive every possible step. */
  lemma StepKeepsInvariant(s: Settings, st: State, e: Event)
    requires s.Valid() && Invariant(s, st) && Possible(s, st, e)
    ensures Invariant(s, Step(s, st, e))
  {
    var t, st' := st.table, Step(s, st, e);
    var t' := st'.table;
    forall o: nat ensures CapsHold(s, t', o) && Spaced(s, t', o) {
      match e
      case Submission(owner, u, now, newId, order) =>
        if o == owner {
          StoreKeepsOwner(s, t, owner, u, now, newId, order);
        } else {
          StoreIsolatesOwners(s, t, owner, u, now, newId, order, o);
          SameForKeeps(s, t, t', o);
        }
      case Promotion(owner, id) => PromoteKeeps(s, t, owner, id, o);
      case Deletion(owner, id) =>
        NoHeavierKeeps(s, t, t', o);
    }
    StepKeepsSound(s, st, e);
  }

  lemma StepKeepsSound(s: Settings, st: State, e: Event)
    requires Sound(st.table, st.clock) && Possible(s, st, e)
    ensures Sound(Step(s, st, e).table, Step(s, st, e).clock)
  {
    hide BackupRetention.Inserted, BackupRetention.KeptTable, BackupRetention.RefilledTable;
    if e.Submission? {
      var answer := Store(s, st.table, e.owner, e.upload, e.now, e.newId, e.order).1;
      InsertedRows(s, st.table, e.owner, e.upload, e.now, e.newId, e.order);
      if answer.Stored? && answer.outcome != Created {
        KeptRows(st.table, e.owner, e.upload, answer.id);
        RefilledRows(st.table, e.owner, e.upload, e.now, answer.id);
      }
    }
  }

  lemma PinningKeeps(s: Settings, t: Table, id: nat)
    requires id in t && t[id].kind == Auto && |KindIds(t, t[id].owner, Manual)| < s.maxManual
    requires CapsHold(s, t, t[id].owner) && Spaced(s, t, t[id].owner)
    ensures var t' := t[id := t[id].(kind := Manual)];
            CapsHold(s, t', t[id].owner) && Spaced(s, t', t[id].owner)
  {
    var t', o := t[id := t[id].(kind := Manual)], t[id].owner;
    AutoCapsShrink(s, t, t', o);
    SpacedShrink(s, t, t', o);
    assert KindIds(t', o, Manual) == KindIds(t, o, Manual) + {id};
    assert OwnedIds(t', o) == OwnedIds(t, o);
    CharsCongruence(t, t', OwnedIds(t, o));
  }

  lemma PromoteKeeps(s: Settings, t: Table, owner: nat, id: nat, o: nat)
    requires CapsHold(s, t, o) && Spaced(s, t, o)
    ensures var t' := Promote(s, t, owner, id).0; CapsHold(s, t', o) && Spaced(s, t', o)
  {
    var t' := Promote(s, t, owner, id).0;
    if t' != t && o == owner {
      PinningKeeps(s, t, id);
    } else {
      NoHeavierKeeps(s, t, t', o);
    }
  }

  lemma {:induction false} RunKeepsInvariant(s: Settings, st: State, events: seq<Event>)
    requires s.Valid() && Invariant(s, st) && PossibleRun(s, st, events)
    ensures Invariant(s, Run(s, st, events))
    decreases |events|
  {
    if events != [] {
      StepKeepsInvariant(s, st, events[0]);
      RunKeepsInvariant(s, Step(s, st, events[0]), events[1..]);
    }
  }
}
