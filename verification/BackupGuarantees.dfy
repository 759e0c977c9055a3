/** What one upload promises: its content is held, refusals change nothing, pinned rows
    and other owners are untouched, and only the rows the rules name are given up. */
module BackupGuarantees {
  import opened Wrappers
  import opened Counting
  import opened BackupTable
  import opened BackupRetention
  import opened BackupInvariants

  // -- acknowledged uploads and refusals --------------------------------------------

  /** The new row has nothing above it, so it outlives its own eviction pass. */
  lemma NewRowSurvives(
      s: Settings, t: Table, owner: nat, u: Upload, now: int, newId: nat, order: seq<Option<string>>)
    requires s.Valid() && Sound(t, now) && FreshId(s, t, owner, u, newId, order)
    ensures var t' := Inserted(s, t, owner, u, now, newId, order);
      newId in t' && IsNewest(t', Bucket(t', owner, u.kind, u.device), newId)
  {
    var t' := Inserted(s, t, owner, u, now, newId, order);
    InsertedRows(s, t, owner, u, now, newId, order);
    if u.kind == Auto {
      var roomy := MakeRoomForDevice(s, t, owner, u.device, order);
      var added := AdoptDeviceName(roomy[newId := NewRow(owner, u, now)], owner, u.device, u.deviceName);
      assert Above(added, Bucket(added, owner, Auto, u.device), newId) == {};
    }
  }

  lemma StillNewest(t: Table, t': Table, owner: nat, kind: Kind, device: Option<string>, n: nat, now: int)
    requires Sound(t, now) && IsNewest(t, Bucket(t, owner, kind, device), n)
    requires t'.Keys == t.Keys
    requires SameContent(t[n], t'[n]) || SameContent(t[n].(payload := t'[n].payload, storedChars := t'[n].storedChars,
                                                          digest := t'[n].digest, createdAt := now), t'[n])
    requires forall id :: id in t && id != n ==> SameContent(t[id], t'[id])
    ensures IsNewest(t', Bucket(t', owner, kind, device), n)
  {
    assert Bucket(t', owner, kind, device) == Bucket(t, owner, kind, device);
  }

  /** The promise behind each of the four outcomes. */
  ghost predicate Holds(t: Table, t': Table, owner: nat, u: Upload, now: int, id: nat, outcome: StoreOutcome) {
    && id in t' && IsNewest(t', Bucket(t', owner, u.kind, u.device), id)
    && t'[id].digest == u.digest
    && match outcome
       case Created =>
         && t'[id].payload == u.payload && t'[id].createdAt == now
         && (id in t ==> GaveRoom(t[id], owner, u))
       case Coalesced => id in t && t'[id].payload == u.payload && t'[id].createdAt == now
       case Deduplicated => id in t && SameContent(t[id], t'[id])
       case Throttled => id in t && t' == t
  }

  lemma UpdatedInPlaceHolds(t: Table, owner: nat, u: Upload, now: int, n: nat)
    requires Sound(t, now) && IsNewest(t, Bucket(t, owner, u.kind, u.device), n)
    ensures t[n].digest == u.digest ==> Holds(t, KeptTable(t, owner, u, n), owner, u, now, n, Deduplicated)
    ensures Holds(t, RefilledTable(t, owner, u, now, n), owner, u, now, n, Coalesced)
  {
    KeptRows(t, owner, u, n);
    StillNewest(t, KeptTable(t, owner, u, n), owner, u.kind, u.device, n, now);
    RefilledRows(t, owner, u, now, n);
    StillNewest(t, RefilledTable(t, owner, u, now, n), owner, u.kind, u.device, n, now);
  }

  /** Whatever the outcome, an acknowledged upload is the newest content of its bucket;
      a refused one leaves the table as it was. */
  lemma AcknowledgedOrUnchanged(
      s: Settings, t: Table, owner: nat, u: Upload, now: int, newId: nat, order: seq<Option<string>>)
    requires s.Valid() && Sound(t, now) && FreshId(s, t, owner, u, newId, order)
    ensures var (t', answer) := Store(s, t, owner, u, now, newId, order);
      match answer
      case Stored(id, outcome) => Holds(t, t', owner, u, now, id, outcome)
      case ManualLimitReached => t' == t
      case StorageQuotaExceeded => t' == t
  {
    hide BackupRetention.Inserted;
    var (t', answer) := Store(s, t, owner, u, now, newId, order);
    if answer.Stored? {
      if answer.outcome == Created {
        NewRowSurvives(s, t, owner, u, now, newId, order);
        InsertedRows(s, t, owner, u, now, newId, order);
        KeyGaveRoom(s, t, owner, u, newId, order);
      } else {
        UpdatedInPlaceHolds(t, owner, u, now, answer.id);
      }
    }
  }

  /** The name and the label of upload `u` have reached the rows they are for. */
  ghost predicate Adopted(t': Table, owner: nat, u: Upload, id: nat) {
    && id in t'
    && (u.labelText.Some? ==> t'[id].labelText == u.labelText)
    && (u.device.Some? && u.deviceName.Some? ==>
          forall j :: j in t' && t'[j].owner == owner && t'[j].device == u.device ==> t'[j].deviceName == u.deviceName)
  }

  lemma InsertedAdopts(
      s: Settings, t: Table, owner: nat, u: Upload, now: int, newId: nat, order: seq<Option<string>>)
    requires newId in Inserted(s, t, owner, u, now, newId, order)
    ensures Adopted(Inserted(s, t, owner, u, now, newId, order), owner, u, newId)
  {
  }

  lemma InPlaceAdopts(t: Table, owner: nat, u: Upload, now: int, n: nat)
    requires n in t
    ensures Adopted(KeptTable(t, owner, u, n), owner, u, n)
    ensures Adopted(RefilledTable(t, owner, u, now, n), owner, u, n)
  {
  }

  /** An acknowledged name reaches every row of the device, and an acknowledged label the
      returned row; only the throttled path, a pure read, leaves a label behind. */
  lemma NameAndLabelAdopted(
      s: Settings, t: Table, owner: nat, u: Upload, now: int, newId: nat, order: seq<Option<string>>)
    requires s.Valid() && Sound(t, now) && FreshId(s, t, owner, u, newId, order)
    ensures var (t', answer) := Store(s, t, owner, u, now, newId, order);
      && (answer.Stored? && answer.outcome != Throttled ==> Adopted(t', owner, u, answer.id))
      && (answer.Stored? && answer.outcome == Throttled && u.deviceName.Some? ==>
            answer.id in t && t[answer.id].deviceName == u.deviceName)
  {
    hide BackupRetention.Inserted, BackupRetention.KeptTable, BackupRetention.RefilledTable, Adopted;
    var answer := Store(s, t, owner, u, now, newId, order).1;
    if answer.Stored? {
      if answer.outcome == Created {
        NewRowSurvives(s, t, owner, u, now, newId, order);
        InsertedAdopts(s, t, owner, u, now, newId, order);
      } else {
        InPlaceAdopts(t, owner, u, now, answer.id);
      }
    }
  }

  /** A manual upload is refused for the cap exactly when its content is not already the
      newest of its bucket and the owner has used every pin. */
  lemma ManualRefusal(
      s: Settings, t: Table, owner: nat, u: Upload, now: int, newId: nat, order: seq<Option<string>>)
    ensures Store(s, t, owner, u, now, newId, order).1 == ManualLimitReached
       <==> && u.kind == Manual
            && !(exists n :: IsNewest(t, Bucket(t, owner, Manual, u.device), n) && t[n].digest == u.digest)
            && s.maxManual <= |KindIds(t, owner, Manual)|
  {
    var bucket := Bucket(t, owner, u.kind, u.device);
    if bucket != {} {
      var n := Newest(t, bucket);
      forall m | IsNewest(t, bucket, m) ensures m == n {}
    }
  }

  // -- rows that change or go ----------------------------------------------------------

  /** The key of a row that gave room was drawn again for the new row. */
  predicate DrawnAgain(t: Table, owner: nat, u: Upload, id: nat, answer: Answer)
    requires id in t
  {
    answer == Stored(id, Created) && GaveRoom(t[id], owner, u)
  }

  /** Content is overwritten in place only by coalescing, only in the newest row of the
      uploader's bucket, and only while that content is younger than a coalesce period. */
  lemma SettledContentStays(
      s: Settings, t: Table, owner: nat, u: Upload, now: int, newId: nat, order: seq<Option<string>>, id: nat)
    requires FreshId(s, t, owner, u, newId, order) && id in t
    ensures var (t', answer) := Store(s, t, owner, u, now, newId, order);
      id in t' && !SameContent(t[id], t'[id]) && !DrawnAgain(t, owner, u, id, answer) ==>
        && answer == Stored(id, Coalesced)
        && u.kind == Auto
        && IsNewest(t, Bucket(t, owner, Auto, u.device), id)
        && now - t[id].createdAt < s.CoalesceSpan()
  {
    hide BackupRetention.Inserted, BackupRetention.KeptTable, BackupRetention.RefilledTable, FreshId, DrawnAgain;
    var (t', answer) := Store(s, t, owner, u, now, newId, order);
    if answer == Stored(newId, Created) {
      CreatedKeepsContent(s, t, owner, u, now, newId, order, id);
    } else if answer.Stored? {
      KeptRows(t, owner, u, answer.id);
      RefilledRows(t, owner, u, now, answer.id);
    }
  }

  lemma CreatedKeepsContent(
      s: Settings, t: Table, owner: nat, u: Upload, now: int, newId: nat, order: seq<Option<string>>, id: nat)
    requires FreshId(s, t, owner, u, newId, order) && id in t
    ensures var t' := Inserted(s, t, owner, u, now, newId, order);
      id in t' ==> SameContent(t[id], t'[id]) || DrawnAgain(t, owner, u, id, Stored(newId, Created))
  {
    KeyGaveRoom(s, t, owner, u, newId, order);
    hide BackupRetention.Inserted, FreshId, GaveRoom;
    InsertedRows(s, t, owner, u, now, newId, order);
  }

  lemma RowsThatGo(
      s: Settings, t: Table, owner: nat, u: Upload, now: int, newId: nat, order: seq<Option<string>>, id: nat)
    requires id in t && id != newId && id !in Inserted(s, t, owner, u, now, newId, order)
    ensures u.kind == Auto && t[id].kind == Auto && t[id].owner == owner
  {
  }

  lemma GivenUpKind(
      s: Settings, t: Table, owner: nat, u: Upload, now: int, newId: nat, order: seq<Option<string>>, id: nat)
    requires s.Valid() && Sound(t, now) && FreshId(s, t, owner, u, newId, order)
    requires id in t && (id !in Inserted(s, t, owner, u, now, newId, order) || id == newId)
    ensures u.kind == Auto && t[id].kind == Auto && t[id].owner == owner
    ensures id == newId ==> t[id].device != u.device
  {
    KeyGaveRoom(s, t, owner, u, newId, order);
    NewRowSurvives(s, t, owner, u, now, newId, order);
    hide BackupRetention.Inserted, FreshId;
    if id != newId {
      RowsThatGo(s, t, owner, u, now, newId, order, id);
    }
  }

  lemma OnlyCreationRemoves(
      s: Settings, t: Table, owner: nat, u: Upload, now: int, newId: nat, order: seq<Option<string>>, id: nat)
    requires var (t', answer) := Store(s, t, owner, u, now, newId, order);
      id in t && (id !in t' || answer == Stored(id, Created))
    ensures Store(s, t, owner, u, now, newId, order).1 == Stored(newId, Created)
    ensures id !in Inserted(s, t, owner, u, now, newId, order) || id == newId
  {
    hide BackupRetention.Inserted, Stale, Above, IsThrottled, IsYoung;
  }

  /** Which rows a store may remove. */
  lemma GivenUpRows(
      s: Settings, t: Table, owner: nat, u: Upload, now: int, newId: nat, order: seq<Option<string>>, id: nat)
    requires s.Valid() && Sound(t, now) && FreshId(s, t, owner, u, newId, order) && IsStalenessOrder(t, owner, order)
    requires var (t', answer) := Store(s, t, owner, u, now, newId, order);
      id in t && (id !in t' || answer == Stored(id, Created))
    ensures Store(s, t, owner, u, now, newId, order).1 == Stored(newId, Created)
    ensures u.kind == Auto && t[id].kind == Auto && t[id].owner == owner
    ensures t[id].device == u.device ==> EvictedForAge(s, t, Inserted(s, t, owner, u, now, newId, order), owner, id)
    ensures t[id].device != u.device ==>
      EvictedForRoom(s, t, Inserted(s, t, owner, u, now, newId, order), owner, u.device, id)
  {
    hide BackupRetention.Inserted, BackupRetention.Store, FreshId, EvictedForAge, EvictedForRoom, IsStalenessOrder;
    OnlyCreationRemoves(s, t, owner, u, now, newId, order, id);
    GivenUpKind(s, t, owner, u, now, newId, order, id);
    if t[id].device == u.device {
      OwnWindowEviction(s, t, owner, u, now, newId, order, id);
    } else {
      OtherWindowEviction(s, t, owner, u, now, newId, order, id);
    }
  }

  /** The window is full and everything left in it is at least as recent. */
  ghost predicate EvictedForAge(s: Settings, t: Table, t': Table, owner: nat, id: nat)
    requires id in t
  {
    && |Bucket(t', owner, Auto, t[id].device)| == s.maxAuto
    && forall j :: j in Bucket(t', owner, Auto, t[id].device) ==> t[id].createdAt <= t'[j].createdAt
  }

  /** `device` is new, the device cap was reached, the whole window of `id` went, and no
      window that stayed was staler. */
  ghost predicate EvictedForRoom(s: Settings, t: Table, t': Table, owner: nat, device: Option<string>, id: nat)
    requires id in t
  {
    && device !in Windows(t, owner)
    && s.maxDevices <= |Windows(t, owner)|
    && t[id].device !in Windows(t', owner)
    && forall d :: d in Windows(t', owner) && d != device ==>
         d in Windows(t, owner) && WindowTime(t, owner, t[id].device) <= WindowTime(t, owner, d)
  }

  lemma OwnWindowEviction(
      s: Settings, t: Table, owner: nat, u: Upload, now: int, newId: nat, order: seq<Option<string>>, id: nat)
    requires s.Valid() && Sound(t, now) && FreshId(s, t, owner, u, newId, order) && IsStalenessOrder(t, owner, order)
    requires u.kind == Auto && id in Bucket(t, owner, Auto, u.device)
    requires id !in Inserted(s, t, owner, u, now, newId, order)
    ensures EvictedForAge(s, t, Inserted(s, t, owner, u, now, newId, order), owner, id)
  {
    var t' := Inserted(s, t, owner, u, now, newId, order);
    assert u.device in Windows(t, owner);
    assert MakeRoomForDevice(s, t, owner, u.device, order) == t;
    var added := AdoptDeviceName(t[newId := NewRow(owner, u, now)], owner, u.device, u.deviceName);
    var bucket := Bucket(added, owner, Auto, u.device);
    var stale := Stale(added, bucket, s.maxAuto);
    assert id in stale;
    assert Bucket(t', owner, Auto, u.device) == bucket - stale;
    EvictionCount(added, bucket, s.maxAuto);
    forall j | j in bucket - stale ensures t[id].createdAt <= t'[j].createdAt {
      EvictionOrder(added, bucket, s.maxAuto, id, j);
    }
    if |bucket| <= s.maxAuto {
      SubsetCount(bucket - stale, bucket - {id});
      assert false;
    }
  }

  lemma OtherWindowEviction(
      s: Settings, t: Table, owner: nat, u: Upload, now: int, newId: nat, order: seq<Option<string>>, id: nat)
    requires s.Valid() && FreshId(s, t, owner, u, newId, order) && IsStalenessOrder(t, owner, order)
    requires u.kind == Auto && id in t && t[id].device != u.device
    requires id !in Inserted(s, t, owner, u, now, newId, order) || id == newId
    ensures t[id].owner == owner && t[id].kind == Auto
    ensures EvictedForRoom(s, t, Inserted(s, t, owner, u, now, newId, order), owner, u.device, id)
  {
    var t' := Inserted(s, t, owner, u, now, newId, order);
    var victims := Victims(s, u.device, order);
    var roomy := MakeRoomForDevice(s, t, owner, u.device, order);
    assert id in WindowIds(t, owner, victims);
    VictimsAreStalest(s, t, owner, u.device, order, t[id].device);
    RoomyWindows(t, owner, victims);
    InsertedRows(s, t, owner, u, now, newId, order);
    forall i | i in t' && t'[i].owner == owner && t'[i].kind == Auto && t'[i].device != u.device
      ensures t'[i].device in Windows(roomy, owner)
    {
      assert i in roomy && roomy[i].device == t'[i].device;
    }
  }

  lemma VictimsAreStalest(
      s: Settings, t: Table, owner: nat, device: Option<string>, order: seq<Option<string>>, victim: Option<string>)
    requires s.Valid() && IsStalenessOrder(t, owner, order) && victim in Victims(s, device, order)
    ensures device !in Windows(t, owner) && s.maxDevices <= |Windows(t, owner)|
    ensures forall d :: d in Windows(t, owner) && d !in Victims(s, device, order) ==>
              WindowTime(t, owner, victim) <= WindowTime(t, owner, d)
  {
    assert (set d | d in order) == Windows(t, owner);
    DistinctCount(order);
  }

  // -- pinned rows -------------------------------------------------------------------

  /** No store removes a pinned row or touches its content. */
  lemma PinnedRowsStay(
      s: Settings, t: Table, owner: nat, u: Upload, now: int, newId: nat, order: seq<Option<string>>, id: nat)
    requires FreshId(s, t, owner, u, newId, order) && id in t && t[id].kind == Manual
    ensures var t' := Store(s, t, owner, u, now, newId, order).0;
      id in t' && SameContent(t[id], t'[id])
  {
    var after := Inserted(s, t, owner, u, now, newId, order);
    if u.kind == Auto {
      var roomy := MakeRoomForDevice(s, t, owner, u.device, order);
      var added := AdoptDeviceName(roomy[newId := NewRow(owner, u, now)], owner, u.device, u.deviceName);
      assert id in roomy && id in added && added[id].kind == Manual;
    }
    assert id in after;
    hide BackupRetention.Inserted, BackupRetention.KeptTable, BackupRetention.RefilledTable;
    InsertedRows(s, t, owner, u, now, newId, order);
    SettledContentStays(s, t, owner, u, now, newId, order, id);
  }

  /** A pinned row outlives every run that does not delete it by id. */
  lemma {:induction false} PinnedRowsOutliveRuns(s: Settings, st: State, events: seq<Event>, id: nat)
    requires PossibleRun(s, st, events)
    requires id in st.table && st.table[id].kind == Manual
    requires Deletion(st.table[id].owner, id) !in events
    ensures id in Run(s, st, events).table && SameContent(st.table[id], Run(s, st, events).table[id])
    decreases |events|
  {
    if events != [] {
      var e, st' := events[0], Step(s, st, events[0]);
      if e.Submission? {
        PinnedRowsStay(s, st.table, e.owner, e.upload, e.now, e.newId, e.order, id);
      }
      assert id in st'.table && SameContent(st.table[id], st'.table[id]);
      PinnedRowsOutliveRuns(s, st', events[1..], id);
    }
  }

  // -- what a window covers ------------------------------------------------------------

  lemma OneMorePeriod(n: int, period: int)
    ensures (n + 1) * period == n * period + period
  {
  }

  /** n snapshots of one window reach back at least n - 1 coalesce periods. */
  lemma {:induction false} WindowSpan(
      s: Settings, t: Table, owner: nat, ids: set<nat>, device: Option<string>, first: nat, last: nat)
    requires Spaced(s, t, owner) && ids <= Bucket(t, owner, Auto, device)
    requires IsOldest(t, ids, first) && IsNewest(t, ids, last)
    ensures (|ids| - 1) * s.CoalesceSpan() <= t[last].createdAt - t[first].createdAt
    decreases |ids|
  {
    if first == last {
      assert ids == {first};
    } else {
      var rest := ids - {first};
      assert last in rest;
      OldestExists(t, rest);
      var second :| IsOldest(t, rest, second);
      assert SameWindow(t, owner, first, second);
      WindowSpan(s, t, owner, rest, device, second, last);
      OneMorePeriod(|rest| - 1, s.CoalesceSpan());
    }
  }
}
