/** The store itself: a table that each request reads and changes in place. A request
    holds the owner's row lock from start to commit, so each method is one step. */
module BackupStore {
  import opened Wrappers
  import opened BackupTable
  import R = BackupRetention

  lemma {:induction false} StalestExists(t: Table, owner: nat, devices: set<Option<string>>)
    requires devices != {}
    ensures exists d :: d in devices
              && forall e :: e in devices ==> R.WindowTime(t, owner, d) <= R.WindowTime(t, owner, e)
    decreases |devices|
  {
    var x :| x in devices;
    if devices - {x} != {} {
      StalestExists(t, owner, devices - {x});
      var d :| d in devices - {x}
        && forall e :: e in devices - {x} ==> R.WindowTime(t, owner, d) <= R.WindowTime(t, owner, e);
      var best := if R.WindowTime(t, owner, x) <= R.WindowTime(t, owner, d) then x else d;
      assert forall e :: e in devices ==> R.WindowTime(t, owner, best) <= R.WindowTime(t, owner, e);
    } else {
      assert devices == {x};
    }
  }

  ghost predicate SortedWindows(t: Table, owner: nat, q: seq<Option<string>>, devices: set<Option<string>>) {
    && (forall i, j :: 0 <= i < j < |q| ==> q[i] != q[j])
    && (forall d :: d in q <==> d in devices)
    && (forall i, j :: 0 <= i < j < |q| ==> R.WindowTime(t, owner, q[i]) <= R.WindowTime(t, owner, q[j]))
  }

  lemma {:induction false} SortedWindowsExist(t: Table, owner: nat, devices: set<Option<string>>)
    returns (q: seq<Option<string>>)
    ensures SortedWindows(t, owner, q, devices)
    decreases |devices|
  {
    if devices == {} {
      q := [];
    } else {
      StalestExists(t, owner, devices);
      var d :| d in devices
        && forall e :: e in devices ==> R.WindowTime(t, owner, d) <= R.WindowTime(t, owner, e);
      var rest := SortedWindowsExist(t, owner, devices - {d});
      q := [d] + rest;
      forall i | 0 <= i < |rest| ensures rest[i] in devices - {d} {}
    }
  }

  /** `best` is the newest of `seen`, if anything has been seen. */
  ghost predicate NewestSoFar(t: Table, seen: set<nat>, best: Option<nat>) {
    seen <= t.Keys && match best case None => seen == {} case Some(m) => IsNewest(t, seen, m)
  }

  lemma NewestOfTwo(t: Table, seen: set<nat>, best: Option<nat>, id: nat)
    requires NewestSoFar(t, seen, best) && id in t
    ensures NewestSoFar(t, seen + {id}, if best.None? || Newer(t, id, best.value) then Some(id) else best)
  {
  }

  lemma NewestSoFarIsNewest(t: Table, ids: set<nat>, best: Option<nat>)
    requires NewestSoFar(t, ids, best)
    ensures best == NewestIn(t, ids)
  {
  }

  lemma OneWindowLess(t: Table, owner: nat, devices: seq<Option<string>>, i: nat)
    requires i < |devices|
    ensures var dead := R.WindowIds(t, owner, devices[..i]);
            var bucket := Bucket(t - dead, owner, Auto, devices[i]);
      bucket !! dead && R.WindowIds(t, owner, devices[..i + 1]) == dead + bucket
  {
    assert devices[..i + 1] == devices[..i] + [devices[i]];
  }

  class Store {
    const settings: R.Settings
    var rows: Table

    constructor (settings: R.Settings)
      ensures this.settings == settings && rows == map[]
    {
      this.settings := settings;
      rows := map[];
    }

    method NewestForKindAndDevice(owner: nat, kind: Kind, device: Option<string>) returns (r: Option<nat>)
      ensures r == NewestIn(rows, Bucket(rows, owner, kind, device))
    {
      var todo := Bucket(rows, owner, kind, device);
      ghost var bucket, seen: set<nat> := todo, {};
      r := None;
      while todo != {}
        invariant seen + todo == bucket <= rows.Keys
        invariant NewestSoFar(rows, seen, r)
        decreases |todo|
      {
        var id :| id in todo;
        NewestOfTwo(rows, seen, r, id);
        if r.None? || Newer(rows, id, r.value) {
          r := Some(id);
        }
        seen, todo := seen + {id}, todo - {id};
      }
      assert seen == bucket;
      NewestSoFarIsNewest(rows, bucket, r);
    }

    method TotalStoredChars(owner: nat) returns (total: nat)
      ensures total == Chars(rows, OwnedIds(rows, owner))
    {
      var todo := OwnedIds(rows, owner);
      total := 0;
      while todo != {}
        invariant todo <= OwnedIds(rows, owner)
        invariant total + Chars(rows, todo) == Chars(rows, OwnedIds(rows, owner))
        decreases |todo|
      {
        var id :| id in todo;
        CharsPick(rows, todo, id);
        total := total + rows[id].storedChars;
        todo := todo - {id};
      }
    }

    /** The windows of an owner, the one whose newest row is oldest first. */
    method AutoWindowsByStaleness(owner: nat) returns (order: seq<Option<string>>)
      ensures R.IsStalenessOrder(rows, owner, order)
    {
      var todo := Windows(rows, owner);
      order := [];
      while todo != {}
        invariant todo <= Windows(rows, owner)
        invariant SortedWindows(rows, owner, order, Windows(rows, owner) - todo)
        invariant forall d, e :: d in order && e in todo ==>
                    R.WindowTime(rows, owner, d) <= R.WindowTime(rows, owner, e)
        decreases |todo|
      {
        var d := Stalest(owner, todo);
        order := order + [d];
        todo := todo - {d};
      }
    }

    method Stalest(owner: nat, devices: set<Option<string>>) returns (best: Option<string>)
      requires devices != {} && devices <= Windows(rows, owner)
      ensures best in devices
      ensures forall e :: e in devices ==> R.WindowTime(rows, owner, best) <= R.WindowTime(rows, owner, e)
    {
      best :| best in devices;
      var bestTime := WindowTime(owner, best);
      var todo := devices - {best};
      while todo != {}
        invariant best in devices && todo <= devices
        invariant bestTime == R.WindowTime(rows, owner, best)
        invariant forall e :: e in devices - todo ==> bestTime <= R.WindowTime(rows, owner, e)
        decreases |todo|
      {
        var d :| d in todo;
        var time := WindowTime(owner, d);
        if time < bestTime {
          best, bestTime := d, time;
        }
        todo := todo - {d};
      }
    }

    method WindowTime(owner: nat, device: Option<string>) returns (time: int)
      requires device in Windows(rows, owner)
      ensures time == R.WindowTime(rows, owner, device)
    {
      var newest := NewestForKindAndDevice(owner, Auto, device);
      ghost var id :| id in rows && rows[id].owner == owner && rows[id].kind == Auto && rows[id].device == device;
      assert id in Bucket(rows, owner, Auto, device);
      time := rows[newest.value].createdAt;
    }

    method AdoptDeviceName(owner: nat, device: Option<string>, name: Option<string>)
      modifies this
      ensures rows == R.AdoptDeviceName(old(rows), owner, device, name)
    {
      if device.None? || name.None? {
        return;
      }
      var renamed := set id | id in rows && rows[id].owner == owner && rows[id].device == device
                              && rows[id].deviceName != name;
      rows := map id | id in rows :: if id in renamed then rows[id].(deviceName := name) else rows[id];
    }

    method EvictOldestAuto(owner: nat, device: Option<string>)
      modifies this
      ensures rows == R.EvictOldestAuto(settings, old(rows), owner, device)
    {
      var staleIds := R.Stale(rows, Bucket(rows, owner, Auto, device), settings.maxAuto);
      rows := rows - staleIds;
    }

    method MakeRoomForDevice(owner: nat, device: Option<string>)
      returns (ghost order: seq<Option<string>>)
      modifies this
      ensures R.IsStalenessOrder(old(rows), owner, order)
      ensures rows == R.MakeRoomForDevice(settings, old(rows), owner, device, order)
    {
      var windows := AutoWindowsByStaleness(owner);
      order := windows;
      var excess := |windows| - settings.maxDevices + 1;
      assert rows == rows - R.WindowIds(rows, owner, []);
      if device in windows || excess <= 0 {
        return;
      }
      var upTo := if excess <= |windows| then excess else |windows|;
      for i := 0 to upTo
        invariant rows == old(rows) - R.WindowIds(old(rows), owner, windows[..i])
      {
        var bucket := Bucket(rows, owner, Auto, windows[i]);
        OneWindowLess(old(rows), owner, windows, i);
        rows := rows - bucket;
      }
    }

    method CheckQuota(owner: nat, delta: int) returns (ok: bool)
      ensures ok == R.WithinQuota(settings, rows, owner, delta)
    {
      var total := TotalStoredChars(owner);
      ok := total + delta <= settings.maxChars;
    }

    method StoreBackup(owner: nat, u: R.Upload, now: int, newId: nat)
      returns (answer: R.Answer, ghost order: seq<Option<string>>)
      modifies this
      ensures R.IsStalenessOrder(old(rows), owner, order)
      ensures (rows, answer) == R.Store(settings, old(rows), owner, u, now, newId, order)
    {
      order := SortedWindowsExist(rows, owner, Windows(rows, owner));
      var newest := NewestForKindAndDevice(owner, u.kind, u.device);
      if newest.Some? {
        var n := newest.value;
        var age := now - rows[n].createdAt;
        var sameContent := rows[n].digest == u.digest;
        if u.kind == Auto && sameContent && (u.deviceName.None? || rows[n].deviceName == u.deviceName) {
          if age < settings.MinInterval() {
            return R.Stored(n, R.Throttled), order;
          }
        }
        if sameContent {
          if u.labelText.Some? {
            rows := rows[n := rows[n].(labelText := u.labelText)];
          }
          AdoptDeviceName(owner, u.device, u.deviceName);
          assert rows == R.KeptTable(old(rows), owner, u, n);
          return R.Stored(n, R.Deduplicated), order;
        }
        var coalesce := settings.CoalesceSpan();
        if u.kind == Auto && coalesce > 0 && age < coalesce {
          var fits := CheckQuota(owner, |u.payload| - rows[n].storedChars);
          if !fits {
            return R.StorageQuotaExceeded, order;
          }
          var row := rows[n].(payload := u.payload, storedChars := |u.payload|, digest := u.digest, createdAt := now);
          if u.deviceName.Some? {
            row := row.(deviceName := u.deviceName);
          }
          row := row.(appVersion := u.appVersion, platform := u.platform, schemaVersion := u.schemaVersion);
          if u.labelText.Some? {
            row := row.(labelText := u.labelText);
          }
          rows := rows[n := row];
          AdoptDeviceName(owner, u.device, u.deviceName);
          return R.Stored(n, R.Coalesced), order;
        }
      }
      answer, order := CreateBackup(owner, u, now, newId);
    }

    method CreateBackup(owner: nat, u: R.Upload, now: int, newId: nat)
      returns (answer: R.Answer, ghost order: seq<Option<string>>)
      modifies this
      ensures R.IsStalenessOrder(old(rows), owner, order)
      ensures (rows, answer) == R.Create(settings, old(rows), owner, u, now, newId, order)
    {
      order := SortedWindowsExist(rows, owner, Windows(rows, owner));
      if u.kind == Manual && |KindIds(rows, owner, Manual)| >= settings.maxManual {
        return R.ManualLimitReached, order;
      }
      var saved := rows;
      if u.kind == Auto {
        order := MakeRoomForDevice(owner, u.device);
      }
      rows := rows[newId := R.NewRow(owner, u, now)];
      AdoptDeviceName(owner, u.device, u.deviceName);
      if u.kind == Auto {
        EvictOldestAuto(owner, u.device);
      }
      var fits := CheckQuota(owner, 0);
      if !fits {
        rows := saved;  // the transaction is rolled back
        return R.StorageQuotaExceeded, order;
      }
      answer := R.Stored(newId, R.Created);
    }

    method PromoteToManual(owner: nat, id: nat) returns (answer: R.PromoteAnswer)
      modifies this
      ensures (rows, answer) == R.Promote(settings, old(rows), owner, id)
    {
      if id !in rows || rows[id].owner != owner {
        return R.NotFound;
      }
      if rows[id].kind == Manual {
        return R.Pinned;
      }
      if |KindIds(rows, owner, Manual)| >= settings.maxManual {
        return R.PinLimitReached;
      }
      rows := rows[id := rows[id].(kind := Manual)];
      answer := R.Pinned;
    }

    method DeleteBackup(owner: nat, id: nat) returns (deleted: bool)
      modifies this
      ensures (rows, deleted) == R.Delete(old(rows), owner, id)
    {
      deleted := id in rows && rows[id].owner == owner;
      if deleted {
        rows := rows - {id};
      }
    }
  }
}
