/** The config_backups table: rows by primary key, the order of its queries, and the
    sums and counts that the retention rules read. */
module BackupTable {
  import opened Wrappers

  datatype Kind = Auto | Manual

  datatype Row = Row(
    owner: nat,
    kind: Kind,
    labelText: Option<string>,
    device: Option<string>,
    deviceName: Option<string>,
    appVersion: Option<string>,
    platform: Option<string>,
    schemaVersion: int,
    payload: string,
    storedChars: nat,
    digest: string,
    createdAt: int)  // microseconds

  type Table = map<nat, Row>

  // -- queries ---------------------------------------------------------------

  function OwnedIds(t: Table, owner: nat): set<nat> {
    set id | id in t && t[id].owner == owner
  }

  function KindIds(t: Table, owner: nat, kind: Kind): set<nat> {
    set id | id in t && t[id].owner == owner && t[id].kind == kind
  }

  function Bucket(t: Table, owner: nat, kind: Kind, device: Option<string>): set<nat> {
    set id | id in t && t[id].owner == owner && t[id].kind == kind && t[id].device == device
  }

  /** The devices for which the owner has at least one auto row. */
  function Windows(t: Table, owner: nat): set<Option<string>> {
    set id | id in t && t[id].owner == owner && t[id].kind == Auto :: t[id].device
  }

  // -- the order (created_at, id) -------------------------------------------------

  predicate Newer(t: Table, i: nat, j: nat)
    requires i in t && j in t
  {
    t[j].createdAt < t[i].createdAt || (t[j].createdAt == t[i].createdAt && j < i)
  }

  predicate IsNewest(t: Table, ids: set<nat>, m: nat)
    requires ids <= t.Keys
  {
    m in ids && forall i :: i in ids && i != m ==> Newer(t, m, i)
  }

  predicate IsOldest(t: Table, ids: set<nat>, m: nat)
    requires ids <= t.Keys
  {
    m in ids && forall i :: i in ids && i != m ==> Newer(t, i, m)
  }

  lemma {:induction false} NewestExists(t: Table, ids: set<nat>)
    requires ids <= t.Keys && ids != {}
    ensures exists m :: IsNewest(t, ids, m)
    decreases |ids|
  {
    var x :| x in ids;
    if ids == {x} {
      assert IsNewest(t, ids, x);
    } else {
      var rest := ids - {x};
      NewestExists(t, rest);
      var m :| IsNewest(t, rest, m);
      var best := if Newer(t, x, m) then x else m;
      forall i | i in ids && i != best ensures Newer(t, best, i) {
        assert i == x || i in rest;
      }
      assert IsNewest(t, ids, best);
    }
  }

  lemma {:induction false} OldestExists(t: Table, ids: set<nat>)
    requires ids <= t.Keys && ids != {}
    ensures exists m :: IsOldest(t, ids, m)
    decreases |ids|
  {
    var x :| x in ids;
    if ids == {x} {
      assert IsOldest(t, ids, x);
    } else {
      var rest := ids - {x};
      OldestExists(t, rest);
      var m :| IsOldest(t, rest, m);
      var last := if Newer(t, m, x) then x else m;
      forall i | i in ids && i != last ensures Newer(t, i, last) {
        assert i == x || i in rest;
      }
      assert IsOldest(t, ids, last);
    }
  }

  ghost function Newest(t: Table, ids: set<nat>): (m: nat)
    requires ids <= t.Keys && ids != {}
    ensures IsNewest(t, ids, m)
  {
    NewestExists(t, ids);
    var m :| IsNewest(t, ids, m);
    m
  }

  ghost function NewestIn(t: Table, ids: set<nat>): Option<nat>
    requires ids <= t.Keys
  {
    if ids == {} then None else Some(Newest(t, ids))
  }

  // -- the sum of stored_chars -------------------------------------------------

  ghost function Chars(t: Table, ids: set<nat>): nat
    requires ids <= t.Keys
    decreases |ids|
  {
    if ids == {} then 0
    else
      var i :| i in ids;
      t[i].storedChars + Chars(t, ids - {i})
  }

  /** The sum does not depend on the order in which rows are added up. */
  lemma {:induction false} CharsPick(t: Table, ids: set<nat>, i: nat)
    requires ids <= t.Keys && i in ids
    ensures Chars(t, ids) == t[i].storedChars + Chars(t, ids - {i})
    decreases |ids|
  {
    var j :| j in ids && Chars(t, ids) == t[j].storedChars + Chars(t, ids - {j});
    if i != j {
      CharsPick(t, ids - {j}, i);
      CharsPick(t, ids - {i}, j);
      assert ids - {j} - {i} == ids - {i} - {j};
    }
  }

  lemma {:induction false} CharsCongruence(t: Table, u: Table, ids: set<nat>)
    requires ids <= t.Keys && ids <= u.Keys
    requires forall i :: i in ids ==> t[i].storedChars == u[i].storedChars
    ensures Chars(t, ids) == Chars(u, ids)
    decreases |ids|
  {
    if ids != {} {
      var i :| i in ids;
      CharsPick(t, ids, i);
      CharsPick(u, ids, i);
      CharsCongruence(t, u, ids - {i});
    }
  }

  lemma {:induction false} CharsMonotone(t: Table, small: set<nat>, large: set<nat>)
    requires small <= large <= t.Keys
    ensures Chars(t, small) <= Chars(t, large)
    decreases |large|
  {
    if small != large {
      var i :| i in large && i !in small;
      CharsPick(t, large, i);
      CharsMonotone(t, small, large - {i});
    }
  }
}
