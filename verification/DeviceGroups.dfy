/** The profile page's view of the snapshots: one group per device, in the order of the
    device's newest row. */
module DeviceGroups {
  import opened Wrappers
  import opened BackupTable

  datatype Group = Group(
    device: Option<string>, name: Option<string>, platform: Option<string>,
    manual: seq<Row>, auto: seq<Row>, suffix: Option<string>)

  // -- what the groups should be ---------------------------------------------------------------

  /** The rows of one device and kind, in the order of the list. */
  function Of(rows: seq<Row>, device: Option<string>, kind: Kind): seq<Row> {
    if rows == [] then []
    else
      var r := rows[|rows| - 1];
      Of(rows[..|rows| - 1], device, kind) + if r.device == device && r.kind == kind then [r] else []
  }

  /** Each device once, in the order of first appearance. */
  function Order(rows: seq<Row>): seq<Option<string>> {
    if rows == [] then []
    else
      var before, d := Order(rows[..|rows| - 1]), rows[|rows| - 1].device;
      before + if d in before then [] else [d]
  }

  predicate Appears(rows: seq<Row>, device: Option<string>) {
    exists i :: 0 <= i < |rows| && rows[i].device == device
  }

  /** Where a device appears first: in a list that runs newest first, its newest row. */
  function FirstIndex(rows: seq<Row>, device: Option<string>): (i: nat)
    requires Appears(rows, device)
    ensures i < |rows| && rows[i].device == device
    ensures forall j :: 0 <= j < i ==> rows[j].device != device
  {
    if rows[0].device == device then 0
    else
      assert Appears(rows[1..], device) by {
        var i :| 0 <= i < |rows| && rows[i].device == device;
        assert rows[1..][i - 1].device == device;
      }
      var k := FirstIndex(rows[1..], device);
      assert forall j :: 0 < j < k + 1 ==> rows[j] == rows[1..][j - 1];
      k + 1
  }

  function Shape(rows: seq<Row>, device: Option<string>): Group
    requires Appears(rows, device)
  {
    var first := rows[FirstIndex(rows, device)];
    Group(device, first.deviceName, first.platform, Of(rows, device, Manual), Of(rows, device, Auto), None)
  }

  predicate HasNamesake(groups: seq<Group>, i: nat)
    requires i < |groups|
  {
    exists j :: 0 <= j < |groups| && j != i && groups[j].name == groups[i].name
  }

  /** The first four characters of the device id; an absent or empty id gives none. */
  function SuffixOf(device: Option<string>): Option<string> {
    var id := device.GetOr("");
    if id == "" then None else Some(if |id| <= 4 then id else id[..4])
  }

  // -- facts about them ---------------------------------------------------------------------------

  lemma {:induction false} OrderIsEachOnce(rows: seq<Row>)
    ensures forall d :: d in Order(rows) <==> Appears(rows, d)
    ensures forall i, j :: 0 <= i < j < |Order(rows)| ==> Order(rows)[i] != Order(rows)[j]
    decreases |rows|
  {
    if rows != [] {
      var front, last := rows[..|rows| - 1], rows[|rows| - 1];
      OrderIsEachOnce(front);
      forall d ensures Appears(rows, d) <==> Appears(front, d) || d == last.device {
        if Appears(front, d) {
          var i :| 0 <= i < |front| && front[i].device == d;
          assert rows[i].device == d;
        }
        if d == last.device {
          assert rows[|rows| - 1].device == d;
        }
        if Appears(rows, d) && d != last.device {
          var i :| 0 <= i < |rows| && rows[i].device == d;
          assert front[i].device == d;
        }
      }
    }
  }

  lemma FirstStays(front: seq<Row>, last: Row, d: Option<string>)
    requires Appears(front, d)
    ensures Appears(front + [last], d) && FirstIndex(front + [last], d) == FirstIndex(front, d)
  {
    var rows := front + [last];
    var i := FirstIndex(front, d);
    assert rows[i].device == d;
    assert forall j :: 0 <= j < i ==> rows[j].device != d;
  }

  lemma FirstIsNew(front: seq<Row>, last: Row)
    requires !Appears(front, last.device)
    ensures Appears(front + [last], last.device) && FirstIndex(front + [last], last.device) == |front|
  {
    var rows := front + [last];
    assert rows[|front|].device == last.device;
    assert forall j :: 0 <= j < |front| ==> front[j].device != last.device && rows[j] == front[j];
  }

  /** The groups come in the order of their newest rows. */
  lemma {:induction false} OrderIsByNewestRow(rows: seq<Row>, i: nat, j: nat)
    requires i < j < |Order(rows)|
    ensures Appears(rows, Order(rows)[i]) && Appears(rows, Order(rows)[j])
    ensures FirstIndex(rows, Order(rows)[i]) < FirstIndex(rows, Order(rows)[j])
    decreases |rows|
  {
    OrderIsEachOnce(rows);
    var front, last := rows[..|rows| - 1], rows[|rows| - 1];
    OrderIsEachOnce(front);
    assert rows == front + [last];
    FirstStays(front, last, Order(rows)[i]);
    if j < |Order(front)| {
      OrderIsByNewestRow(front, i, j);
      FirstStays(front, last, Order(rows)[j]);
    } else {
      FirstIsNew(front, last);
    }
  }

  function Both(rows: seq<Row>, device: Option<string>): seq<Row> {
    Of(rows, device, Manual) + Of(rows, device, Auto)
  }

  function GroupedRows(rows: seq<Row>, order: seq<Option<string>>): seq<Row> {
    if order == [] then []
    else GroupedRows(rows, order[..|order| - 1]) + Both(rows, order[|order| - 1])
  }

  lemma OfAppend(front: seq<Row>, r: Row, device: Option<string>, kind: Kind)
    ensures Of(front + [r], device, kind)
         == Of(front, device, kind) + if r.device == device && r.kind == kind then [r] else []
  {
    assert (front + [r])[..|front|] == front;
  }

  lemma BothOneMore(front: seq<Row>, r: Row, d: Option<string>)
    ensures multiset(Both(front + [r], d))
         == multiset(Both(front, d)) + if r.device == d then multiset{r} else multiset{}
  {
    OfAppend(front, r, d, Manual);
    OfAppend(front, r, d, Auto);
    hide Of;
  }

  lemma GroupedSplit(rows: seq<Row>, order: seq<Option<string>>, d: Option<string>)
    ensures GroupedRows(rows, order + [d]) == GroupedRows(rows, order) + Both(rows, d)
  {
    assert (order + [d])[..|order|] == order;
  }

  lemma {:induction false} GroupedOneMore(front: seq<Row>, r: Row, order: seq<Option<string>>)
    requires forall i, j :: 0 <= i < j < |order| ==> order[i] != order[j]
    ensures multiset(GroupedRows(front + [r], order))
         == multiset(GroupedRows(front, order)) + if r.device in order then multiset{r} else multiset{}
    decreases |order|
  {
    if order != [] {
      var init, d := order[..|order| - 1], order[|order| - 1];
      assert order == init + [d];
      assert r.device in order <==> r.device in init || r.device == d;
      assert r.device in init ==> r.device != d;
      hide Both, GroupedRows;
      GroupedOneMore(front, r, init);
      BothOneMore(front, r, d);
      GroupedSplit(front, init, d);
      GroupedSplit(front + [r], init, d);
    }
  }

  lemma OfNobody(rows: seq<Row>, d: Option<string>, kind: Kind)
    requires !Appears(rows, d)
    ensures Of(rows, d, kind) == []
  {
    if rows != [] {
      var front := rows[..|rows| - 1];
      assert forall j :: 0 <= j < |rows| ==> rows[j].device != d;
      assert forall j :: 0 <= j < |front| ==> front[j] == rows[j];
      OfNobody(front, d, kind);
    }
  }

  lemma OrderStep(front: seq<Row>, r: Row)
    ensures Order(front + [r]) == Order(front) + if Appears(front, r.device) then [] else [r.device]
    ensures forall d :: Appears(front + [r], d) <==> Appears(front, d) || d == r.device
  {
    OrderIsEachOnce(front);
    OrderIsEachOnce(front + [r]);
    assert (front + [r])[..|front|] == front;
    hide Appears;
    assert forall d :: d in Order(front + [r]) <==> d in Order(front) || d == r.device;
  }

  lemma ANewDeviceHasNoRowsYet(front: seq<Row>, r: Row)
    ensures GroupedRows(front, Order(front + [r])) == GroupedRows(front, Order(front))
  {
    OrderStep(front, r);
    hide Order, Of, GroupedRows, Appears;
    if !Appears(front, r.device) {
      OfNobody(front, r.device, Manual);
      OfNobody(front, r.device, Auto);
      GroupedSplit(front, Order(front), r.device);
      assert GroupedRows(front, Order(front)) + Both(front, r.device) == GroupedRows(front, Order(front));
    } else {
      assert Order(front) + [] == Order(front);
    }
  }

  /** Grouping loses no row and shows none twice. */
  lemma {:induction false} GroupingKeepsTheRows(rows: seq<Row>)
    ensures multiset(GroupedRows(rows, Order(rows))) == multiset(rows)
    decreases |rows|
  {
    if rows != [] {
      var front, r := rows[..|rows| - 1], rows[|rows| - 1];
      assert rows == front + [r];
      hide GroupedRows, Order, Appears;
      GroupingKeepsTheRows(front);
      OrderIsEachOnce(rows);
      OrderStep(front, r);
      GroupedOneMore(front, r, Order(rows));
      ANewDeviceHasNoRowsYet(front, r);
    }
  }

  // -- group_by_device ---------------------------------------------------------------------------------

  method GroupByDevice(rows: seq<Row>) returns (result: seq<Group>)
    ensures |result| == |Order(rows)|
    ensures forall i :: 0 <= i < |result| ==>
      Appears(rows, Order(rows)[i]) && result[i].(suffix := None) == Shape(rows, Order(rows)[i])
    ensures forall i :: 0 <= i < |result| ==>
      result[i].suffix == if HasNamesake(result, i) then SuffixOf(result[i].device) else None
  {
    var groups, order := Collect(rows);
    OrderIsEachOnce(rows);
    result := [];
    for i := 0 to |order|
      invariant |result| == i
      invariant forall k :: 0 <= k < i ==> result[k] == groups[order[k]]
    {
      result := result + [groups[order[i]]];
    }
    var byName := ByName(result);
    result := WithSuffixes(result, byName);
  }

  function WithRow(group: Group, row: Row): Group {
    if row.kind == Manual then group.(manual := group.manual + [row]) else group.(auto := group.auto + [row])
  }

  method Collect(rows: seq<Row>) returns (groups: map<Option<string>, Group>, order: seq<Option<string>>)
    ensures order == Order(rows)
    ensures forall d :: d in groups <==> Appears(rows, d)
    ensures forall d :: d in groups ==> groups[d] == Shape(rows, d)
  {
    groups, order := map[], [];
    for i := 0 to |rows|
      invariant order == Order(rows[..i])
      invariant forall d :: d in groups <==> Appears(rows[..i], d)
      invariant forall d :: d in groups ==> groups[d] == Shape(rows[..i], d)
    {
      var row := rows[i];
      assert rows[..i + 1] == rows[..i] + [row] && rows[..i + 1][..i] == rows[..i];
      OrderStep(rows[..i], row);
      hide Order, Shape, Of, Appears;
      if row.device !in groups {
        groups := groups[row.device := Group(row.device, row.deviceName, row.platform, [], [], None)];
        order := order + [row.device];
      }
      groups := groups[row.device := WithRow(groups[row.device], row)];
      hide WithRow;
      forall d | d in groups ensures Appears(rows[..i] + [row], d) && groups[d] == Shape(rows[..i] + [row], d) {
        ShapeStep(rows[..i], row, d);
      }
    }
    assert rows[..|rows|] == rows;
  }

  lemma ShapeStep(front: seq<Row>, r: Row, d: Option<string>)
    requires Appears(front, d) || d == r.device
    ensures Appears(front + [r], d)
    ensures var was := if Appears(front, d) then Shape(front, d) else Group(d, r.deviceName, r.platform, [], [], None);
      Shape(front + [r], d) == if r.device != d then was else WithRow(was, r)
  {
    OfAppend(front, r, d, Manual);
    OfAppend(front, r, d, Auto);
    if Appears(front, d) {
      FirstStays(front, r, d);
    } else {
      FirstIsNew(front, r);
      OfNobody(front, d, Manual);
      OfNobody(front, d, Auto);
    }
    assert Of(front, d, Manual) + [] == Of(front, d, Manual) && Of(front, d, Auto) + [] == Of(front, d, Auto);
  }

  /** The positions, among the first n groups, of those with the name. */
  function Positions(groups: seq<Group>, name: Option<string>, n: nat): seq<nat>
    requires n <= |groups|
  {
    if n == 0 then []
    else Positions(groups, name, n - 1) + if groups[n - 1].name == name then [n - 1] else []
  }

  predicate Increasing(q: seq<nat>) {
    forall a, b :: 0 <= a < b < |q| ==> q[a] < q[b]
  }

  lemma {:induction false} PositionsMean(groups: seq<Group>, name: Option<string>, n: nat)
    requires n <= |groups|
    ensures forall k: nat :: k in Positions(groups, name, n) <==> k < n && groups[k].name == name
    ensures Increasing(Positions(groups, name, n))
  {
    if n > 0 {
      PositionsMean(groups, name, n - 1);
      var q := Positions(groups, name, n - 1);
      forall a | 0 <= a < |q| ensures q[a] < n - 1 {
        assert q[a] in q;
      }
      assert Increasing(q + [n - 1]);
    }
  }

  predicate Listed(byName: map<Option<string>, seq<nat>>, groups: seq<Group>, n: nat, name: Option<string>)
    requires n <= |groups|
  {
    if name in byName then byName[name] == Positions(groups, name, n) != [] else Positions(groups, name, n) == []
  }

  ghost predicate Lists(byName: map<Option<string>, seq<nat>>, groups: seq<Group>, n: nat)
    requires n <= |groups|
  {
    forall name :: Listed(byName, groups, n, name)
  }

  method ByName(groups: seq<Group>) returns (byName: map<Option<string>, seq<nat>>)
    ensures Lists(byName, groups, |groups|)
  {
    byName := map[];
    for i := 0 to |groups|
      invariant Lists(byName, groups, i)
    {
      var name := groups[i].name;
      ghost var before := byName;
      assert Listed(before, groups, i, name);
      byName := byName[name := (if name in byName then byName[name] else []) + [i]];
      ghost var n := i + 1;
      forall other ensures Listed(byName, groups, n, other) {
        assert Listed(before, groups, i, other);
      }
    }
  }

  lemma LongMeansNamesake(groups: seq<Group>, i: nat)
    requires i < |groups|
    ensures |Positions(groups, groups[i].name, |groups|)| > 1 <==> HasNamesake(groups, i)
  {
    var q := Positions(groups, groups[i].name, |groups|);
    PositionsMean(groups, groups[i].name, |groups|);
    assert i in q;
    if |q| > 1 {
      var j := if q[0] == i then q[1] else q[0];
      assert q[0] < q[1] && j in q;
    }
    if j :| 0 <= j < |groups| && j != i && groups[j].name == groups[i].name {
      assert j in q;
    }
  }

  /** The suffix once every name outside `left` is done. */
  function DoneSuffix(group: Group, byName: map<Option<string>, seq<nat>>, left: set<Option<string>>): Option<string> {
    if group.name in byName && group.name !in left && |byName[group.name]| > 1 then SuffixOf(group.device) else None
  }

  method WithSuffixes(groups: seq<Group>, byName: map<Option<string>, seq<nat>>) returns (result: seq<Group>)
    requires Lists(byName, groups, |groups|) && forall i :: 0 <= i < |groups| ==> groups[i].suffix.None?
    ensures |result| == |groups| && forall i :: 0 <= i < |groups| ==>
      result[i] == groups[i].(suffix := if HasNamesake(result, i) then SuffixOf(groups[i].device) else None)
  {
    result := groups;
    var left := byName.Keys;
    while left != {}
      invariant left <= byName.Keys && |result| == |groups|
      invariant forall i :: 0 <= i < |groups| ==>
        result[i] == groups[i].(suffix := DoneSuffix(groups[i], byName, left))
      decreases left
    {
      var name :| name in left;
      assert Listed(byName, groups, |groups|, name);
      PositionsMean(groups, name, |groups|);
      if |byName[name]| > 1 {
        result := SetSuffixes(result, byName[name]);
      }
      left := left - {name};
    }
    assert forall j :: 0 <= j < |groups| ==> result[j].name == groups[j].name;
    forall i | 0 <= i < |groups| ensures DoneSuffix(groups[i], byName, {})
      == if HasNamesake(result, i) then SuffixOf(groups[i].device) else None
    {
      assert Listed(byName, groups, |groups|, groups[i].name);
      LongMeansNamesake(groups, i);
    }
  }

  method SetSuffixes(groups: seq<Group>, same: seq<nat>) returns (result: seq<Group>)
    requires forall k :: k in same ==> k < |groups|
    ensures |result| == |groups| && forall i :: 0 <= i < |groups| ==>
      result[i] == if i in same then groups[i].(suffix := SuffixOf(groups[i].device)) else groups[i]
  {
    result := groups;
    for k := 0 to |same|
      invariant |result| == |groups|
      invariant forall i :: 0 <= i < |groups| ==>
        result[i] == if i in same[..k] then groups[i].(suffix := SuffixOf(groups[i].device)) else groups[i]
    {
      assert same[k] in same && same[..k + 1] == same[..k] + [same[k]];
      result := result[same[k] := result[same[k]].(suffix := SuffixOf(result[same[k]].device))];
    }
    assert same[..|same|] == same;
  }

  /** What the suffix is: the first characters of the device id, four or all there are, and none
      for a row without an id. */
  lemma SuffixIsTheStart(device: Option<string>)
    ensures SuffixOf(device).Some? <==> device.Some? && device.value != ""
    ensures SuffixOf(device).Some? ==>
      && SuffixOf(device).value <= device.value
      && |SuffixOf(device).value| == if |device.value| < 4 then |device.value| else 4
  {
  }
}
