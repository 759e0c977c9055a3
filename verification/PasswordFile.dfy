/** The broker's password file: lines name:hash, replaced, removed and rebuilt as a whole
    under the file lock. */
module PasswordFile {
  import opened Wrappers

  // -- lines -------------------------------------------------------------------------

  function Entry(user: string, hash: string): string {
    user + ":" + hash
  }

  predicate BelongsTo(line: string, user: string) {
    user + ":" <= line
  }

  function LinesOf(lines: seq<string>): set<string> {
    set l | l in lines
  }

  function OwnLines(lines: seq<string>, user: string): set<string> {
    set l | l in lines && BelongsTo(l, user)
  }

  function OtherLines(lines: seq<string>, user: string): set<string> {
    set l | l in lines && !BelongsTo(l, user)
  }

  /** Two users without a colon in their names never share a line. */
  lemma OneOwner(line: string, u: string, v: string)
    requires ':' !in u && ':' !in v && BelongsTo(line, u) && BelongsTo(line, v)
    ensures u == v
  {
    FirstColon(line, u);
    FirstColon(line, v);
    assert u == line[..|u|] && v == line[..|v|];
  }

  lemma FirstColon(line: string, u: string)
    requires ':' !in u && BelongsTo(line, u)
    ensures |u| < |line| && line[|u|] == ':' && forall i :: 0 <= i < |u| ==> line[i] != ':'
  {
    forall i | 0 <= i < |u| ensures line[i] != ':' {
      assert line[i] == (u + ":")[i] == u[i];
    }
    assert line[|u|] == (u + ":")[|u|];
  }

  // -- sorting -------------------------------------------------------------------------

  predicate Below(a: string, b: string) {
    if b == [] then false
    else if a == [] then true
    else a[0] < b[0] || (a[0] == b[0] && Below(a[1..], b[1..]))
  }

  lemma {:induction false} BelowIsTotal(a: string, b: string)
    requires a != b
    ensures Below(a, b) || Below(b, a)
    decreases |a|
  {
    if a != [] && b != [] && a[0] == b[0] {
      assert a == [a[0]] + a[1..] && b == [b[0]] + b[1..];
      BelowIsTotal(a[1..], b[1..]);
    }
  }

  lemma {:induction false} BelowIsTransitive(a: string, b: string, c: string)
    requires Below(a, b) && Below(b, c)
    ensures Below(a, c)
    decreases |a|
  {
    if a != [] && a[0] == b[0] && b[0] == c[0] {
      BelowIsTransitive(a[1..], b[1..], c[1..]);
    }
  }

  predicate Sorted(q: seq<string>) {
    forall i, j :: 0 <= i < j < |q| ==> Below(q[i], q[j])
  }

  lemma {:induction false} BelowIsStrict(a: string)
    ensures !Below(a, a)
  {
    if a != [] {
      BelowIsStrict(a[1..]);
    }
  }

  /** sorted(set(lines)): every line once, in order. */
  method SortedUnique(lines: seq<string>) returns (q: seq<string>)
    ensures Sorted(q) && LinesOf(q) == LinesOf(lines)
  {
    q := [];
    for i := 0 to |lines|
      invariant Sorted(q) && LinesOf(q) == LinesOf(lines[..i])
    {
      assert lines[..i + 1] == lines[..i] + [lines[i]];
      q := InsertUnique(q, lines[i]);
    }
    assert lines[..|lines|] == lines;
  }

  method InsertUnique(q: seq<string>, line: string) returns (r: seq<string>)
    requires Sorted(q)
    ensures Sorted(r) && LinesOf(r) == LinesOf(q) + {line}
  {
    var k := 0;
    while k < |q| && Below(q[k], line)
      invariant k <= |q|
      invariant forall i :: 0 <= i < k ==> Below(q[i], line)
    {
      k := k + 1;
    }
    if k < |q| && q[k] == line {
      assert line in q;
      return q;
    }
    r := q[..k] + [line] + q[k..];
    assert LinesOf(r) == LinesOf(q) + {line} by {
      assert q == q[..k] + q[k..];
    }
    forall j | k <= j < |q| ensures Below(line, q[j]) {
      BelowIsTotal(line, q[k]);
      if k < j {
        BelowIsTransitive(line, q[k], q[j]);
      }
    }
  }

  // -- the file ------------------------------------------------------------------------

  class Manager {
    /** The file's lines, or None while there is no file. */
    var file: Option<seq<string>>

    function Lines(): (lines: seq<string>)
      reads this
      ensures lines == match file { case Some(l) => l case None => [] }
    {
      file.GetOr([])
    }

    /** The write may fail; then the old file stays. */
    method AtomicWrite(lines: seq<string>, works: bool) returns (ok: bool)
      modifies this
      ensures ok == works && file == if works then Some(lines) else old(file)
    {
      if works {
        file := Some(lines);
      }
      ok := works;
    }

    method UpsertPasswdEntry(user: string, hash: string, works: bool) returns (ok: bool)
      modifies this
      ensures ok == works && (!works ==> file == old(file))
      ensures works ==> file.Some? && Sorted(Lines())
      ensures works ==> LinesOf(Lines()) == OtherLines(old(Lines()), user) + {Entry(user, hash)}
    {
      var newEntry := Entry(user, hash);
      var lines := file.GetOr([]);
      var updated := [];
      var found := false;
      for i := 0 to |lines|
        invariant LinesOf(updated) == OtherLines(lines[..i], user) + if found then {newEntry} else {}
      {
        assert lines[..i + 1] == lines[..i] + [lines[i]];
        if BelongsTo(lines[i], user) {
          updated := updated + [newEntry];
          found := true;
        } else {
          updated := updated + [lines[i]];
        }
      }
      assert lines[..|lines|] == lines;
      if !found {
        updated := updated + [newEntry];
      }
      var sorted := SortedUnique(updated);
      ok := AtomicWrite(sorted, works);
    }

    method RemovePasswdEntry(user: string, works: bool) returns (ok: bool)
      modifies this
      ensures ok == (works || old(file).None?) && (!works ==> file == old(file))
      ensures works && old(file).Some? ==> file == Some(WithoutUser(old(Lines()), user))
      ensures old(file).None? ==> file.None?
    {
      if file.None? {
        return true;
      }
      var lines := [];
      for i := 0 to |file.value|
        invariant file == old(file) && lines == WithoutUser(file.value[..i], user)
      {
        WithoutUserAppend(file.value[..i], file.value[i], user);
        assert file.value[..i + 1] == file.value[..i] + [file.value[i]];
        if !BelongsTo(file.value[i], user) {
          lines := lines + [file.value[i]];
        }
      }
      assert file.value[..|file.value|] == file.value;
      ok := AtomicWrite(lines, works);
    }
  }

  /** The lines of everybody else, in their order, duplicates and all. */
  function WithoutUser(lines: seq<string>, user: string): seq<string> {
    if lines == [] then []
    else (if BelongsTo(lines[0], user) then [] else [lines[0]]) + WithoutUser(lines[1..], user)
  }

  lemma {:induction false} WithoutUserAppend(lines: seq<string>, line: string, user: string)
    ensures WithoutUser(lines + [line], user)
         == WithoutUser(lines, user) + if BelongsTo(line, user) then [] else [line]
  {
    if lines != [] {
      assert (lines + [line])[1..] == lines[1..] + [line];
      WithoutUserAppend(lines[1..], line, user);
    }
  }

  /** After an upsert the user has the new line alone, and everybody else what they had. */
  lemma UpsertTouchesOneUser(lines: seq<string>, after: seq<string>, user: string, hash: string, other: string)
    requires ':' !in user && ':' !in other && other != user
    requires LinesOf(after) == OtherLines(lines, user) + {Entry(user, hash)}
    ensures OwnLines(after, user) == {Entry(user, hash)}
    ensures OwnLines(after, other) == OwnLines(lines, other)
  {
    LinesAfterUpsert(lines, after, user, hash);
    forall l | BelongsTo(l, user) && BelongsTo(l, other) ensures user == other {
      OneOwner(l, user, other);
    }
  }

  lemma LinesAfterUpsert(lines: seq<string>, after: seq<string>, user: string, hash: string)
    requires LinesOf(after) == OtherLines(lines, user) + {Entry(user, hash)}
    ensures forall l :: l in after <==> (l in lines && !BelongsTo(l, user)) || l == Entry(user, hash)
    ensures BelongsTo(Entry(user, hash), user)
  {
    forall l ensures l in after <==> (l in lines && !BelongsTo(l, user)) || l == Entry(user, hash) {
      assert l in after <==> l in LinesOf(after);
    }
  }

  // -- the file as a map -----------------------------------------------------------------

  /** What str.strip() takes for white space, by code point. */
  predicate IsSpace(c: char) {
    var n := c as int;
    || 0x09 <= n <= 0x0D || 0x1C <= n <= 0x20 || n == 0x85 || n == 0xA0 || n == 0x1680
    || 0x2000 <= n <= 0x200A || n == 0x2028 || n == 0x2029 || n == 0x202F || n == 0x205F || n == 0x3000
  }

  function StripLeft(s: string): (r: string)
    ensures ':' in s ==> ':' in r
  {
    if s != [] && IsSpace(s[0]) then
      assert s == [s[0]] + s[1..];
      StripLeft(s[1..])
    else s
  }

  function StripRight(s: string): (r: string)
    ensures ':' in s ==> ':' in r
  {
    if s != [] && IsSpace(s[|s| - 1]) then
      assert s == s[..|s| - 1] + [s[|s| - 1]];
      StripRight(s[..|s| - 1])
    else s
  }

  function Strip(s: string): (r: string)
    ensures ':' in s ==> ':' in r
  {
    StripRight(StripLeft(s))
  }

  function Colon(s: string): (k: nat)
    requires ':' in s
    ensures k < |s| && s[k] == ':' && forall i :: 0 <= i < k ==> s[i] != ':'
  {
    if s[0] == ':' then 0
    else
      assert s == [s[0]] + s[1..];
      Colon(s[1..]) + 1
  }

  function UserOf(line: string): string
    requires ':' in line
  {
    line[..Colon(line)]
  }

  function HashOf(line: string): string
    requires ':' in line
  {
    line[Colon(line) + 1..]
  }

  /** dict(line.strip().split(":", 1) for line in file if ":" in line): a later line wins. */
  function Parse(lines: seq<string>): map<string, string> {
    if lines == [] then map[]
    else
      var m, last := Parse(lines[..|lines| - 1]), lines[|lines| - 1];
      if ':' in last then m[UserOf(Strip(last)) := HashOf(Strip(last))] else m
  }

  /** Lines as the manager writes them: nothing to strip. */
  predicate Clean(lines: seq<string>) {
    forall l :: l in lines ==> Strip(l) == l
  }

  lemma EntryParts(user: string, hash: string)
    requires ':' !in user
    ensures ':' in Entry(user, hash) && UserOf(Entry(user, hash)) == user && HashOf(Entry(user, hash)) == hash
  {
    var line := Entry(user, hash);
    assert line == (user + ":") + hash;
    FirstColon(line, user);
    assert Colon(line) == |user|;
    assert line[..|user|] == user && line[|user| + 1..] == hash;
  }

  lemma LineParts(line: string)
    requires ':' in line
    ensures line == Entry(UserOf(line), HashOf(line)) && ':' !in UserOf(line)
  {
  }

  /** What the writers ask of a line, startswith(user + ":"), is what the reader splits off. */
  lemma BelongsToItsUser(line: string, user: string)
    requires ':' !in user
    ensures BelongsTo(line, user) <==> ':' in line && UserOf(line) == user
  {
    if BelongsTo(line, user) {
      assert line == Entry(user, line[|user| + 1..]);
      EntryParts(user, line[|user| + 1..]);
    }
    if ':' in line && UserOf(line) == user {
      LineParts(line);
      assert line == (user + ":") + HashOf(line);
    }
  }

  // -- how the reader sees a line ---------------------------------------------------------------

  predicate ReadsAs(line: string, user: string) {
    ':' in line && UserOf(Strip(line)) == user
  }

  function ValueOf(line: string): string
    requires ':' in line
  {
    HashOf(Strip(line))
  }

  /** A name the reader gives back: no colon, and nothing to strip in front. */
  predicate PlainName(user: string) {
    ':' !in user && (user == [] || !IsSpace(user[0]))
  }

  lemma {:induction false} StripRightKeeps(s: string, k: nat)
    requires k < |s| && !IsSpace(s[k])
    ensures k < |StripRight(s)| <= |s| && StripRight(s) == s[..|StripRight(s)|]
  {
    if IsSpace(s[|s| - 1]) {
      StripRightKeeps(s[..|s| - 1], k);
    }
  }

  /** A line that starts with a plain name and a colon reads as that user's. */
  lemma OwnLineReadsAsOwn(line: string, user: string)
    requires PlainName(user) && BelongsTo(line, user)
    ensures ReadsAs(line, user)
  {
    FirstColon(line, user);
    assert line[0] == if user == [] then ':' else user[0];
    assert StripLeft(line) == line;
    StripRightKeeps(line, |user|);
    var r := Strip(line);
    assert r == line[..|r|] && Colon(r) == |user|;
    assert r[..|user|] == user;
  }

  lemma CleanLineReadsAsItIs(line: string, user: string)
    requires Strip(line) == line && ':' !in user
    ensures ReadsAs(line, user) <==> BelongsTo(line, user)
  {
    BelongsToItsUser(line, user);
  }

  /** The user's last line, as the reader sees it. */
  function LastRead(lines: seq<string>, user: string): Option<string> {
    if lines == [] then None
    else if ReadsAs(lines[|lines| - 1], user) then Some(lines[|lines| - 1])
    else LastRead(lines[..|lines| - 1], user)
  }

  /** The reader's map holds exactly the users' last lines. */
  lemma {:induction false} ParseIsLastRead(lines: seq<string>, user: string)
    ensures user in Parse(lines) <==> LastRead(lines, user).Some?
    ensures user in Parse(lines) ==>
      ReadsAs(LastRead(lines, user).value, user) && Parse(lines)[user] == ValueOf(LastRead(lines, user).value)
    decreases |lines|
  {
    if lines != [] {
      ParseIsLastRead(lines[..|lines| - 1], user);
    }
  }

  lemma {:induction false} LastReadIsOne(lines: seq<string>, user: string)
    ensures LastRead(lines, user).Some? <==> exists l :: l in lines && ReadsAs(l, user)
    ensures LastRead(lines, user).Some?
      ==> LastRead(lines, user).value in lines && ReadsAs(LastRead(lines, user).value, user)
    decreases |lines|
  {
    if lines != [] {
      var front, last := lines[..|lines| - 1], lines[|lines| - 1];
      assert lines == front + [last] && last in lines;
      LastReadIsOne(front, user);
    }
  }

  predicate AtMost(a: string, b: string) {
    a == b || Below(a, b)
  }

  /** The greatest of the user's lines. */
  function GreatestRead(lines: seq<string>, user: string): Option<string> {
    if lines == [] then None
    else
      var best, last := GreatestRead(lines[..|lines| - 1], user), lines[|lines| - 1];
      if ReadsAs(last, user) && (best.None? || Below(best.value, last)) then Some(last) else best
  }

  ghost predicate IsGreatest(lines: seq<string>, user: string, m: string) {
    m in lines && ReadsAs(m, user) && forall l :: l in lines && ReadsAs(l, user) ==> AtMost(l, m)
  }

  lemma {:induction false} GreatestReadIsGreatest(lines: seq<string>, user: string)
    ensures GreatestRead(lines, user).Some? <==> exists l :: l in lines && ReadsAs(l, user)
    ensures GreatestRead(lines, user).Some? ==> IsGreatest(lines, user, GreatestRead(lines, user).value)
    decreases |lines|
  {
    if lines != [] {
      var front, last := lines[..|lines| - 1], lines[|lines| - 1];
      assert lines == front + [last] && last in lines;
      GreatestReadIsGreatest(front, user);
      hide ReadsAs, Below;
      var best := GreatestRead(front, user);
      if best.Some? {
        forall l | l in lines && ReadsAs(l, user) ensures AtMost(l, GreatestRead(lines, user).value) {
          if best.value != last {
            BelowIsTotal(best.value, last);
          }
          if l != last && l != best.value && Below(best.value, last) {
            BelowIsTransitive(l, best.value, last);
          }
        }
      }
    }
  }

  lemma OneGreatest(a: string, b: string)
    requires AtMost(a, b) && AtMost(b, a)
    ensures a == b
  {
    if a != b {
      BelowIsTransitive(a, b, a);
      BelowIsStrict(a);
    }
  }

  /** The greatest depends on the set of the user's lines alone. */
  lemma SameLinesSameGreatest(a: seq<string>, b: seq<string>, user: string)
    requires forall l :: ReadsAs(l, user) ==> (l in a <==> l in b)
    ensures GreatestRead(a, user) == GreatestRead(b, user)
  {
    GreatestReadIsGreatest(a, user);
    GreatestReadIsGreatest(b, user);
    hide GreatestRead, Below, ReadsAs;
    if GreatestRead(a, user).Some? {
      OneGreatest(GreatestRead(a, user).value, GreatestRead(b, user).value);
    }
  }

  lemma {:induction false} SortedLastIsGreatest(lines: seq<string>, user: string)
    requires Sorted(lines)
    ensures LastRead(lines, user) == GreatestRead(lines, user)
    decreases |lines|
  {
    if lines != [] {
      var front, last := lines[..|lines| - 1], lines[|lines| - 1];
      SortedLastIsGreatest(front, user);
      GreatestReadIsGreatest(front, user);
      if GreatestRead(front, user).Some? {
        var i :| 0 <= i < |front| && front[i] == GreatestRead(front, user).value;
        assert Below(lines[i], lines[|lines| - 1]);
      }
    }
  }

  // -- the two writers as map operations ------------------------------------------------------

  /** The user's lines that do not start with its name: white space comes first. */
  function Strays(lines: seq<string>, user: string): seq<string> {
    if lines == [] then []
    else (if ReadsAs(lines[0], user) && !BelongsTo(lines[0], user) then [lines[0]] else []) + Strays(lines[1..], user)
  }

  lemma {:induction false} StraysAre(lines: seq<string>, user: string)
    ensures forall l :: l in Strays(lines, user) <==> l in lines && ReadsAs(l, user) && !BelongsTo(l, user)
  {
    if lines != [] {
      StraysAre(lines[1..], user);
      assert lines == [lines[0]] + lines[1..];
    }
  }

  /** The user's last line says the same as the greatest. */
  predicate GreatestCounts(lines: seq<string>, user: string) {
    var last, best := LastRead(lines, user), GreatestRead(lines, user);
    last.Some? && best.Some? && ':' in last.value && ':' in best.value ==> ValueOf(last.value) == ValueOf(best.value)
  }

  /** Among the user's stray lines and the new one, the greatest says `hash`. */
  predicate EntryCounts(lines: seq<string>, user: string, hash: string) {
    var m := GreatestRead(Strays(lines, user) + [Entry(user, hash)], user);
    m.Some? && ':' in m.value && ValueOf(m.value) == hash
  }

  /** The file after an upsert: sorted, and the lines the writer keeps with the new one. */
  ghost predicate IsUpsert(lines: seq<string>, after: seq<string>, user: string, hash: string) {
    Sorted(after) && LinesOf(after) == OtherLines(lines, user) + {Entry(user, hash)}
  }

  /** What becomes of another user. */
  lemma UpsertAndOthers(lines: seq<string>, after: seq<string>, user: string, hash: string, other: string)
    requires PlainName(user) && other != user && IsUpsert(lines, after, user, hash)
    ensures other in Parse(after) <==> other in Parse(lines)
    ensures other in Parse(lines) ==> (Parse(after)[other] == Parse(lines)[other] <==> GreatestCounts(lines, other))
  {
    LinesAfterUpsert(lines, after, user, hash);
    forall l | BelongsTo(l, user) ensures ReadsAs(l, user) {
      OwnLineReadsAsOwn(l, user);
    }
    assert Sorted(after);
    hide Sorted, Below, BelongsTo, Entry, LastRead, GreatestRead, Parse, Strip, StripLeft, StripRight;
    assert forall l :: ReadsAs(l, other) ==> (l in after <==> l in lines);
    SameLinesSameGreatest(after, lines, other);
    SortedLastIsGreatest(after, other);
    ParseIsLastRead(after, other);
    ParseIsLastRead(lines, other);
    GreatestReadIsGreatest(lines, other);
    LastReadIsOne(lines, other);
  }

  /** What becomes of the user. */
  lemma UpsertAndUser(lines: seq<string>, after: seq<string>, user: string, hash: string)
    requires PlainName(user) && IsUpsert(lines, after, user, hash)
    ensures user in Parse(after) && (Parse(after)[user] == hash <==> EntryCounts(lines, user, hash))
  {
    LinesAfterUpsert(lines, after, user, hash);
    OwnLineReadsAsOwn(Entry(user, hash), user);
    StraysAre(lines, user);
    var own := Strays(lines, user) + [Entry(user, hash)];
    assert Entry(user, hash) in own;
    assert Sorted(after);
    hide Sorted, Below, BelongsTo, Entry, LastRead, GreatestRead, Parse, Strip, StripLeft, StripRight;
    assert forall l :: ReadsAs(l, user) ==> (l in after <==> l in own);
    SameLinesSameGreatest(after, own, user);
    SortedLastIsGreatest(after, user);
    ParseIsLastRead(after, user);
    GreatestReadIsGreatest(own, user);
  }

  /** From any file, upsert is map update exactly when every other user's last line says the
      same as their greatest, and no stray line of the user says something else from behind
      the new one. */
  lemma UpsertIsMapUpdate(lines: seq<string>, after: seq<string>, user: string, hash: string)
    requires PlainName(user) && IsUpsert(lines, after, user, hash)
    ensures Parse(after) == Parse(lines)[user := hash]
      <==> EntryCounts(lines, user, hash)
           && forall other :: other in Parse(lines) && other != user ==> GreatestCounts(lines, other)
  {
    UpsertAndUser(lines, after, user, hash);
    hide IsUpsert, PlainName, Parse, GreatestCounts, EntryCounts;
    forall other | other != user
      ensures other in Parse(after) <==> other in Parse(lines)
      ensures other in Parse(lines) ==> (Parse(after)[other] == Parse(lines)[other] <==> GreatestCounts(lines, other))
    {
      UpsertAndOthers(lines, after, user, hash, other);
    }
    var was, now := Parse(lines), Parse(after);
    if EntryCounts(lines, user, hash) {
      if other :| other in was && other != user && !GreatestCounts(lines, other) {
        assert now[other] != was[other];
      } else {
        assert now == was[user := hash];
      }
    }
  }

  /** One line per user, as far as lines have a colon. */
  predicate OneLineEach(lines: seq<string>) {
    forall k, l :: k in lines && l in lines && ':' in k && ':' in l && UserOf(k) == UserOf(l) ==> k == l
  }

  lemma OneLineCounts(lines: seq<string>, user: string)
    requires Clean(lines) && OneLineEach(lines)
    ensures GreatestCounts(lines, user)
  {
    LastReadIsOne(lines, user);
    GreatestReadIsGreatest(lines, user);
  }

  lemma NoStrays(lines: seq<string>, user: string)
    requires Clean(lines) && ':' !in user
    ensures Strays(lines, user) == []
  {
    StraysAre(lines, user);
    if Strays(lines, user) != [] {
      var l := Strays(lines, user)[0];
      assert l in Strays(lines, user);
      CleanLineReadsAsItIs(l, user);
    }
  }

  /** On a file as the server writes it the condition holds, and such a file it stays. */
  lemma UpsertOnWrittenFile(lines: seq<string>, after: seq<string>, user: string, hash: string)
    requires Clean(lines) && OneLineEach(lines)
    requires PlainName(user) && Strip(Entry(user, hash)) == Entry(user, hash) && IsUpsert(lines, after, user, hash)
    ensures Parse(after) == Parse(lines)[user := hash]
    ensures Clean(after) && OneLineEach(after)
  {
    UpsertKeepsOneLineEach(lines, after, user, hash);
    LinesAfterUpsert(lines, after, user, hash);
    assert Clean(after);
    NoStrays(lines, user);
    EntryParts(user, hash);
    var own := [Entry(user, hash)];
    assert Strays(lines, user) + own == own && own[..0] == [];
    assert GreatestRead(own, user) == Some(Entry(user, hash));
    assert EntryCounts(lines, user, hash);
    hide EntryCounts, GreatestCounts, IsUpsert, Clean, OneLineEach, Parse, Strip;
    forall other | other in Parse(lines) && other != user ensures GreatestCounts(lines, other) {
      OneLineCounts(lines, other);
    }
    UpsertIsMapUpdate(lines, after, user, hash);
  }

  lemma UpsertKeepsOneLineEach(lines: seq<string>, after: seq<string>, user: string, hash: string)
    requires OneLineEach(lines) && ':' !in user
    requires LinesOf(after) == OtherLines(lines, user) + {Entry(user, hash)}
    ensures OneLineEach(after)
  {
    LinesAfterUpsert(lines, after, user, hash);
    forall l | ':' in l ensures BelongsTo(l, user) <==> UserOf(l) == user {
      BelongsToItsUser(l, user);
    }
  }

  /** A file with two lines of one user in which the last is not the greatest. */
  function TwoLinesOfA(): seq<string> {
    [Entry("a", "2"), Entry("a", "1")]
  }

  function AfterUpsertOfB(): seq<string> {
    [Entry("a", "1"), Entry("a", "2"), Entry("b", "0")]
  }

  lemma ShortEntry(front: seq<string>, u: char, h: char)
    requires u != ':' && !IsSpace(u) && !IsSpace(h)
    ensures Parse(front + [Entry([u], [h])]) == Parse(front)[[u] := [h]]
  {
    var e := Entry([u], [h]);
    assert e == [u, ':', h];
    EntryParts([u], [h]);
    ParseLast(front, e);
  }

  lemma BelowShort(a: char, b: char, x: char, y: char)
    ensures Below(Entry([a], [x]), Entry([b], [y])) <==> a < b || (a == b && x < y)
  {
    var p, q := Entry([a], [x]), Entry([b], [y]);
    assert p == [a, ':', x] && q == [b, ':', y];
    assert p[1..] == [':', x] && q[1..] == [':', y] && p[1..][1..] == [x] && q[1..][1..] == [y];
    assert [x][1..] == [] && [y][1..] == [];
    assert Below([x], [y]) <==> x < y;
    assert Below(p[1..], q[1..]) <==> x < y;
  }

  lemma AfterUpsertOfBIsUpsert()
    ensures IsUpsert(TwoLinesOfA(), AfterUpsertOfB(), "b", "0")
  {
    var a1, a2, b0 := Entry("a", "1"), Entry("a", "2"), Entry("b", "0");
    BelowShort('a', 'a', '1', '2');
    BelowShort('a', 'b', '1', '0');
    BelowShort('a', 'b', '2', '0');
    assert a1[0] == 'a' && a2[0] == 'a' && ("b" + ":")[0] == 'b';
    assert !BelongsTo(a1, "b") && !BelongsTo(a2, "b");
    hide Below, BelongsTo, Entry;
    assert Sorted([a1, a2, b0]);
    assert OtherLines([a2, a1], "b") == {a1, a2};
    assert LinesOf([a1, a2, b0]) == {a1, a2, b0};
  }

  /** Upserting b in it turns a's password from one line's into the other's. */
  lemma UpsertMayFlipAnother()
    ensures IsUpsert(TwoLinesOfA(), AfterUpsertOfB(), "b", "0")
    ensures Parse(TwoLinesOfA()) == map["a" := "1"]
    ensures Parse(AfterUpsertOfB()) == map["a" := "2", "b" := "0"]
  {
    assert Parse([]) == map[];
    assert !IsSpace('a') && !IsSpace('b') && !IsSpace('0') && !IsSpace('1') && !IsSpace('2');
    assert TwoLinesOfA() == [Entry("a", "2")] + [Entry("a", "1")];
    assert AfterUpsertOfB() == [Entry("a", "1"), Entry("a", "2")] + [Entry("b", "0")];
    hide *;
    AfterUpsertOfBIsUpsert();
    TwoOfA('2', '1');
    TwoOfA('1', '2');
    ShortEntry([Entry("a", "1"), Entry("a", "2")], 'b', '0');
  }

  lemma TwoOfA(first: char, second: char)
    requires !IsSpace(first) && !IsSpace(second)
    ensures Parse([Entry("a", [first])] + [Entry("a", [second])]) == map["a" := [second]]
    ensures [Entry("a", [first])] + [Entry("a", [second])] == [Entry("a", [first]), Entry("a", [second])]
  {
    ShortEntry([], 'a', first);
    ShortEntry([Entry("a", [first])], 'a', second);
    assert [] + [Entry("a", [first])] == [Entry("a", [first])];
    assert Parse([]) == map[];
    hide *;
  }

  /** Removal is map removal from any file, duplicates or not, exactly when none of the user's
      lines is a stray one. */
  lemma RemoveIsMapRemoval(lines: seq<string>, user: string)
    requires PlainName(user)
    ensures Parse(WithoutUser(lines, user)) == Parse(lines) - {user} <==> Strays(lines, user) == []
  {
    var after := WithoutUser(lines, user);
    UserAfterRemoval(lines, user);
    hide *;
    forall other | other != user
      ensures other in Parse(after) <==> other in Parse(lines)
      ensures other in Parse(lines) ==> Parse(after)[other] == Parse(lines)[other]
    {
      RemovalKeepsLastRead(lines, user, other);
      ParseIsLastRead(lines, other);
      ParseIsLastRead(after, other);
    }
    if Strays(lines, user) == [] {
      assert Parse(after) == Parse(lines) - {user};
    }
  }

  /** On a file as the server writes it removal is map removal, and such a file it stays. */
  lemma RemoveOnWrittenFile(lines: seq<string>, user: string)
    requires Clean(lines) && OneLineEach(lines) && PlainName(user)
    ensures Parse(WithoutUser(lines, user)) == Parse(lines) - {user}
    ensures Clean(WithoutUser(lines, user)) && OneLineEach(WithoutUser(lines, user))
  {
    NoStrays(lines, user);
    RemoveIsMapRemoval(lines, user);
    WithoutUserKeeps(lines, user);
    hide WithoutUser, Parse, Strip, BelongsTo;
  }

  /** A file with a line of user a that starts with a blank. */
  function StrayLineOfA(): seq<string> {
    [" a:1"]
  }

  /** The reader gives a a password from it, and removing a leaves it there. */
  lemma RemovalMayLeaveTheUser()
    ensures Parse(StrayLineOfA()) == map["a" := "1"]
    ensures Parse(WithoutUser(StrayLineOfA(), "a")) == map["a" := "1"]
  {
    var line, bare := " a:1", "a:1";
    assert line[1..] == bare && IsSpace(' ') && !IsSpace('a') && !IsSpace('1');
    assert StripLeft(line) == StripLeft(bare) == bare;
    assert Strip(line) == bare;
    assert bare == Entry("a", "1");
    EntryParts("a", "1");
    assert !BelongsTo(line, "a") by {
      assert line[0] != ("a" + ":")[0];
    }
    assert WithoutUser([line], "a") == [line] + WithoutUser([line][1..], "a") == [line];
    assert [line][..0] == [] && Parse([]) == map[];
  }

  lemma UserAfterRemoval(lines: seq<string>, user: string)
    ensures user in Parse(WithoutUser(lines, user)) <==> Strays(lines, user) != []
  {
    hide *;
    var after := WithoutUser(lines, user);
    StraysAre(lines, user);
    WithoutUserKeeps(lines, user);
    ParseIsLastRead(after, user);
    LastReadIsOne(after, user);
    if Strays(lines, user) != [] {
      assert Strays(lines, user)[0] in Strays(lines, user);
    }
    if l :| l in after && ReadsAs(l, user) {
      assert l in Strays(lines, user);
    }
  }

  lemma {:induction false} WithoutUserKeeps(lines: seq<string>, user: string)
    ensures forall l :: l in WithoutUser(lines, user) <==> l in lines && !BelongsTo(l, user)
  {
    if lines != [] {
      WithoutUserKeeps(lines[1..], user);
      assert lines == [lines[0]] + lines[1..];
    }
  }

  lemma {:induction false} RemovalKeepsLastRead(lines: seq<string>, user: string, other: string)
    requires PlainName(user) && other != user
    ensures LastRead(WithoutUser(lines, user), other) == LastRead(lines, other)
    decreases |lines|
  {
    if lines != [] {
      var front, last := lines[..|lines| - 1], lines[|lines| - 1];
      assert lines == front + [last];
      RemovalKeepsLastRead(front, user, other);
      WithoutUserAppend(front, last, user);
      var kept := WithoutUser(front, user);
      if BelongsTo(last, user) {
        OwnLineReadsAsOwn(last, user);
        assert kept + [] == kept;
      } else {
        assert (kept + [last])[..|kept|] == kept;
      }
    }
  }

  lemma ParseLast(front: seq<string>, last: string)
    requires Strip(last) == last
    ensures ':' in last ==> Parse(front + [last]) == Parse(front)[UserOf(last) := HashOf(last)]
    ensures ':' !in last ==> Parse(front + [last]) == Parse(front)
  {
    assert (front + [last])[..|front|] == front;
  }

  lemma {:induction false} ParsedUsersArePlain(lines: seq<string>)
    ensures forall u :: u in Parse(lines) ==> ':' !in u
    decreases |lines|
  {
    if lines != [] {
      var last := lines[|lines| - 1];
      ParsedUsersArePlain(lines[..|lines| - 1]);
      if ':' in last {
        LineParts(Strip(last));
      }
    }
  }
}
