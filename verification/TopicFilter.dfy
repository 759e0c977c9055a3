/** Topic names and topic filters, section 4.7 of OASIS MQTT 3.1.1. */
module TopicFilter {

  function Split(s: string): seq<string>
    ensures Split(s) != []
  {
    if s == [] then [""]
    else
      var rest := Split(s[1..]);
      if s[0] == '/' then [""] + rest
      else [[s[0]] + rest[0]] + rest[1..]
  }

  function Join(levels: seq<string>): string
    requires levels != []
  {
    if |levels| == 1 then levels[0] else levels[0] + "/" + Join(levels[1..])
  }

  predicate IsLevel(s: string) {
    '/' !in s
  }

  lemma {:induction false} SplitLevel(a: string)
    requires IsLevel(a)
    ensures Split(a) == [a]
  {
    if a != [] {
      assert IsLevel(a[1..]);
      SplitLevel(a[1..]);
      assert [a[0]] + a[1..] == a;
    }
  }

  lemma {:induction false} SplitFirst(a: string, b: string)
    requires IsLevel(a)
    ensures Split(a + "/" + b) == [a] + Split(b)
  {
    var s := a + "/" + b;
    if a == [] {
      assert s[1..] == b;
    } else {
      assert IsLevel(a[1..]);
      SplitFirst(a[1..], b);
      assert s[1..] == a[1..] + "/" + b;
      assert [a[0]] + a[1..] == a;
    }
  }

  /** Levels joined with slashes come apart again. */
  lemma {:induction false} SplitJoin(levels: seq<string>)
    requires levels != [] && forall l :: l in levels ==> IsLevel(l)
    ensures Split(Join(levels)) == levels
  {
    if |levels| == 1 {
      SplitLevel(levels[0]);
    } else {
      SplitJoin(levels[1..]);
      SplitFirst(levels[0], Join(levels[1..]));
    }
  }

  // -- matching ---------------------------------------------------------------------

  predicate LevelsMatch(f: seq<string>, t: seq<string>) {
    if f == [] then t == []
    else if f[0] == "#" then |f| == 1
    else t != [] && (f[0] == "+" || f[0] == t[0]) && LevelsMatch(f[1..], t[1..])
  }

  /** A filter that starts with a wildcard does not match a topic that starts with $. */
  predicate Matches(filter: string, topic: string) {
    && LevelsMatch(Split(filter), Split(topic))
    && !((Split(filter)[0] == "#" || Split(filter)[0] == "+") && topic != [] && topic[0] == '$')
  }

  /** Topic levels `t` start with the levels `p`, where "+" stands for any one level. */
  predicate Starts(p: seq<string>, t: seq<string>) {
    |p| <= |t| && forall i :: 0 <= i < |p| ==> p[i] == "+" || p[i] == t[i]
  }

  predicate NoHash(p: seq<string>) {
    forall i :: 0 <= i < |p| ==> p[i] != "#"
  }

  lemma StartsStep(p: seq<string>, t: seq<string>)
    requires p != [] && t != []
    ensures Starts(p, t) <==> (p[0] == "+" || p[0] == t[0]) && Starts(p[1..], t[1..])
  {
    if (p[0] == "+" || p[0] == t[0]) && Starts(p[1..], t[1..]) {
      forall i | 0 <= i < |p| ensures p[i] == "+" || p[i] == t[i] {
        if i > 0 {
          assert p[i] == p[1..][i - 1] && t[i] == t[1..][i - 1];
        }
      }
    }
  }

  lemma {:induction false} MatchWithoutHash(p: seq<string>, t: seq<string>)
    requires NoHash(p)
    ensures LevelsMatch(p, t) <==> |p| == |t| && Starts(p, t)
  {
    if p != [] && t != [] {
      MatchWithoutHash(p[1..], t[1..]);
      StartsStep(p, t);
    }
  }

  lemma {:induction false} MatchWithHash(p: seq<string>, t: seq<string>)
    requires NoHash(p)
    ensures LevelsMatch(p + ["#"], t) <==> Starts(p, t)
  {
    if p != [] {
      assert (p + ["#"])[1..] == p[1..] + ["#"];
      if t != [] {
        MatchWithHash(p[1..], t[1..]);
        StartsStep(p, t);
      }
    }
  }

  /** A filter p/# below a fixed first level grants exactly the topics that start with p. */
  lemma SubtreeFilter(p: seq<string>, topic: string)
    requires p != [] && NoHash(p) && p[0] != "+" && forall l :: l in p ==> IsLevel(l)
    ensures Matches(Join(p + ["#"]), topic) <==> Starts(p, Split(topic))
  {
    SplitJoin(p + ["#"]);
    MatchWithHash(p, Split(topic));
  }

  lemma ExactFilter(p: seq<string>, topic: string)
    requires p != [] && NoHash(p) && p[0] != "+" && forall l :: l in p ==> IsLevel(l)
    ensures Matches(Join(p), topic) <==> |p| == |Split(topic)| && Starts(p, Split(topic))
  {
    SplitJoin(p);
    MatchWithoutHash(p, Split(topic));
  }
}
