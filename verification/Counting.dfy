/** Facts about the size of finite sets that several modules count with. */
module Counting {

  lemma {:induction false} SubsetCount<T>(small: set<T>, large: set<T>)
    requires small <= large
    ensures |small| <= |large|
    decreases |small|
  {
    if small != {} {
      var x :| x in small;
      SubsetCount(small - {x}, large - {x});
    }
  }

  lemma {:induction false} DistinctCount<T>(q: seq<T>)
    requires forall i, j :: 0 <= i < j < |q| ==> q[i] != q[j]
    ensures |set x | x in q| == |q|
  {
    if q != [] {
      var front := q[..|q| - 1];
      DistinctCount(front);
      assert (set x | x in q) == (set x | x in front) + {q[|q| - 1]};
    }
  }

  /** Indices between `lo` and `hi` number at most `hi - lo`. */
  lemma {:induction false} SetSpan(ids: set<nat>, lo: nat, hi: nat)
    requires forall i :: i in ids ==> lo <= i < hi
    ensures |ids| <= if lo <= hi then hi - lo else 0
    decreases hi - lo
  {
    if lo < hi {
      SetSpan(ids - {lo}, lo + 1, hi);
      assert |ids| <= |ids - {lo}| + 1;
    } else {
      assert ids == {};
    }
  }

  function Range(lo: nat, hi: nat): set<nat>
    decreases hi - lo
  {
    if lo < hi then {lo} + Range(lo + 1, hi) else {}
  }

  lemma {:induction false} RangeMeans(lo: nat, hi: nat)
    requires lo <= hi
    ensures forall i :: i in Range(lo, hi) <==> lo <= i < hi
    ensures |Range(lo, hi)| == hi - lo
    decreases hi - lo
  {
    if lo < hi {
      RangeMeans(lo + 1, hi);
    }
  }

  lemma {:induction false} FirstAndLast(ids: set<nat>) returns (lo: nat, hi: nat)
    requires ids != {}
    ensures lo in ids && hi in ids && forall i :: i in ids ==> lo <= i <= hi
    decreases |ids|
  {
    var x :| x in ids;
    lo, hi := x, x;
    if ids - {x} != {} {
      var l, h := FirstAndLast(ids - {x});
      lo, hi := if x < l then x else l, if x > h then x else h;
      assert forall i :: i in ids ==> i == x || i in ids - {x};
    }
  }

  // -- sums over sets --------------------------------------------------------------

  ghost function Sum<T(!new)>(s: set<T>, f: T -> nat): nat
    decreases |s|
  {
    if s == {} then 0
    else
      var x :| x in s;
      f(x) + Sum(s - {x}, f)
  }

  /** The sum does not depend on the order in which elements are picked. */
  lemma {:induction false} SumPick<T(!new)>(s: set<T>, f: T -> nat, x: T)
    requires x in s
    ensures Sum(s, f) == f(x) + Sum(s - {x}, f)
    decreases |s|
  {
    var y :| y in s && Sum(s, f) == f(y) + Sum(s - {y}, f);
    if x != y {
      SumPick(s - {y}, f, x);
      SumPick(s - {x}, f, y);
      assert s - {y} - {x} == s - {x} - {y};
    }
  }

  lemma SumGrow<T(!new)>(s: set<T>, f: T -> nat, x: T)
    requires x !in s
    ensures Sum(s + {x}, f) == Sum(s, f) + f(x)
  {
    SumPick(s + {x}, f, x);
    assert s + {x} - {x} == s;
  }

  lemma {:induction false} SumAtMostSize<T(!new)>(s: set<T>, f: T -> nat)
    requires forall x :: x in s ==> f(x) <= 1
    ensures Sum(s, f) <= |s|
    decreases |s|
  {
    if s != {} {
      var x :| x in s;
      SumPick(s, f, x);
      SumAtMostSize(s - {x}, f);
    }
  }

  function Ones<T>(s: set<T>, f: T -> nat): set<T> {
    set x | x in s && f(x) == 1
  }

  lemma OnesStep<T(!new)>(s: set<T>, f: T -> nat, x: T)
    requires x in s && f(x) <= 1
    ensures |Ones(s, f)| == |Ones(s - {x}, f)| + f(x)
  {
    var fewer := Ones(s - {x}, f);
    assert x !in fewer;
    assert Ones(s, f) == if f(x) == 1 then fewer + {x} else fewer;
  }

  /** A sum of zeros and ones counts the ones. */
  lemma {:induction false} SumIsCount<T(!new)>(s: set<T>, f: T -> nat)
    requires forall x :: x in s ==> f(x) <= 1
    ensures Sum(s, f) == |Ones(s, f)|
    decreases |s|
  {
    if s != {} {
      var x :| x in s;
      SumPick(s, f, x);
      OnesStep(s, f, x);
      hide Sum, Ones;
      SumIsCount(s - {x}, f);
    } else {
      assert Ones(s, f) == {};
    }
  }
}
