/** Facts about sequences that several components rely on. */
module Seqs {
  ghost predicate NoDup<T(!new)>(s: seq<T>) {
    forall i, j :: 0 <= i < j < |s| ==> s[i] != s[j]
  }

  function Elements<T(==)>(s: seq<T>): set<T> {
    set x | x in s
  }

  /** A sequence has as many distinct elements as positions exactly when it holds no duplicate. */
  lemma {:induction false} NoDupCardinality<T(!new)>(s: seq<T>)
    ensures |Elements(s)| <= |s|
    ensures NoDup(s) <==> |Elements(s)| == |s|
  {
    if s != [] {
      var n := |s| - 1;
      var init, last := s[..n], s[n];
      NoDupCardinality(init);
      assert Elements(s) == Elements(init) + {last};
      if last in init {
        var k :| 0 <= k < n && s[k] == last;
        assert Elements(s) == Elements(init);
        assert !NoDup(s);
      } else {
        if NoDup(init) {
          assert NoDup(s);
        } else {
          var i, j :| 0 <= i < j < n && init[i] == init[j];
          assert s[i] == s[j];
        }
      }
    }
  }

  /** No duplicate means that nothing is counted twice. */
  lemma {:induction false} NoDupIsSingleCount<T(!new)>(a: seq<T>)
    ensures NoDup(a) <==> forall x :: multiset(a)[x] <= 1
  {
    if a != [] {
      var n := |a| - 1;
      NoDupIsSingleCount(a[..n]);
      assert a == a[..n] + [a[n]];
      if NoDup(a) {
        assert NoDup(a[..n]) && a[n] !in a[..n];
      } else if NoDup(a[..n]) {
        var i, j :| 0 <= i < j < |a| && a[i] == a[j];
        assert j == n && a[n] in a[..n];
        assert multiset(a)[a[n]] > 1;
      } else {
        var x :| multiset(a[..n])[x] > 1;
        assert multiset(a)[x] > 1;
      }
    }
  }

  lemma SubsetCardinality<T>(a: set<T>, b: set<T>)
    requires a <= b
    ensures |a| <= |b|
    ensures |a| == |b| ==> a == b
  {
    assert b == a + (b - a);
    if |a| == |b| {
      assert |b - a| == 0;
    }
  }

  /** The elements of `s` that satisfy `p`, in order. */
  function Filter<T>(s: seq<T>, p: T -> bool): seq<T> {
    if s == [] then []
    else Filter(s[..|s| - 1], p) + if p(s[|s| - 1]) then [s[|s| - 1]] else []
  }

  lemma {:induction false} FilterMembers<T>(s: seq<T>, p: T -> bool, x: T)
    ensures x in Filter(s, p) <==> x in s && p(x)
  {
    if s != [] {
      FilterMembers(s[..|s| - 1], p, x);
      assert s == s[..|s| - 1] + [s[|s| - 1]];
    }
  }

  lemma {:induction false} FilterAgrees<T>(s: seq<T>, p: T -> bool, q: T -> bool)
    requires forall x :: x in s ==> p(x) == q(x)
    ensures Filter(s, p) == Filter(s, q)
  {
    if s != [] {
      assert s[|s| - 1] in s;
      FilterAgrees(s[..|s| - 1], p, q);
    }
  }

  lemma {:induction false} FilterNone<T>(s: seq<T>, p: T -> bool)
    requires forall i :: 0 <= i < |s| ==> !p(s[i])
    ensures Filter(s, p) == []
  {
    if s != [] {
      FilterNone(s[..|s| - 1], p);
    }
  }

  lemma {:induction false} FilterAll<T>(s: seq<T>, p: T -> bool)
    requires forall i :: 0 <= i < |s| ==> p(s[i])
    ensures Filter(s, p) == s
  {
    if s != [] {
      FilterAll(s[..|s| - 1], p);
    }
  }

  lemma {:induction false} FilterSingle<T>(s: seq<T>, p: T -> bool, k: nat)
    requires k < |s| && forall i :: 0 <= i < |s| ==> (p(s[i]) <==> i == k)
    ensures Filter(s, p) == [s[k]]
  {
    var n := |s| - 1;
    if k == n {
      FilterNone(s[..n], p);
    } else {
      FilterSingle(s[..n], p, k);
    }
  }

  /** How many elements of `s` satisfy `p`. */
  function Count<T>(s: seq<T>, p: T -> bool): nat {
    if s == [] then 0 else Count(s[..|s| - 1], p) + if p(s[|s| - 1]) then 1 else 0
  }

  lemma {:induction false} CountAppend<T>(s: seq<T>, t: seq<T>, p: T -> bool)
    ensures Count(s + t, p) == Count(s, p) + Count(t, p)
  {
    if t == [] {
      assert s + t == s;
    } else {
      var n := |t| - 1;
      CountAppend(s, t[..n], p);
      assert (s + t)[..|s + t| - 1] == s + t[..n];
    }
  }

  lemma {:induction false} CountBounds<T(!new)>(s: seq<T>, p: T -> bool)
    ensures Count(s, p) <= |s|
    ensures Count(s, p) > 0 <==> exists x :: x in s && p(x)
  {
    if s != [] {
      var n := |s| - 1;
      CountBounds(s[..n], p);
      assert s == s[..n] + [s[n]];
    }
  }

  /** Concatenation of a sequence of sequences. */
  function Flatten<T>(ss: seq<seq<T>>): seq<T> {
    if ss == [] then [] else Flatten(ss[..|ss| - 1]) + ss[|ss| - 1]
  }

  lemma SplitTwice<T>(s: seq<T>, lo: nat, hi: nat)
    requires lo <= hi <= |s|
    ensures s == s[..lo] + (s[lo..hi] + s[hi..])
  {
  }

  lemma SliceOfSlice<T>(s: seq<T>, start: nat, end: nat, lo: nat, hi: nat)
    requires start <= end <= |s| && lo <= hi <= end - start
    ensures s[start..end][lo..hi] == s[start + lo..start + hi]
  {
    var part := s[start..end];
    forall i | 0 <= i < hi - lo
      ensures part[lo..hi][i] == s[start + lo..start + hi][i]
    {
      assert part[lo + i] == s[start + lo + i];
    }
  }
}
