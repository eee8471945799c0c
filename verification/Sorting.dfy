/** Python's `sorted`: a stable sort by a total preorder, and the order of strings. */
module Sorting {

  ghost predicate TotalPreorder<T(!new)>(leq: (T, T) -> bool) {
    && (forall x, y :: leq(x, y) || leq(y, x))
    && (forall x, y, z :: leq(x, y) && leq(y, z) ==> leq(x, z))
  }

  ghost predicate SortedBy<T>(s: seq<T>, leq: (T, T) -> bool) {
    forall i, j :: 0 <= i < j < |s| ==> leq(s[i], s[j])
  }

  function Insert<T>(x: T, s: seq<T>, leq: (T, T) -> bool): seq<T> {
    if s == [] || leq(x, s[0]) then [x] + s else [s[0]] + Insert(x, s[1..], leq)
  }

  function Sort<T>(s: seq<T>, leq: (T, T) -> bool): seq<T> {
    if s == [] then [] else Insert(s[0], Sort(s[1..], leq), leq)
  }

  lemma {:induction false} InsertPermutes<T>(x: T, s: seq<T>, leq: (T, T) -> bool)
    ensures multiset(Insert(x, s, leq)) == multiset(s) + multiset{x}
  {
    if s != [] && !leq(x, s[0]) {
      InsertPermutes(x, s[1..], leq);
      assert s == [s[0]] + s[1..];
    }
  }

  lemma {:induction false} SortPermutes<T>(s: seq<T>, leq: (T, T) -> bool)
    ensures multiset(Sort(s, leq)) == multiset(s)
    ensures |Sort(s, leq)| == |s|
  {
    if s != [] {
      SortPermutes(s[1..], leq);
      InsertPermutes(s[0], Sort(s[1..], leq), leq);
      assert s == [s[0]] + s[1..];
    }
    assert |multiset(Sort(s, leq))| == |Sort(s, leq)|;
  }

  lemma SameMultisetSameMembers<T>(s: seq<T>, t: seq<T>)
    requires multiset(s) == multiset(t)
    ensures |s| == |t|
    ensures forall x :: x in s <==> x in t
  {
    assert |s| == |multiset(s)| == |multiset(t)| == |t|;
    forall x
      ensures x in s <==> x in t
    {
      assert x in s <==> x in multiset(s);
      assert x in t <==> x in multiset(t);
    }
  }

  lemma {:induction false} InsertSorts<T(!new)>(x: T, s: seq<T>, leq: (T, T) -> bool)
    requires TotalPreorder(leq) && SortedBy(s, leq)
    ensures SortedBy(Insert(x, s, leq), leq)
  {
    if s != [] {
      if leq(x, s[0]) {
        forall j | 0 <= j < |s|
          ensures leq(x, s[j])
        {
          assert j > 0 ==> leq(s[0], s[j]);
        }
      } else {
        InsertSorts(x, s[1..], leq);
        var tail := Insert(x, s[1..], leq);
        InsertPermutes(x, s[1..], leq);
        SameMultisetSameMembers(tail, [x] + s[1..]);
        forall j | 0 <= j < |tail|
          ensures leq(s[0], tail[j])
        {
          assert tail[j] in [x] + s[1..];
        }
      }
    }
  }

  lemma {:induction false} SortSorts<T(!new)>(s: seq<T>, leq: (T, T) -> bool)
    requires TotalPreorder(leq)
    ensures SortedBy(Sort(s, leq), leq)
  {
    if s != [] {
      SortSorts(s[1..], leq);
      InsertSorts(s[0], Sort(s[1..], leq), leq);
    }
  }

  /** Elements of the sequence that the order does not tell apart are equal. */
  ghost predicate Separates<T(!new)>(s: seq<T>, leq: (T, T) -> bool) {
    forall x, y :: x in s && y in s && leq(x, y) && leq(y, x) ==> x == y
  }

  ghost predicate Reflexive<T(!new)>(leq: (T, T) -> bool) {
    forall x :: leq(x, x)
  }

  lemma HeadIsLeast<T(!new)>(s: seq<T>, leq: (T, T) -> bool, x: T)
    requires Reflexive(leq) && SortedBy(s, leq) && x in s
    ensures leq(s[0], x)
  {
  }

  lemma TailMultiset<T>(s: seq<T>)
    requires s != []
    ensures multiset(s[1..]) == multiset(s) - multiset{s[0]}
  {
    assert s == [s[0]] + s[1..];
  }

  /** Two sorted arrangements of the same elements are the same sequence. */
  lemma {:induction false} SortedUnique<T(!new)>(s: seq<T>, t: seq<T>, leq: (T, T) -> bool)
    requires Reflexive(leq) && SortedBy(s, leq) && SortedBy(t, leq)
    requires multiset(s) == multiset(t) && Separates(s, leq)
    ensures s == t
  {
    SameMultisetSameMembers(s, t);
    if s != [] {
      HeadIsLeast(s, leq, t[0]);
      HeadIsLeast(t, leq, s[0]);
      assert s[0] == t[0];
      TailMultiset(s);
      TailMultiset(t);
      SortedUnique(s[1..], t[1..], leq);
      assert s == [s[0]] + s[1..] && t == [t[0]] + t[1..];
    }
  }

  /** Sorting forgets the order of its input, as long as the order separates its elements. */
  lemma SortOrderIndependent<T(!new)>(s: seq<T>, t: seq<T>, leq: (T, T) -> bool)
    requires TotalPreorder(leq) && multiset(s) == multiset(t) && Separates(s, leq)
    ensures Sort(s, leq) == Sort(t, leq)
  {
    SortSorts(s, leq);
    SortSorts(t, leq);
    SortPermutes(s, leq);
    SortPermutes(t, leq);
    SameMultisetSameMembers(Sort(s, leq), s);
    SortedUnique(Sort(s, leq), Sort(t, leq), leq);
  }

  // ---------------------------------------------------------------- strings

  /** Python's `a <= b` on strings, by code point. */
  predicate StringLeq(a: string, b: string) {
    a == "" || (b != "" && (a[0] < b[0] || (a[0] == b[0] && StringLeq(a[1..], b[1..]))))
  }

  const STRING_LEQ := (a: string, b: string) => StringLeq(a, b)

  lemma {:induction false} StringLeqTotal(a: string, b: string)
    ensures StringLeq(a, b) || StringLeq(b, a)
  {
    if a != "" && b != "" && a[0] == b[0] {
      StringLeqTotal(a[1..], b[1..]);
    }
  }

  lemma {:induction false} StringLeqTransitive(a: string, b: string, c: string)
    requires StringLeq(a, b) && StringLeq(b, c)
    ensures StringLeq(a, c)
  {
    if a != "" && a[0] == b[0] && b[0] == c[0] {
      StringLeqTransitive(a[1..], b[1..], c[1..]);
    }
  }

  lemma {:induction false} StringLeqAntisymmetric(a: string, b: string)
    requires StringLeq(a, b) && StringLeq(b, a)
    ensures a == b
  {
    if a != "" {
      StringLeqAntisymmetric(a[1..], b[1..]);
      assert a == [a[0]] + a[1..] && b == [b[0]] + b[1..];
    }
  }

  lemma StringOrder()
    ensures TotalPreorder(STRING_LEQ)
    ensures forall s: seq<string> :: Separates(s, STRING_LEQ)
  {
    forall a: string, b: string
      ensures STRING_LEQ(a, b) || STRING_LEQ(b, a)
    {
      StringLeqTotal(a, b);
    }
    forall a: string, b: string, c: string | STRING_LEQ(a, b) && STRING_LEQ(b, c)
      ensures STRING_LEQ(a, c)
    {
      StringLeqTransitive(a, b, c);
    }
    forall a: string, b: string | STRING_LEQ(a, b) && STRING_LEQ(b, a)
      ensures a == b
    {
      StringLeqAntisymmetric(a, b);
    }
  }

  function SortStrings(s: seq<string>): seq<string> {
    Sort(s, STRING_LEQ)
  }

  lemma SortStringsIsSort(s: seq<string>)
    ensures SortedBy(SortStrings(s), STRING_LEQ)
    ensures multiset(SortStrings(s)) == multiset(s)
    ensures |SortStrings(s)| == |s|
    ensures forall x :: x in SortStrings(s) <==> x in s
  {
    StringOrder();
    SortSorts(s, STRING_LEQ);
    SortPermutes(s, STRING_LEQ);
    SameMultisetSameMembers(SortStrings(s), s);
  }
}
