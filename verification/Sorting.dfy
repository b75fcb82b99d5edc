/** Sorting as a specification: a sorted arrangement of given values is unique. */
module Sorting {

  ghost predicate TotalOrder<T(!new)>(leq: (T, T) -> bool) {
    && (forall a, b :: leq(a, b) || leq(b, a))
    && (forall a, b :: leq(a, b) && leq(b, a) ==> a == b)
    && (forall a, b, c :: leq(a, b) && leq(b, c) ==> leq(a, c))
  }

  predicate SortedBy<T>(leq: (T, T) -> bool, s: seq<T>) {
    forall i, j :: 0 <= i < j < |s| ==> leq(s[i], s[j])
  }

  function Insert<T>(leq: (T, T) -> bool, x: T, s: seq<T>): seq<T> {
    if s == [] || leq(x, s[0]) then [x] + s else [s[0]] + Insert(leq, x, s[1..])
  }

  function Sort<T>(leq: (T, T) -> bool, s: seq<T>): seq<T> {
    if s == [] then [] else Insert(leq, s[0], Sort(leq, s[1..]))
  }

  // A value below every element may stand in front.
  lemma SortedCons<T(!new)>(leq: (T, T) -> bool, head: T, rest: seq<T>)
    requires SortedBy(leq, rest) && forall x :: x in multiset(rest) ==> leq(head, x)
    ensures SortedBy(leq, [head] + rest)
  {
    assert forall k :: 0 <= k < |rest| ==> rest[k] in multiset(rest);
  }

  lemma BelowFirst<T(!new)>(leq: (T, T) -> bool, x: T, s: seq<T>)
    requires TotalOrder(leq) && SortedBy(leq, s) && s != [] && leq(x, s[0])
    ensures forall y :: y in multiset(s) ==> leq(x, y)
  {
    forall y | y in multiset(s) ensures leq(x, y) {
      var i :| 0 <= i < |s| && s[i] == y;
      assert i > 0 ==> leq(s[0], s[i]);
    }
  }

  lemma Comparable<T(!new)>(leq: (T, T) -> bool, a: T, b: T)
    requires TotalOrder(leq)
    ensures leq(a, b) || leq(b, a)
    ensures leq(a, a)
  {}

  lemma TailSorted<T>(leq: (T, T) -> bool, s: seq<T>)
    requires SortedBy(leq, s) && s != []
    ensures SortedBy(leq, s[1..]) && forall y :: y in multiset(s[1..]) ==> leq(s[0], y)
  {}

  lemma {:induction false} InsertSorts<T(!new)>(leq: (T, T) -> bool, x: T, s: seq<T>)
    requires TotalOrder(leq) && SortedBy(leq, s)
    ensures SortedBy(leq, Insert(leq, x, s))
    ensures multiset(Insert(leq, x, s)) == multiset(s) + multiset{x}
  {
    hide TotalOrder, SortedBy;
    if s == [] {
      EmptySorted(leq, s);
      SortedCons(leq, x, s);
    } else if leq(x, s[0]) {
      BelowFirst(leq, x, s);
      SortedCons(leq, x, s);
    } else {
      TailSorted(leq, s);
      InsertSorts(leq, x, s[1..]);
      HeadAside(s);
      Comparable(leq, x, s[0]);
      SortedCons(leq, s[0], Insert(leq, x, s[1..]));
    }
  }

  lemma EmptySorted<T>(leq: (T, T) -> bool, s: seq<T>)
    requires s == []
    ensures SortedBy(leq, s)
  {}

  lemma {:induction false} SortSorts<T(!new)>(leq: (T, T) -> bool, s: seq<T>)
    requires TotalOrder(leq)
    ensures SortedBy(leq, Sort(leq, s)) && multiset(Sort(leq, s)) == multiset(s)
  {
    if s != [] {
      SortSorts(leq, s[1..]);
      InsertSorts(leq, s[0], Sort(leq, s[1..]));
      assert s == [s[0]] + s[1..];
    }
  }

  lemma HeadAside<T>(s: seq<T>)
    requires s != []
    ensures s == [s[0]] + s[1..] && multiset(s[1..]) == multiset(s) - multiset{s[0]}
  {
    assert s == [s[0]] + s[1..];
  }

  // The first of a sorted sequence is below every value of an arrangement of it.
  lemma LeastFirst<T(!new)>(leq: (T, T) -> bool, a: seq<T>, b: seq<T>)
    requires TotalOrder(leq) && SortedBy(leq, a) && multiset(a) == multiset(b) && a != [] && b != []
    ensures leq(a[0], b[0])
  {
    assert b[0] in multiset(b);
    var i :| 0 <= i < |a| && a[i] == b[0];
  }

  /** Two sorted arrangements of the same values are the same sequence. */
  lemma {:induction false} SortedUnique<T(!new)>(leq: (T, T) -> bool, a: seq<T>, b: seq<T>)
    requires TotalOrder(leq) && SortedBy(leq, a) && SortedBy(leq, b)
    requires multiset(a) == multiset(b)
    ensures a == b
  {
    assert |a| == |multiset(a)| == |multiset(b)| == |b|;
    if a != [] {
      LeastFirst(leq, a, b);
      LeastFirst(leq, b, a);
      HeadAside(a);
      HeadAside(b);
      SortedUnique(leq, a[1..], b[1..]);
    }
  }

  // ---------- the orders used ----------

  predicate TextLeq(a: string, b: string) {
    if a == "" then true
    else if b == "" then false
    else a[0] < b[0] || (a[0] == b[0] && TextLeq(a[1..], b[1..]))
  }

  lemma {:induction false} TextLeqTotal(a: string, b: string)
    ensures TextLeq(a, b) || TextLeq(b, a)
    ensures TextLeq(a, b) && TextLeq(b, a) ==> a == b
  {
    if a != "" && b != "" {
      TextLeqTotal(a[1..], b[1..]);
      assert a == [a[0]] + a[1..] && b == [b[0]] + b[1..];
    }
  }

  lemma {:induction false} TextLeqTransitive(a: string, b: string, c: string)
    requires TextLeq(a, b) && TextLeq(b, c)
    ensures TextLeq(a, c)
  {
    if a != "" && b != "" && c != "" && a[0] == b[0] == c[0] {
      TextLeqTransitive(a[1..], b[1..], c[1..]);
    }
  }

  lemma TextOrder()
    ensures TotalOrder(TextLeq)
  {
    forall a, b
      ensures (TextLeq(a, b) || TextLeq(b, a)) && (TextLeq(a, b) && TextLeq(b, a) ==> a == b)
    {
      TextLeqTotal(a, b);
    }
    forall a, b, c | TextLeq(a, b) && TextLeq(b, c)
      ensures TextLeq(a, c)
    {
      TextLeqTransitive(a, b, c);
    }
  }

  /** Texts that first differ at position k are ordered by their characters there. */
  lemma {:induction false} TextDiffers(a: string, b: string, k: nat)
    requires k < |a| && k < |b| && a[..k] == b[..k] && a[k] < b[k]
    ensures TextLeq(a, b) && !TextLeq(b, a)
  {
    if k > 0 {
      assert a[0] == a[..k][0] == b[..k][0] == b[0];
      assert a[1..][..k - 1] == a[..k][1..] && b[1..][..k - 1] == b[..k][1..];
      TextDiffers(a[1..], b[1..], k - 1);
    }
  }

  predicate IntLeq(a: int, b: int) {
    a <= b
  }

  lemma IntOrder()
    ensures TotalOrder(IntLeq)
  {}
}
