/** Python's `sorted`: a stable sort under a total preorder, and the facts about it
    that make results independent of input order. */
module Sorting {
  ghost predicate TotalPreorder<T(!new)>(le: (T, T) -> bool) {
    && (forall x, y :: le(x, y) || le(y, x))
    && (forall x, y, z :: le(x, y) && le(y, z) ==> le(x, z))
  }

  ghost predicate Sorted<T>(s: seq<T>, le: (T, T) -> bool) {
    forall i, j :: 0 <= i < j < |s| ==> le(s[i], s[j])
  }

  /** No two different elements of `s` share a sort key. */
  ghost predicate DistinctKeys<T>(s: seq<T>, le: (T, T) -> bool) {
    forall x, y :: x in s && y in s && le(x, y) && le(y, x) ==> x == y
  }

  /** Insert in front of the first element that is not smaller, which keeps the sort stable. */
  function Insert<T>(x: T, s: seq<T>, le: (T, T) -> bool): (r: seq<T>)
    ensures multiset(r) == multiset{x} + multiset(s)
  {
    if s == [] then [x]
    else if le(x, s[0]) then [x] + s
    else
      assert s == [s[0]] + s[1..];
      [s[0]] + Insert(x, s[1..], le)
  }

  function SortBy<T>(s: seq<T>, le: (T, T) -> bool): (r: seq<T>)
    ensures multiset(r) == multiset(s)
    ensures |r| == |s|
  {
    if s == [] then []
    else
      assert s == [s[0]] + s[1..];
      var r := Insert(s[0], SortBy(s[1..], le), le);
      assert |multiset(r)| == |r| && |multiset(s)| == |s|;
      r
  }

  lemma SameElements<T>(a: seq<T>, b: seq<T>)
    requires multiset(a) == multiset(b)
    ensures forall x :: x in a <==> x in b
    ensures |a| == |b|
  {
    assert forall x :: x in a <==> x in multiset(a);
    assert forall x :: x in b <==> x in multiset(b);
    assert |multiset(a)| == |a| && |multiset(b)| == |b|;
  }

  lemma TailMultiset<T>(s: seq<T>)
    requires s != []
    ensures multiset(s[1..]) == multiset(s) - multiset{s[0]}
  {
    assert s == [s[0]] + s[1..];
  }

  lemma {:induction false} InsertSorted<T(!new)>(x: T, s: seq<T>, le: (T, T) -> bool)
    requires TotalPreorder(le) && Sorted(s, le)
    ensures Sorted(Insert(x, s, le), le)
  {
    if s != [] && !le(x, s[0]) {
      InsertSorted(x, s[1..], le);
      var r := Insert(x, s[1..], le);
      SameElements(r, [x] + s[1..]);
      forall j | 0 <= j < |r| ensures le(s[0], r[j]) {
        assert r[j] in [x] + s[1..];
      }
    }
  }

  lemma {:induction false} SortBySorted<T(!new)>(s: seq<T>, le: (T, T) -> bool)
    requires TotalPreorder(le)
    ensures Sorted(SortBy(s, le), le)
  {
    if s != [] {
      SortBySorted(s[1..], le);
      InsertSorted(s[0], SortBy(s[1..], le), le);
    }
  }

  lemma HeadIsLeast<T(!new)>(a: seq<T>, x: T, le: (T, T) -> bool)
    requires TotalPreorder(le) && Sorted(a, le) && x in a
    ensures le(a[0], x)
  {
    var i :| 0 <= i < |a| && a[i] == x;
    assert le(x, x);
  }

  /** Two sorted arrangements of the same elements coincide when keys are distinct. */
  lemma {:induction false} SortedUnique<T(!new)>(a: seq<T>, b: seq<T>, le: (T, T) -> bool)
    requires TotalPreorder(le)
    requires multiset(a) == multiset(b)
    requires Sorted(a, le) && Sorted(b, le) && DistinctKeys(a, le)
    ensures a == b
  {
    SameElements(a, b);
    if a != [] {
      HeadIsLeast(a, b[0], le);
      HeadIsLeast(b, a[0], le);
      assert a[0] == b[0];
      TailMultiset(a);
      TailMultiset(b);
      SortedUnique(a[1..], b[1..], le);
    }
  }

  /** Reordering the input does not change the sorted output. */
  lemma SortPermutation<T(!new)>(a: seq<T>, b: seq<T>, le: (T, T) -> bool)
    requires TotalPreorder(le)
    requires multiset(a) == multiset(b) && DistinctKeys(a, le)
    ensures SortBy(a, le) == SortBy(b, le)
  {
    SortBySorted(a, le);
    SortBySorted(b, le);
    SameElements(a, SortBy(a, le));
    SortedUnique(SortBy(a, le), SortBy(b, le), le);
  }

  lemma RemoveAt<T>(a: seq<T>, i: int)
    requires 0 <= i < |a|
    ensures multiset(a[..i] + a[i + 1..]) == multiset(a) - multiset{a[i]}
  {
    assert a == a[..i] + [a[i]] + a[i + 1..];
  }

  /** Two positions of one arrangement have two positions in every other arrangement. */
  lemma TwoPositions<T>(a: seq<T>, b: seq<T>, i: int, j: int) returns (i': int, j': int)
    requires multiset(a) == multiset(b) && 0 <= i < j < |b|
    ensures 0 <= i' < |a| && 0 <= j' < |a| && i' != j' && a[i'] == b[i] && a[j'] == b[j]
  {
    SameElements(a, b);
    assert b[i] in a;
    i' :| 0 <= i' < |a| && a[i'] == b[i];
    var restA, restB := a[..i'] + a[i' + 1..], b[..i] + b[i + 1..];
    RemoveAt(a, i');
    RemoveAt(b, i);
    SameElements(restA, restB);
    assert restB[j - 1] == b[j];
    assert b[j] in restA;
    var k :| 0 <= k < |restA| && restA[k] == b[j];
    j' := if k < i' then k else k + 1;
  }

  ghost predicate Pointwise<T>(a: seq<T>, b: seq<T>, rel: (T, T) -> bool) {
    |a| == |b| && forall i :: 0 <= i < |a| ==> rel(a[i], b[i])
  }

  /** Elements compare by a key that related elements share. */
  ghost predicate Respects<T(!new)>(le: (T, T) -> bool, rel: (T, T) -> bool, key: T -> int) {
    (forall x, y :: le(x, y) == (key(x) <= key(y))) && forall x, y :: rel(x, y) ==> key(x) == key(y)
  }

  lemma PointwiseCons<T>(x: T, y: T, a: seq<T>, b: seq<T>, rel: (T, T) -> bool)
    requires rel(x, y) && Pointwise(a, b, rel)
    ensures Pointwise([x] + a, [y] + b, rel)
  {
  }

  lemma {:induction false} InsertPointwise<T(!new)>(x: T, y: T, a: seq<T>, b: seq<T>, le: (T, T) -> bool, rel: (T, T) -> bool, key: T -> int)
    requires Respects(le, rel, key) && rel(x, y) && Pointwise(a, b, rel)
    ensures Pointwise(Insert(x, a, le), Insert(y, b, le), rel)
  {
    if a == [] || le(x, a[0]) {
      PointwiseCons(x, y, a, b, rel);
    } else {
      InsertPointwise(x, y, a[1..], b[1..], le, rel, key);
      PointwiseCons(a[0], b[0], Insert(x, a[1..], le), Insert(y, b[1..], le), rel);
    }
  }

  /** Sorting two lists of pairwise related elements keeps them related. */
  lemma {:induction false} SortPointwise<T(!new)>(a: seq<T>, b: seq<T>, le: (T, T) -> bool, rel: (T, T) -> bool, key: T -> int)
    requires Respects(le, rel, key) && Pointwise(a, b, rel)
    ensures Pointwise(SortBy(a, le), SortBy(b, le), rel)
  {
    if a != [] {
      SortPointwise(a[1..], b[1..], le, rel, key);
      InsertPointwise(a[0], b[0], SortBy(a[1..], le), SortBy(b[1..], le), le, rel, key);
    }
  }

  lemma {:induction false} CountOfDistinct<T>(a: seq<T>, x: T)
    requires forall i, j :: 0 <= i < j < |a| ==> a[i] != a[j]
    ensures multiset(a)[x] == if x in a then 1 else 0
  {
    if a != [] {
      CountOfDistinct(a[1..], x);
      assert a == [a[0]] + a[1..];
    }
  }

  /** Two lists without repetition that have the same members are rearrangements of each other. */
  lemma SameMembers<T>(a: seq<T>, b: seq<T>)
    requires forall i, j :: 0 <= i < j < |a| ==> a[i] != a[j]
    requires forall i, j :: 0 <= i < j < |b| ==> b[i] != b[j]
    requires (forall x :: x in a ==> x in b) && (forall x :: x in b ==> x in a)
    ensures multiset(a) == multiset(b)
  {
    forall x ensures multiset(a)[x] == multiset(b)[x] {
      CountOfDistinct(a, x);
      CountOfDistinct(b, x);
    }
  }

  lemma EqualCounts<T>(a: multiset<T>, b: multiset<T>)
    requires forall x :: a[x] == b[x]
    ensures a == b
  {
  }

  lemma SameElement<T>(a: seq<T>, b: seq<T>, x: T)
    requires multiset(a) == multiset(b) && x in a
    ensures x in b
  {
    assert x in multiset(a);
  }
}
