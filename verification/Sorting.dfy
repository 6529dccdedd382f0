/** Sorting by a strict total order, and why any correct sort gives the same list. */
module Sorting {

  /** Of two different elements exactly one comes first, and coming first is transitive. */
  ghost predicate StrictOrder<T(!new)>(before: (T, T) -> bool) {
    && (forall x, y :: x != y ==> before(x, y) != before(y, x))
    && (forall x :: !before(x, x))
    && (forall x, y, z :: before(x, y) && before(y, z) ==> before(x, z))
  }

  predicate Sorted<T>(s: seq<T>, before: (T, T) -> bool) {
    forall i, j :: 0 <= i < j < |s| ==> before(s[i], s[j])
  }

  predicate Distinct<T(==)>(s: seq<T>) {
    forall i, j :: 0 <= i < j < |s| ==> s[i] != s[j]
  }

  function Insert<T>(x: T, s: seq<T>, before: (T, T) -> bool): seq<T> {
    if s == [] || before(x, s[0]) then [x] + s else [s[0]] + Insert(x, s[1..], before)
  }

  function Sort<T>(s: seq<T>, before: (T, T) -> bool): seq<T> {
    if s == [] then [] else Insert(s[0], Sort(s[1..], before), before)
  }

  lemma {:induction false} InsertElements<T>(x: T, s: seq<T>, before: (T, T) -> bool)
    ensures multiset(Insert(x, s, before)) == multiset(s) + multiset{x}
  {
    if s != [] && !before(x, s[0]) {
      InsertElements(x, s[1..], before);
      assert s == [s[0]] + s[1..];
    }
  }

  lemma {:induction false} SortElements<T>(s: seq<T>, before: (T, T) -> bool)
    ensures multiset(Sort(s, before)) == multiset(s)
  {
    if s != [] {
      SortElements(s[1..], before);
      InsertElements(s[0], Sort(s[1..], before), before);
      assert s == [s[0]] + s[1..];
    }
  }

  lemma MemberOfBoth<T>(s: seq<T>, t: seq<T>, x: T)
    requires multiset(s) == multiset(t) && x in s
    ensures x in t
  {
    assert x in multiset(s);
  }

  lemma {:induction false} InsertSorted<T(!new)>(x: T, s: seq<T>, before: (T, T) -> bool)
    requires StrictOrder(before) && Sorted(s, before) && x !in s
    ensures Sorted(Insert(x, s, before), before)
  {
    if s != [] && !before(x, s[0]) {
      InsertSorted(x, s[1..], before);
      var t := Insert(x, s[1..], before);
      InsertElements(x, s[1..], before);
      forall k | 0 <= k < |t|
        ensures before(s[0], t[k])
      {
        assert t[k] in multiset(t);
        assert t[k] in s[1..] || t[k] == x;
      }
    }
  }

  lemma {:induction false} SortSorts<T(!new)>(s: seq<T>, before: (T, T) -> bool)
    requires StrictOrder(before) && Distinct(s)
    ensures Sorted(Sort(s, before), before)
  {
    if s != [] {
      SortSorts(s[1..], before);
      SortElements(s[1..], before);
      assert s[0] !in s[1..];
      if s[0] in Sort(s[1..], before) {
        MemberOfBoth(Sort(s[1..], before), s[1..], s[0]);
      }
      InsertSorted(s[0], Sort(s[1..], before), before);
    }
  }

  /** Nothing stands before what should come first, repeated elements or not. */
  predicate NeverReversed<T>(s: seq<T>, before: (T, T) -> bool) {
    forall i, j :: 0 <= i < j < |s| ==> !before(s[j], s[i])
  }

  lemma {:induction false} InsertNeverReverses<T(!new)>(x: T, s: seq<T>, before: (T, T) -> bool)
    requires StrictOrder(before) && NeverReversed(s, before)
    ensures NeverReversed(Insert(x, s, before), before)
  {
    if s == [] {
    } else if before(x, s[0]) {
      forall j | 0 <= j < |s|
        ensures !before(s[j], x)
      {
        assert j > 0 ==> !before(s[j], s[0]);
      }
    } else {
      InsertNeverReverses(x, s[1..], before);
      var t := Insert(x, s[1..], before);
      InsertElements(x, s[1..], before);
      forall k | 0 <= k < |t|
        ensures !before(t[k], s[0])
      {
        assert t[k] in multiset(t);
        if t[k] != x {
          assert t[k] in s[1..];
        }
      }
    }
  }

  lemma {:induction false} SortNeverReverses<T(!new)>(s: seq<T>, before: (T, T) -> bool)
    requires StrictOrder(before)
    ensures NeverReversed(Sort(s, before), before)
  {
    if s != [] {
      SortNeverReverses(s[1..], before);
      InsertNeverReverses(s[0], Sort(s[1..], before), before);
    }
  }

  lemma SortedDistinct<T(!new)>(s: seq<T>, before: (T, T) -> bool)
    requires StrictOrder(before) && Sorted(s, before)
    ensures Distinct(s)
  {
  }

  lemma TailElements<T>(s: seq<T>)
    requires s != []
    ensures multiset(s[1..]) == multiset(s) - multiset{s[0]}
  {
    assert s == [s[0]] + s[1..];
  }

  /** Whatever algorithm sorts, the result is this one. */
  lemma {:induction false} SortedIsUnique<T(!new)>(s: seq<T>, t: seq<T>, before: (T, T) -> bool)
    requires StrictOrder(before) && Sorted(s, before) && Sorted(t, before) && multiset(s) == multiset(t)
    ensures s == t
    decreases |s|
  {
    assert |multiset(s)| == |s| && |multiset(t)| == |t|;
    if s != [] {
      MemberOfBoth(s, t, s[0]);
      MemberOfBoth(t, s, t[0]);
      assert s[0] == t[0];
      TailElements(s);
      TailElements(t);
      SortedIsUnique(s[1..], t[1..], before);
    }
  }
}
