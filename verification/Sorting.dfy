/** Stable sorting, as an insertion sort. `notAfter(a, b)` says that `a` may stand before `b`. */
module Sorting {

  ghost predicate Total<T(!new)>(notAfter: (T, T) -> bool) {
    && (forall a, b :: notAfter(a, b) || notAfter(b, a))
    && (forall a, b, c :: notAfter(a, b) && notAfter(b, c) ==> notAfter(a, c))
  }

  ghost predicate Sorted<T>(s: seq<T>, notAfter: (T, T) -> bool) {
    forall i, j :: 0 <= i < j < |s| ==> notAfter(s[i], s[j])
  }

  function Inserted<T>(s: seq<T>, x: T, notAfter: (T, T) -> bool): (r: seq<T>)
    ensures multiset(r) == multiset(s) + multiset{x} && |r| == |s| + 1
  {
    if s == [] || notAfter(s[|s| - 1], x) then s + [x]
    else
      assert s == s[..|s| - 1] + [s[|s| - 1]];
      Inserted(s[..|s| - 1], x, notAfter) + [s[|s| - 1]]
  }

  function Sort<T>(s: seq<T>, notAfter: (T, T) -> bool): (r: seq<T>)
    ensures multiset(r) == multiset(s) && |r| == |s|
  {
    if s == [] then [] else
      assert s == s[..|s| - 1] + [s[|s| - 1]];
      Inserted(Sort(s[..|s| - 1], notAfter), s[|s| - 1], notAfter)
  }

  lemma SortElements<T>(s: seq<T>, notAfter: (T, T) -> bool)
    ensures forall x :: x in Sort(s, notAfter) <==> x in s
  {
    assert forall x :: x in Sort(s, notAfter) <==> x in multiset(Sort(s, notAfter));
    assert forall x :: x in s <==> x in multiset(s);
  }

  lemma {:induction false} InsertedIsSorted<T(!new)>(s: seq<T>, x: T, notAfter: (T, T) -> bool)
    requires Total(notAfter) && Sorted(s, notAfter)
    ensures Sorted(Inserted(s, x, notAfter), notAfter)
  {
    if s == [] || notAfter(s[|s| - 1], x) {
    } else {
      var front, last := s[..|s| - 1], s[|s| - 1];
      InsertedIsSorted(front, x, notAfter);
      var r := Inserted(front, x, notAfter);
      forall i | 0 <= i < |r| ensures notAfter(r[i], last) {
        assert r[i] in multiset(r) && r[i] in multiset(front) + multiset{x};
        assert r[i] == x || r[i] in front;
      }
    }
  }

  lemma {:induction false} SortIsSorted<T(!new)>(s: seq<T>, notAfter: (T, T) -> bool)
    requires Total(notAfter)
    ensures Sorted(Sort(s, notAfter), notAfter)
  {
    if s == [] {
    } else {
      SortIsSorted(s[..|s| - 1], notAfter);
      InsertedIsSorted(Sort(s[..|s| - 1], notAfter), s[|s| - 1], notAfter);
    }
  }

  lemma InsertedLast<T>(s: seq<T>, x: T, notAfter: (T, T) -> bool)
    requires s == [] || notAfter(s[|s| - 1], x)
    ensures Inserted(s, x, notAfter) == s + [x]
  {
  }

  /** Sorting what is in order changes nothing. */
  lemma {:induction false} SortedStays<T>(s: seq<T>, notAfter: (T, T) -> bool)
    requires Sorted(s, notAfter)
    ensures Sort(s, notAfter) == s
  {
    if s == [] {
    } else {
      var front, last := s[..|s| - 1], s[|s| - 1];
      assert Sorted(front, notAfter);
      SortedStays(front, notAfter);
      assert front != [] ==> front[|front| - 1] == s[|s| - 2] && notAfter(s[|s| - 2], last);
      InsertedLast(front, last, notAfter);
      assert s == front + [last];
    }
  }

  /** The elements that may stand on either side of `k`. */
  function Peers<T>(s: seq<T>, k: T, notAfter: (T, T) -> bool): seq<T> {
    if s == [] then [] else
      var last := s[|s| - 1];
      Peers(s[..|s| - 1], k, notAfter) + if notAfter(last, k) && notAfter(k, last) then [last] else []
  }

  lemma {:induction false} InsertedPeers<T(!new)>(s: seq<T>, x: T, k: T, notAfter: (T, T) -> bool)
    requires Total(notAfter)
    ensures Peers(Inserted(s, x, notAfter), k, notAfter) ==
            Peers(s, k, notAfter) + if notAfter(x, k) && notAfter(k, x) then [x] else []
  {
    if s == [] || notAfter(s[|s| - 1], x) {
      assert (s + [x])[..|s|] == s;
    } else {
      var front, last := s[..|s| - 1], s[|s| - 1];
      InsertedPeers(front, x, k, notAfter);
      assert (Inserted(front, x, notAfter) + [last])[..|Inserted(front, x, notAfter)|] == Inserted(front, x, notAfter);
    }
  }

  /** Sorting is stable: elements that compare equal keep their order. */
  lemma {:induction false} SortIsStable<T(!new)>(s: seq<T>, k: T, notAfter: (T, T) -> bool)
    requires Total(notAfter)
    ensures Peers(Sort(s, notAfter), k, notAfter) == Peers(s, k, notAfter)
  {
    if s == [] {
    } else {
      SortIsStable(s[..|s| - 1], k, notAfter);
      InsertedPeers(Sort(s[..|s| - 1], notAfter), s[|s| - 1], k, notAfter);
    }
  }
}
