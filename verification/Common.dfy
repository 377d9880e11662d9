/** Small shared vocabulary: optional values, and identifiers in their sort order. */
module Common {

  datatype Option<+T> = None | Some(value: T)

  /** A UUID. Its text form is fixed-width hexadecimal, so ordering by text is ordering by number. */
  type Id = nat

  ghost predicate Increasing(s: seq<Id>) {
    forall i, j :: 0 <= i < j < |s| ==> s[i] < s[j]
  }

  ghost predicate SameElements(r: seq<Id>, s: set<Id>) {
    forall x :: x in r <==> x in s
  }

  method Least(s: set<Id>) returns (x: Id)
    requires s != {}
    ensures x in s && forall y :: y in s ==> x <= y
  {
    x :| x in s;
    var rest := s - {x};
    while rest != {}
      invariant x in s && rest <= s && forall y :: y in s ==> y in rest || x <= y
      decreases rest
    {
      var y :| y in rest;
      if y < x {
        x := y;
      }
      rest := rest - {y};
    }
  }

  /** `sorted(ids, key=str)`: the ids of a set in increasing order. */
  method SortIds(s: set<Id>) returns (r: seq<Id>)
    ensures Increasing(r) && SameElements(r, s)
  {
    r := [];
    var rest := s;
    while rest != {}
      invariant rest <= s && Increasing(r)
      invariant forall x :: x in s <==> x in r || x in rest
      invariant forall i, y :: 0 <= i < |r| && y in rest ==> r[i] < y
      decreases rest
    {
      var x := Least(rest);
      r := r + [x];
      rest := rest - {x};
    }
  }

  /** The member of a singleton. */
  function Only<T(!new)>(s: set<T>): (x: T)
    requires |s| == 1
    ensures s == {x}
  {
    assert exists x :: s == {x} by {
      var x :| x in s;
      assert |s - {x}| == 0;
      assert s == {x};
    }
    var x :| s == {x};
    x
  }

  lemma {:induction false} SubsetSize<T>(a: set<T>, b: set<T>)
    requires a <= b
    ensures |a| <= |b|
    ensures a != b ==> |a| < |b|
    decreases b
  {
    if a == b {
    } else {
      var x :| x in b && x !in a;
      SubsetSize(a, b - {x});
    }
  }

  /* ---- filtering ---- */

  /** What remains, in the same order, when everything else is left out. */
  ghost function Filter<T>(all: seq<T>, keep: T -> bool): seq<T> {
    if all == [] then [] else
      Filter(all[..|all| - 1], keep) + if keep(all[|all| - 1]) then [all[|all| - 1]] else []
  }

  lemma {:induction false} FilterMembers<T(!new)>(all: seq<T>, keep: T -> bool)
    ensures forall x :: x in Filter(all, keep) <==> x in all && keep(x)
  {
    if all == [] {
    } else {
      var front, last := all[..|all| - 1], all[|all| - 1];
      FilterMembers(front, keep);
      assert forall x :: x in all <==> x in front || x == last;
    }
  }

  lemma {:induction false} FilterInTwo<T>(a: seq<T>, b: seq<T>, keep: T -> bool)
    ensures Filter(a + b, keep) == Filter(a, keep) + Filter(b, keep)
  {
    if b == [] {
      assert a + b == a;
    } else {
      var front, last := b[..|b| - 1], b[|b| - 1];
      FilterInTwo(a, front, keep);
      assert (a + b)[..|a + b| - 1] == a + front && (a + b)[|a + b| - 1] == last;
    }
  }

  lemma {:induction false} FilterFirst<T>(all: seq<T>, keep: T -> bool)
    requires all != []
    ensures Filter(all, keep) == (if keep(all[0]) then [all[0]] else []) + Filter(all[1..], keep)
  {
    FilterInTwo([all[0]], all[1..], keep);
    assert [all[0]] + all[1..] == all;
    assert Filter<T>([], keep) == [] && [all[0]][..0] == [];
  }

  lemma {:induction false} FilterAlike<T(!new)>(all: seq<T>, keep: T -> bool, same: T -> bool)
    requires forall x :: x in all ==> (keep(x) <==> same(x))
    ensures Filter(all, keep) == Filter(all, same)
  {
    if all == [] {
    } else {
      assert all[|all| - 1] in all;
      FilterAlike(all[..|all| - 1], keep, same);
    }
  }

  lemma {:induction false} FilterAll<T(!new)>(all: seq<T>, keep: T -> bool)
    requires forall x :: x in all ==> keep(x)
    ensures Filter(all, keep) == all
  {
    if all == [] {
    } else {
      assert all[|all| - 1] in all;
      FilterAll(all[..|all| - 1], keep);
    }
  }

  lemma {:induction false} FilterTwice<T(!new)>(all: seq<T>, first: T -> bool, second: T -> bool, both: T -> bool)
    requires forall x :: x in all ==> (both(x) <==> first(x) && second(x))
    ensures Filter(Filter(all, first), second) == Filter(all, both)
  {
    if all == [] {
    } else {
      var front, last := all[..|all| - 1], all[|all| - 1];
      assert last in all;
      FilterTwice(front, first, second, both);
      FilterInTwo(Filter(front, first), if first(last) then [last] else [], second);
      assert [last][..0] == [];
    }
  }
}
