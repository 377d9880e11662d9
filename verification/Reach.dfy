/** Finite relations as sets of pairs, and reachability along them in a counted number of steps. */
module Reach {

  type Relation<!T(==)> = set<(T, T)>

  /** `b` is reached from `a` by exactly `n` steps of `e`. */
  ghost predicate ReachIn<T(!new)>(e: Relation<T>, a: T, b: T, n: nat) {
    if n == 0 then a == b else exists m :: (a, m) in e && ReachIn(e, m, b, n - 1)
  }

  ghost predicate Reaches<T(!new)>(e: Relation<T>, a: T, b: T) {
    exists n: nat :: ReachIn(e, a, b, n)
  }

  ghost predicate OnCycle<T(!new)>(e: Relation<T>, a: T) {
    exists n: nat :: n > 0 && ReachIn(e, a, a, n)
  }

  ghost predicate Acyclic<T(!new)>(e: Relation<T>) {
    forall a :: !OnCycle(e, a)
  }

  lemma {:induction false} Concat<T(!new)>(e: Relation<T>, a: T, b: T, c: T, n: nat, m: nat)
    requires ReachIn(e, a, b, n) && ReachIn(e, b, c, m)
    ensures ReachIn(e, a, c, n + m)
  {
    if n == 0 {
    } else {
      var x :| (a, x) in e && ReachIn(e, x, b, n - 1);
      Concat(e, x, b, c, n - 1, m);
      assert (a, x) in e && ReachIn(e, x, c, n - 1 + m);
    }
  }

  lemma StepReaches<T(!new)>(e: Relation<T>, a: T, b: T)
    requires (a, b) in e
    ensures ReachIn(e, a, b, 1)
  {
    assert ReachIn(e, b, b, 0);
  }

  lemma ReachesTransitive<T(!new)>(e: Relation<T>, a: T, b: T, c: T)
    requires Reaches(e, a, b) && Reaches(e, b, c)
    ensures Reaches(e, a, c)
  {
    var n: nat :| ReachIn(e, a, b, n);
    var m: nat :| ReachIn(e, b, c, m);
    Concat(e, a, b, c, n, m);
  }

  /** Appending a last step, and splitting one off. */
  lemma {:induction false} LastStep<T(!new)>(e: Relation<T>, a: T, c: T, n: nat) returns (b: T)
    requires n > 0 && ReachIn(e, a, c, n)
    ensures ReachIn(e, a, b, n - 1) && (b, c) in e
  {
    var x :| (a, x) in e && ReachIn(e, x, c, n - 1);
    if n == 1 {
      b := a;
    } else {
      b := LastStep(e, x, c, n - 1);
      assert (a, x) in e && ReachIn(e, x, b, n - 2);
    }
  }

  lemma AppendStep<T(!new)>(e: Relation<T>, a: T, b: T, c: T, n: nat)
    requires ReachIn(e, a, b, n) && (b, c) in e
    ensures ReachIn(e, a, c, n + 1)
  {
    StepReaches(e, b, c);
    Concat(e, a, b, c, n, 1);
  }

  lemma {:induction false} Monotone<T(!new)>(e: Relation<T>, f: Relation<T>, a: T, b: T, n: nat)
    requires e <= f && ReachIn(e, a, b, n)
    ensures ReachIn(f, a, b, n)
  {
    if n == 0 {
    } else {
      var x :| (a, x) in e && ReachIn(e, x, b, n - 1);
      Monotone(e, f, x, b, n - 1);
      assert (a, x) in f && ReachIn(f, x, b, n - 1);
    }
  }

  /* ---- undirected connection ---- */

  ghost function Symmetric<T(!new)>(e: Relation<T>): (r: Relation<T>)
    ensures forall a, b :: (a, b) in r <==> (a, b) in e || (b, a) in e
  {
    e + set p | p in e :: (p.1, p.0)
  }

  /** The equivalence closure of `e`. */
  ghost predicate Linked<T(!new)>(e: Relation<T>, a: T, b: T) {
    Reaches(Symmetric(e), a, b)
  }

  lemma LinkedReflexive<T(!new)>(e: Relation<T>, a: T)
    ensures Linked(e, a, a)
  {
    assert ReachIn(Symmetric(e), a, a, 0);
  }

  lemma {:induction false} ReverseWalk<T(!new)>(e: Relation<T>, a: T, b: T, n: nat)
    requires ReachIn(Symmetric(e), a, b, n)
    ensures ReachIn(Symmetric(e), b, a, n)
  {
    if n == 0 {
    } else {
      var x :| (a, x) in Symmetric(e) && ReachIn(Symmetric(e), x, b, n - 1);
      ReverseWalk(e, x, b, n - 1);
      assert (x, a) in Symmetric(e);
      AppendStep(Symmetric(e), b, x, a, n - 1);
    }
  }

  lemma LinkedSymmetric<T(!new)>(e: Relation<T>, a: T, b: T)
    ensures Linked(e, a, b) <==> Linked(e, b, a)
  {
    forall n: nat, x: T, y: T | ReachIn(Symmetric(e), x, y, n)
      ensures ReachIn(Symmetric(e), y, x, n)
    {
      ReverseWalk(e, x, y, n);
    }
  }

  lemma LinkedTransitive<T(!new)>(e: Relation<T>, a: T, b: T, c: T)
    requires Linked(e, a, b) && Linked(e, b, c)
    ensures Linked(e, a, c)
  {
    ReachesTransitive(Symmetric(e), a, b, c);
  }

  lemma LinkedDirectly<T(!new)>(e: Relation<T>, a: T, b: T)
    requires (a, b) in e
    ensures Linked(e, a, b)
  {
    StepReaches(Symmetric(e), a, b);
  }

  lemma LinkedAlone<T(!new)>(e: Relation<T>, a: T, b: T)
    requires forall p :: p in e ==> p.0 != a && p.1 != a
    ensures Linked(e, a, b) <==> a == b
  {
    LinkedReflexive(e, a);
    forall n: nat | ReachIn(Symmetric(e), a, b, n) ensures a == b { }
  }

  /** One new pair (l, r) joins the class of `l` with the class of `r` and changes nothing else. */
  ghost predicate Joined<T(!new)>(e: Relation<T>, l: T, r: T, a: T, b: T) {
    || Linked(e, a, b)
    || (Linked(e, a, l) && Linked(e, r, b))
    || (Linked(e, a, r) && Linked(e, l, b))
  }

  lemma {:induction false} JoinSplits<T(!new)>(e: Relation<T>, l: T, r: T, a: T, b: T, n: nat)
    requires ReachIn(Symmetric(e + {(l, r)}), a, b, n)
    ensures Joined(e, l, r, a, b)
  {
    if n == 0 {
      LinkedReflexive(e, a);
    } else {
      var f := e + {(l, r)};
      var x :| (a, x) in Symmetric(f) && ReachIn(Symmetric(f), x, b, n - 1);
      JoinSplits(e, l, r, x, b, n - 1);
      LinkedReflexive(e, l);
      LinkedReflexive(e, r);
      if (a, x) in Symmetric(e) {
        StepReaches(Symmetric(e), a, x);
        assert Linked(e, a, x);
        forall y | Linked(e, x, y) ensures Linked(e, a, y) {
          ReachesTransitive(Symmetric(e), a, x, y);
        }
      } else {
        assert (a == l && x == r) || (a == r && x == l);
        // Around the new pair twice is no further than around it zero times.
        forall y | Linked(e, x, y) ensures Joined(e, l, r, a, y) {
          LinkedReflexive(e, a);
        }
      }
    }
  }

  lemma JoinGlues<T(!new)>(e: Relation<T>, l: T, r: T, a: T, b: T)
    requires Joined(e, l, r, a, b)
    ensures Linked(e + {(l, r)}, a, b)
  {
    var f := e + {(l, r)};
    forall x: T, y: T | Linked(e, x, y) ensures Linked(f, x, y) {
      var n: nat :| ReachIn(Symmetric(e), x, y, n);
      Monotone(Symmetric(e), Symmetric(f), x, y, n);
    }
    StepReaches(Symmetric(f), l, r);
    StepReaches(Symmetric(f), r, l);
    if !Linked(e, a, b) {
      var p, q := if Linked(e, a, l) && Linked(e, r, b) then l else r, if Linked(e, a, l) && Linked(e, r, b) then r
        else l;
      ReachesTransitive(Symmetric(f), a, p, q);
      ReachesTransitive(Symmetric(f), a, q, b);
    }
  }

  lemma LinkedAfterJoin<T(!new)>(e: Relation<T>, l: T, r: T, a: T, b: T)
    ensures Linked(e + {(l, r)}, a, b) <==> Joined(e, l, r, a, b)
  {
    if Linked(e + {(l, r)}, a, b) {
      var n: nat :| ReachIn(Symmetric(e + {(l, r)}), a, b, n);
      JoinSplits(e, l, r, a, b, n);
    }
    if Joined(e, l, r, a, b) {
      JoinGlues(e, l, r, a, b);
    }
  }
}
