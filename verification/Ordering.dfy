/** Kahn's algorithm with an ordered ready list (`_topological_order`), and what its result is. */
module Ordering {
  import opened Common
  import opened Reach
  import opened GraphModel

  type Edges = set<(Id, Id)>

  function EdgesOf(conns: set<Connection>): Edges { set c | c in conns :: (c.src, c.dst) }

  function Preds(e: Edges, n: Id): (r: set<Id>)
    ensures forall m :: m in r <==> (m, n) in e
  {
    set p | p in e && p.1 == n :: p.0
  }

  function Succs(e: Edges, n: Id): (r: set<Id>)
    ensures forall m :: m in r <==> (n, m) in e
  {
    set p | p in e && p.0 == n :: p.1
  }

  predicate Within(e: Edges, nodes: set<Id>) { forall p :: p in e ==> p.0 in nodes && p.1 in nodes }

  function Taken(order: seq<Id>, i: nat): set<Id>
    requires i <= |order|
  {
    set j | 0 <= j < i :: order[j]
  }

  /** All predecessors of `n` have been taken and `n` has not. */
  predicate Available(nodes: set<Id>, e: Edges, taken: set<Id>, n: Id) {
    n in nodes && n !in taken && Preds(e, n) <= taken
  }

  ghost predicate Stuck(nodes: set<Id>, e: Edges, taken: set<Id>) {
    forall n {:trigger Available(nodes, e, taken, n)} :: !Available(nodes, e, taken, n)
  }

  ghost predicate Closed(e: Edges, taken: set<Id>) {
    forall n {:trigger Preds(e, n)} :: n in taken ==> Preds(e, n) <= taken
  }

  /** Each node comes once, after all its predecessors. */
  ghost predicate Topological(nodes: set<Id>, e: Edges, order: seq<Id>) {
    forall i {:trigger Taken(order, i)} :: 0 <= i < |order| ==> Available(nodes, e, Taken(order, i), order[i])
  }

  /** At every position the least available node was taken, and at the end none was left. */
  ghost predicate GreedyOrder(nodes: set<Id>, e: Edges, order: seq<Id>) {
    && Topological(nodes, e, order)
    && (forall i, m :: 0 <= i < |order| && Available(nodes, e, Taken(order, i), m) ==> order[i] <= m)
    && Stuck(nodes, e, Taken(order, |order|))
  }

  /* ---- what the greedy order is ---- */

  lemma TakenPrefix(a: seq<Id>, b: seq<Id>, i: nat)
    requires i <= |a| && i <= |b| && a[..i] == b[..i]
    ensures Taken(a, i) == Taken(b, i)
  {
    assert forall j :: 0 <= j < i ==> a[j] == a[..i][j] == b[..i][j] == b[j];
  }

  ghost predicate LexLess(a: seq<Id>, b: seq<Id>) {
    exists i :: 0 <= i < |a| && i < |b| && a[..i] == b[..i] && a[i] < b[i]
  }

  lemma {:induction false} FirstDifference(a: seq<Id>, b: seq<Id>) returns (i: nat)
    ensures i <= |a| && i <= |b| && a[..i] == b[..i]
    ensures i == |a| || i == |b| || a[i] != b[i]
  {
    i := 0;
    while i < |a| && i < |b| && a[i] == b[i]
      invariant i <= |a| && i <= |b| && a[..i] == b[..i]
    {
      i := i + 1;
      assert a[..i] == a[..i - 1] + [a[i - 1]] && b[..i] == b[..i - 1] + [b[i - 1]];
    }
  }

  /** The greedy order precedes every other topological order lexicographically, unless that order is
      one of its own prefixes. So it is the least order of its nodes, and it is unique. */
  lemma GreedyIsLexLeast(nodes: set<Id>, e: Edges, order: seq<Id>, other: seq<Id>)
    requires GreedyOrder(nodes, e, order) && Topological(nodes, e, other)
    ensures other <= order || LexLess(order, other)
  {
    var i := FirstDifference(order, other);
    TakenPrefix(order, other, i);
    assert i < |other| ==> Available(nodes, e, Taken(order, i), other[i]);
    if i == |other| {
      assert other == other[..i] == order[..i];
    } else {
      assert i < |order| && order[i] <= other[i];
    }
  }

  /** It depends on the node set and the edge relation only, not on the order of the connections. */
  lemma GreedyIsUnique(nodes: set<Id>, e: Edges, a: seq<Id>, b: seq<Id>)
    requires GreedyOrder(nodes, e, a) && GreedyOrder(nodes, e, b)
    ensures a == b
  {
    GreedyIsLexLeast(nodes, e, a, b);
    GreedyIsLexLeast(nodes, e, b, a);
    NotBothLess(a, b);
  }

  lemma NotBothLess(a: seq<Id>, b: seq<Id>)
    requires (b <= a || LexLess(a, b)) && (a <= b || LexLess(b, a))
    ensures a == b
  {
    var i := FirstDifference(a, b);
    assert forall j :: 0 <= j < i ==> a[j] == a[..i][j] == b[j];
  }

  /* ---- which nodes it leaves out ---- */

  /** On a cycle, or downstream of one. */
  ghost predicate Tainted(e: Edges, n: Id) {
    exists m :: OnCycle(e, m) && Reaches(e, m, n)
  }

  lemma {:induction false} OrderedAncestors(nodes: set<Id>, e: Edges, order: seq<Id>, m: Id, i: nat, k: nat)
    returns (j: nat)
    requires Topological(nodes, e, order) && i < |order| && ReachIn(e, m, order[i], k)
    ensures j < |order| && order[j] == m && j + k <= i
    decreases k
  {
    if k == 0 {
      j := i;
    } else {
      var b := LastStep(e, m, order[i], k);
      assert b in Preds(e, order[i]);
      assert Available(nodes, e, Taken(order, i), order[i]);
      var h :| 0 <= h < i && order[h] == b;
      j := OrderedAncestors(nodes, e, order, m, h, k - 1);
    }
  }

  lemma TopologicalDistinct(nodes: set<Id>, e: Edges, order: seq<Id>, i: nat, j: nat)
    requires Topological(nodes, e, order) && i < j < |order|
    ensures order[i] != order[j]
  {
    assert Available(nodes, e, Taken(order, j), order[j]);
    assert order[i] in Taken(order, j);
  }

  lemma OrderedNotTainted(nodes: set<Id>, e: Edges, order: seq<Id>, n: Id)
    requires Topological(nodes, e, order) && n in order
    ensures !Tainted(e, n)
  {
    if Tainted(e, n) {
      var i :| 0 <= i < |order| && order[i] == n;
      var m :| OnCycle(e, m) && Reaches(e, m, n);
      var k: nat :| ReachIn(e, m, n, k);
      var c: nat :| c > 0 && ReachIn(e, m, m, c);
      var j := OrderedAncestors(nodes, e, order, m, i, k);
      var h := OrderedAncestors(nodes, e, order, m, j, c);
      TopologicalDistinct(nodes, e, order, h, j);
      assert false;
    }
  }

  ghost predicate FedFrom(e: Edges, rest: set<Id>, x: Id) { exists m :: m in rest && (m, x) in e }

  /** Walking backwards inside a finite set where everyone has a predecessor must meet a cycle. */
  lemma {:induction false} BackwardWalkMeetsCycle(e: Edges, rest: set<Id>, n: Id, seen: set<Id>)
    requires n in rest && seen <= rest && n !in seen
    requires forall x {:trigger FedFrom(e, rest, x)} :: x in rest ==> FedFrom(e, rest, x)
    requires forall x :: x in seen ==> Reaches(e, n, x)
    ensures Tainted(e, n)
    decreases rest - seen
  {
    assert FedFrom(e, rest, n);
    var m :| m in rest && (m, n) in e;
    StepReaches(e, m, n);
    assert Reaches(e, m, n);
    assert ReachIn(e, n, n, 0) && Reaches(e, n, n);
    if m in seen + {n} {
      var k: nat :| ReachIn(e, n, m, k);
      Concat(e, m, n, m, 1, k);
      assert OnCycle(e, m);
    } else {
      forall x | x in seen + {n} ensures Reaches(e, m, x) { ReachesTransitive(e, m, n, x); }
      BackwardWalkMeetsCycle(e, rest, m, seen + {n});
      var c :| OnCycle(e, c) && Reaches(e, c, m);
      ReachesTransitive(e, c, m, n);
    }
  }

  /** Left out are exactly the nodes on a cycle or downstream of one. */
  lemma LeftOutIffTainted(nodes: set<Id>, e: Edges, order: seq<Id>, n: Id)
    requires GreedyOrder(nodes, e, order) && Within(e, nodes) && n in nodes
    ensures n !in order <==> Tainted(e, n)
  {
    if n in order {
      OrderedNotTainted(nodes, e, order, n);
    } else {
      var done := Taken(order, |order|);
      var rest := nodes - done;
      forall x | x in rest ensures FedFrom(e, rest, x) {
        assert !Available(nodes, e, done, x);
        var m :| m in Preds(e, x) && m !in done;
      }
      BackwardWalkMeetsCycle(e, rest, n, {});
    }
  }

  lemma AcyclicIffUntainted(nodes: set<Id>, e: Edges)
    requires Within(e, nodes)
    ensures Acyclic(e) <==> forall n :: n in nodes ==> !Tainted(e, n)
  {
    forall a | OnCycle(e, a) ensures a in nodes && Tainted(e, a) {
      var k: nat :| k > 0 && ReachIn(e, a, a, k);
      var b := LastStep(e, a, a, k);
      assert Reaches(e, a, a);
    }
  }

  /* ---- the algorithm ---- */

  /** How many predecessors of `n` are still to be taken. */
  ghost function Open(e: Edges, taken: set<Id>, n: Id): nat { |Untaken(e, taken, n)| }

  function Untaken(e: Edges, taken: set<Id>, n: Id): (r: set<Id>)
    ensures forall m :: m in r <==> m in Preds(e, n) && m !in taken
  {
    set m | m in Preds(e, n) && m !in taken
  }

  ghost predicate Tallied(nodes: set<Id>, e: Edges, taken: set<Id>, pending: set<Id>, counts: map<Id, nat>) {
    && counts.Keys == nodes
    && forall n {:trigger counts[n]} :: n in nodes ==> counts[n] == Open(e, taken, n) + if n in pending then 1 else 0
  }

  ghost predicate ReadyList(nodes: set<Id>, e: Edges, taken: set<Id>, pending: set<Id>, ready: seq<Id>) {
    && (forall n :: n in ready <==> Available(nodes, e, taken, n) && n !in pending)
    && Increasing(ready)
  }

  lemma NoneOpen(e: Edges, taken: set<Id>, n: Id)
    ensures Open(e, taken, n) == 0 <==> Preds(e, n) <= taken
  {
    var open := Untaken(e, taken, n);
    assert forall m :: m in Preds(e, n) ==> m in open || m in taken;
  }

  lemma OpenAfterTaking(e: Edges, taken: set<Id>, n: Id, m: Id)
    requires n !in taken
    ensures Open(e, taken, m) == Open(e, taken + {n}, m) + if m in Succs(e, n) then 1 else 0
  {
    var before, after := Untaken(e, taken, m), Untaken(e, taken + {n}, m);
    if m in Succs(e, n) {
      assert before == after + {n};
    } else {
      assert before == after;
    }
  }

  lemma OpenWithEdge(e: Edges, s: Id, d: Id, m: Id)
    requires (s, d) !in e
    ensures Open(e + {(s, d)}, {}, m) == Open(e, {}, m) + if m == d then 1 else 0
  {
    var f := e + {(s, d)};
    var before, after := Untaken(e, {}, m), Untaken(f, {}, m);
    if m == d {
      assert after == before + {s};
    } else {
      assert after == before;
    }
  }

  function PrefixEdges(conns: seq<Connection>, i: nat): Edges
    requires i <= |conns|
  {
    set j | 0 <= j < i :: (conns[j].src, conns[j].dst)
  }

  ghost predicate Recorded(nodes: set<Id>, e: Edges, outgoing: map<Id, set<Id>>) {
    outgoing.Keys == nodes && forall n {:trigger outgoing[n]} :: n in nodes ==> outgoing[n] == Succs(e, n)
  }

  lemma RecordEdge(nodes: set<Id>, e: Edges, s: Id, d: Id, outgoing: map<Id, set<Id>>)
    requires s in nodes && Recorded(nodes, e, outgoing)
    ensures Recorded(nodes, e + {(s, d)}, outgoing[s := outgoing[s] + {d}])
    ensures d in outgoing[s] <==> (s, d) in e
  {
    var after := outgoing[s := outgoing[s] + {d}];
    forall n | n in nodes ensures after[n] == Succs(e + {(s, d)}, n) {
      assert outgoing[n] == Succs(e, n);
    }
    assert outgoing[s] == Succs(e, s);
  }

  lemma TallyAt(e: Edges, s: Id, d: Id, n: Id, count: nat, after: nat)
    requires (s, d) !in e && count == Open(e, {}, n) && after == count + if n == d then 1 else 0
    ensures after == Open(e + {(s, d)}, {}, n)
  {
    OpenWithEdge(e, s, d, n);
  }

  lemma TallyEdge(nodes: set<Id>, e: Edges, s: Id, d: Id, counts: map<Id, nat>)
    requires d in nodes && (s, d) !in e && Tallied(nodes, e, {}, {}, counts)
    ensures Tallied(nodes, e + {(s, d)}, {}, {}, counts[d := counts[d] + 1])
  {
    var after := counts[d := counts[d] + 1];
    forall n | n in nodes ensures after[n] == Open(e + {(s, d)}, {}, n) {
      TallyAt(e, s, d, n, counts[n], after[n]);
    }
  }

  lemma PrefixEdgesGrow(conns: seq<Connection>, i: nat)
    requires i < |conns|
    ensures PrefixEdges(conns, i + 1) == PrefixEdges(conns, i) + {(conns[i].src, conns[i].dst)}
  {
  }

  lemma AllPrefixEdges(nodes: set<Id>, conns: seq<Connection>)
    requires forall c :: c in conns ==> c.src in nodes && c.dst in nodes
    ensures PrefixEdges(conns, |conns|) == EdgesOf(AsSet(conns)) && Within(EdgesOf(AsSet(conns)), nodes)
  {
  }

  lemma NothingTallied(nodes: set<Id>, outgoing: map<Id, set<Id>>, counts: map<Id, nat>)
    requires outgoing == map n | n in nodes :: {}
    requires counts == map n | n in nodes :: 0
    ensures Recorded(nodes, {}, outgoing) && Tallied(nodes, {}, {}, {}, counts)
  {
    forall n ensures Open({}, {}, n) == 0 { NoneOpen({}, {}, n); }
  }

  lemma EdgeStep(nodes: set<Id>, e: Edges, s: Id, d: Id, outgoing: map<Id, set<Id>>, counts: map<Id, nat>)
    requires s in nodes && d in nodes && Recorded(nodes, e, outgoing) && Tallied(nodes, e, {}, {}, counts)
    ensures var isNew := d !in outgoing[s];
            && Recorded(nodes, e + {(s, d)}, if isNew then outgoing[s := outgoing[s] + {d}] else outgoing)
            && Tallied(nodes, e + {(s, d)}, {}, {}, if isNew then counts[d := counts[d] + 1] else counts)
  {
    RecordEdge(nodes, e, s, d, outgoing);
    if (s, d) in e {
      assert e + {(s, d)} == e;
    } else {
      TallyEdge(nodes, e, s, d, counts);
    }
  }

  method CountEdges(nodes: set<Id>, conns: seq<Connection>) returns (outgoing: map<Id, set<Id>>, counts: map<Id, nat>)
    requires forall c :: c in conns ==> c.src in nodes && c.dst in nodes
    ensures Recorded(nodes, EdgesOf(AsSet(conns)), outgoing)
    ensures Tallied(nodes, EdgesOf(AsSet(conns)), {}, {}, counts)
  {
    outgoing := map n | n in nodes :: {};
    counts := map n | n in nodes :: 0;
    NothingTallied(nodes, outgoing, counts);
    assert PrefixEdges(conns, 0) == {};
    for i := 0 to |conns|
      invariant Recorded(nodes, PrefixEdges(conns, i), outgoing)
      invariant Tallied(nodes, PrefixEdges(conns, i), {}, {}, counts)
    {
      assert conns[i] in conns;
      var s, d := conns[i].src, conns[i].dst;
      EdgeStep(nodes, PrefixEdges(conns, i), s, d, outgoing, counts);
      PrefixEdgesGrow(conns, i);
      if d !in outgoing[s] {
        outgoing := outgoing[s := outgoing[s] + {d}];
        counts := counts[d := counts[d] + 1];
      }
    }
    AllPrefixEdges(nodes, conns);
  }

  /** Taking a node: each of its successors has one predecessor fewer to wait for, not yet subtracted. */
  lemma TakeTallied(nodes: set<Id>, e: Edges, taken: set<Id>, n: Id, counts: map<Id, nat>)
    requires Tallied(nodes, e, taken, {}, counts) && n !in taken
    ensures Tallied(nodes, e, taken + {n}, Succs(e, n), counts)
  {
    forall m | m in nodes
      ensures counts[m] == Open(e, taken + {n}, m) + if m in Succs(e, n) then 1 else 0
    {
      OpenAfterTaking(e, taken, n, m);
    }
  }

  lemma TakeReady(nodes: set<Id>, e: Edges, taken: set<Id>, n: Id, ready: seq<Id>)
    requires ReadyList(nodes, e, taken, {}, ready) && ready != [] && n == ready[0]
    requires Closed(e, taken)
    ensures n in nodes && n !in taken && Closed(e, taken + {n})
    ensures ReadyList(nodes, e, taken + {n}, Succs(e, n), ready[1..])
    ensures Succs(e, n) !! taken + {n}
  {
    var after := taken + {n};
    assert n in ready;
    assert Available(nodes, e, taken, n);
    forall m | m in Succs(e, n) ensures m !in after {
      assert n in Preds(e, m);
    }
    forall m ensures m in ready[1..] <==> Available(nodes, e, after, m) && m !in Succs(e, n) {
      assert m in ready <==> m == n || m in ready[1..];
      assert n !in ready[1..];
    }
  }

  lemma ReleaseTallied(nodes: set<Id>, e: Edges, taken: set<Id>, pending: set<Id>, d: Id, counts: map<Id, nat>)
    requires d in nodes && d in pending && Tallied(nodes, e, taken, pending, counts)
    ensures counts[d] > 0 && (counts[d] == 1 <==> Preds(e, d) <= taken)
    ensures Tallied(nodes, e, taken, pending - {d}, counts[d := counts[d] - 1])
  {
    NoneOpen(e, taken, d);
    assert counts[d] == Open(e, taken, d) + 1;
    var after := counts[d := counts[d] - 1];
    forall n | n in nodes ensures after[n] == Open(e, taken, n) + if n in pending - {d} then 1 else 0 {
      assert counts[n] == Open(e, taken, n) + if n in pending then 1 else 0;
    }
  }

  lemma ReleaseReady(nodes: set<Id>, e: Edges, taken: set<Id>, pending: set<Id>, d: Id, ready: seq<Id>, longer: seq<Id>)
    requires d in nodes && d in pending && d !in taken && ReadyList(nodes, e, taken, pending, ready)
    requires if Preds(e, d) <= taken then Increasing(longer) && SameElements(longer, (set x | x in ready) + {d})
             else longer == ready
    ensures ReadyList(nodes, e, taken, pending - {d}, longer)
  {
    forall n ensures n in longer <==> Available(nodes, e, taken, n) && n !in pending - {d} {
      assert n in ready <==> Available(nodes, e, taken, n) && n !in pending;
    }
  }

  method ReleaseSuccessors(nodes: set<Id>, ghost e: Edges, ghost taken: set<Id>, successors: set<Id>,
                           counts0: map<Id, nat>, ready0: seq<Id>)
    returns (counts: map<Id, nat>, ready: seq<Id>)
    requires successors <= nodes && successors !! taken
    requires Tallied(nodes, e, taken, successors, counts0) && ReadyList(nodes, e, taken, successors, ready0)
    ensures Tallied(nodes, e, taken, {}, counts) && ReadyList(nodes, e, taken, {}, ready)
  {
    counts, ready := counts0, ready0;
    var list := SortIds(successors);
    ghost var pending := successors;
    for i := 0 to |list|
      invariant pending <= successors && forall n :: n in pending <==> n in list[i..]
      invariant Tallied(nodes, e, taken, pending, counts) && ReadyList(nodes, e, taken, pending, ready)
    {
      var d := list[i];
      assert list[i..] == [d] + list[i + 1..];
      assert d in list[i..] && d !in list[i + 1..];
      ReleaseTallied(nodes, e, taken, pending, d, counts);
      counts := counts[d := counts[d] - 1];
      var longer := ready;
      if counts[d] == 0 {
        longer := SortIds((set x | x in ready) + {d});
      }
      ReleaseReady(nodes, e, taken, pending, d, ready, longer);
      ready := longer;
      pending := pending - {d};
    }
    assert list[|list|..] == [];
    assert pending == {};
  }

  ghost predicate LeastSoFar(nodes: set<Id>, e: Edges, order: seq<Id>) {
    && Topological(nodes, e, order)
    && forall i, m :: 0 <= i < |order| && Available(nodes, e, Taken(order, i), m) ==> order[i] <= m
  }

  lemma GreedyStep(nodes: set<Id>, e: Edges, order: seq<Id>, n: Id, ready: seq<Id>)
    requires LeastSoFar(nodes, e, order)
    requires ReadyList(nodes, e, Taken(order, |order|), {}, ready) && ready != [] && n == ready[0]
    ensures LeastSoFar(nodes, e, order + [n])
    ensures Taken(order + [n], |order| + 1) == Taken(order, |order|) + {n}
  {
    var longer := order + [n];
    assert n in ready;
    forall i | 0 <= i <= |order| ensures Taken(longer, i) == Taken(order, i) {
      assert longer[..i] == order[..i];
      TakenPrefix(longer, order, i);
    }
    assert longer[|order|] == n;
    forall m | Available(nodes, e, Taken(order, |order|), m) ensures n <= m {
      assert m in ready;
    }
  }

  lemma InitialReady(nodes: set<Id>, e: Edges, counts: map<Id, nat>, ready: seq<Id>)
    requires Tallied(nodes, e, {}, {}, counts)
    requires Increasing(ready) && SameElements(ready, set n | n in nodes && counts[n] == 0)
    ensures ReadyList(nodes, e, {}, {}, ready)
  {
    forall n ensures n in ready <==> Available(nodes, e, {}, n) {
      NoneOpen(e, {}, n);
      if n in nodes { assert counts[n] == Open(e, {}, n); }
    }
  }

  /** The loop invariant of the main loop. */
  ghost predicate InProgress(nodes: set<Id>, e: Edges, order: seq<Id>, counts: map<Id, nat>, ready: seq<Id>) {
    var taken := Taken(order, |order|);
    && taken <= nodes && Closed(e, taken) && LeastSoFar(nodes, e, order)
    && Tallied(nodes, e, taken, {}, counts) && ReadyList(nodes, e, taken, {}, ready)
  }

  lemma NothingTaken(nodes: set<Id>, e: Edges, counts: map<Id, nat>, ready: seq<Id>)
    requires Tallied(nodes, e, {}, {}, counts)
    requires Increasing(ready) && SameElements(ready, set n | n in nodes && counts[n] == 0)
    ensures InProgress(nodes, e, [], counts, ready) && Taken([], 0) == {}
  {
    InitialReady(nodes, e, counts, ready);
    assert Taken([], 0) == {};
  }

  lemma TakeFirst(nodes: set<Id>, e: Edges, order: seq<Id>, counts: map<Id, nat>, ready: seq<Id>)
    requires Within(e, nodes) && InProgress(nodes, e, order, counts, ready) && ready != []
    ensures var n := ready[0];
            var taken := Taken(order + [n], |order| + 1);
            && n in nodes && LeastSoFar(nodes, e, order + [n])
            && taken <= nodes && taken == Taken(order, |order|) + {n} && n !in Taken(order, |order|) && Closed(e, taken)
            && Succs(e, n) <= nodes && Succs(e, n) !! taken
            && Tallied(nodes, e, taken, Succs(e, n), counts) && ReadyList(nodes, e, taken, Succs(e, n), ready[1..])
  {
    var n := ready[0];
    var before := Taken(order, |order|);
    TakeReady(nodes, e, before, n, ready);
    TakeTallied(nodes, e, before, n, counts);
    GreedyStep(nodes, e, order, n, ready);
  }

  lemma FinishedIsGreedy(nodes: set<Id>, e: Edges, order: seq<Id>, counts: map<Id, nat>)
    requires InProgress(nodes, e, order, counts, [])
    ensures GreedyOrder(nodes, e, order)
  {
    var ready: seq<Id> := [];
    forall n ensures !Available(nodes, e, Taken(order, |order|), n) { assert n !in ready; }
  }

  /** One turn of the main loop: the least ready node is taken and its successors are released. */
  method Advance(nodes: set<Id>, ghost e: Edges, outgoing: map<Id, set<Id>>, counts0: map<Id, nat>, ready0: seq<Id>,
                 order: seq<Id>)
    returns (counts: map<Id, nat>, ready: seq<Id>)
    requires Within(e, nodes) && Recorded(nodes, e, outgoing) && ready0 != []
             && InProgress(nodes, e, order, counts0, ready0)
    ensures var n := ready0[0];
            var taken := Taken(order + [n], |order| + 1);
            && n in nodes && taken <= nodes && taken == Taken(order, |order|) + {n} && n !in Taken(order, |order|)
            && Succs(e, n) <= nodes && Succs(e, n) !! taken && outgoing[n] == Succs(e, n)
            && InProgress(nodes, e, order + [n], counts, ready)
  {
    var n := ready0[0];
    TakeFirst(nodes, e, order, counts0, ready0);
    assert outgoing[n] == Succs(e, n);
    counts, ready := ReleaseSuccessors(nodes, e, Taken(order + [n], |order| + 1), outgoing[n], counts0, ready0[1..]);
  }

  /** The order is the greedy one, and exactly the nodes on or downstream of a cycle are reported. */
  method TopologicalOrder(nodes: set<Id>, conns: seq<Connection>) returns (order: seq<Id>, issues: seq<Issue>)
    requires forall c :: c in conns ==> c.src in nodes && c.dst in nodes
    ensures GreedyOrder(nodes, EdgesOf(AsSet(conns)), order)
    ensures forall x :: x in issues <==> x.GraphCycle? && x.node in nodes && Tainted(EdgesOf(AsSet(conns)), x.node)
  {
    ghost var e := EdgesOf(AsSet(conns));
    AllPrefixEdges(nodes, conns);
    var outgoing, counts := CountEdges(nodes, conns);
    var ready := SortIds(set n | n in nodes && counts[n] == 0);
    NothingTaken(nodes, e, counts, ready);
    order := [];
    while ready != []
      invariant InProgress(nodes, e, order, counts, ready)
      decreases nodes - Taken(order, |order|)
    {
      var n := ready[0];
      counts, ready := Advance(nodes, e, outgoing, counts, ready, order);
      order := order + [n];
    }
    FinishedIsGreedy(nodes, e, order, counts);
    issues := ReportCycles(nodes, e, order, counts);
  }

  lemma CountsTellTaint(nodes: set<Id>, e: Edges, order: seq<Id>, counts: map<Id, nat>, n: Id)
    requires Within(e, nodes) && GreedyOrder(nodes, e, order) && n in nodes
    requires Tallied(nodes, e, Taken(order, |order|), {}, counts)
    ensures counts[n] > 0 <==> Tainted(e, n)
    ensures |order| == |nodes| ==> !Tainted(e, n)
  {
    var taken := Taken(order, |order|);
    LeftOutIffTainted(nodes, e, order, n);
    NoneOpen(e, taken, n);
    if n in order {
      var i :| 0 <= i < |order| && order[i] == n;
      assert Available(nodes, e, Taken(order, i), n);
    } else {
      assert !Available(nodes, e, taken, n);
    }
    if |order| == |nodes| { FullOrder(nodes, e, order); }
  }

  method ReportCycles(nodes: set<Id>, ghost e: Edges, order: seq<Id>, counts: map<Id, nat>) returns (issues: seq<Issue>)
    requires Within(e, nodes) && GreedyOrder(nodes, e, order)
    requires Tallied(nodes, e, Taken(order, |order|), {}, counts)
    ensures forall x :: x in issues <==> x.GraphCycle? && x.node in nodes && Tainted(e, x.node)
  {
    forall n | n in nodes
      ensures (counts[n] > 0 <==> Tainted(e, n)) && (|order| == |nodes| ==> !Tainted(e, n))
    {
      CountsTellTaint(nodes, e, order, counts, n);
    }
    issues := [];
    if |order| != |nodes| {
      var cyclic := set n | n in nodes && counts[n] > 0;
      var list := SortIds(cyclic);
      for i := 0 to |list|
        invariant |issues| == i && forall j :: 0 <= j < i ==> issues[j] == GraphCycle(list[j])
      {
        issues := issues + [GraphCycle(list[i])];
      }
      assert forall n :: n in cyclic <==> n in nodes && Tainted(e, n);
      forall x: Issue | x.GraphCycle? && x.node in cyclic ensures x in issues {
        assert x.node in list;
        var i :| 0 <= i < |list| && list[i] == x.node;
        assert issues[i] == x;
      }
    }
  }

  lemma FullOrder(nodes: set<Id>, e: Edges, order: seq<Id>)
    requires Topological(nodes, e, order) && |order| == |nodes|
    ensures forall n :: n in nodes ==> n in order
  {
    TakenSize(nodes, e, order, |order|);
    var taken := Taken(order, |order|);
    forall i | 0 <= i < |order| ensures order[i] in nodes { assert Available(nodes, e, Taken(order, i), order[i]); }
    if taken != nodes { SubsetSize(taken, nodes); }
  }

  lemma {:induction false} TakenSize(nodes: set<Id>, e: Edges, order: seq<Id>, i: nat)
    requires Topological(nodes, e, order) && i <= |order|
    ensures |Taken(order, i)| == i
  {
    if i == 0 {
    } else {
      TakenSize(nodes, e, order, i - 1);
      assert Available(nodes, e, Taken(order, i - 1), order[i - 1]);
      assert Taken(order, i) == Taken(order, i - 1) + {order[i - 1]};
    }
  }
}
