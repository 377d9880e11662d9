/** Source clocks along a topological order (`_analyze_clocks`), against reachability from sources. */
module Clocks {
  import opened Common
  import opened NodeContracts
  import opened Reach
  import opened GraphModel
  import opened Ordering

  predicate IsSource(g: Graph, n: Id) { n in g.contracts && g.contracts[n].kind == Source }

  /** The connections along which a clock travels: it never enters a source. */
  function FeedEdges(g: Graph): (r: Edges)
    ensures forall a, b :: (a, b) in r <==> (a, b) in EdgesOf(g.conns) && !IsSource(g, b)
  {
    set c | c in g.conns && !IsSource(g, c.dst) :: (c.src, c.dst)
  }

  /** `n` is reached from the source `s` through non-source nodes. */
  ghost predicate Feeds(g: Graph, s: Id, n: Id) {
    IsSource(g, s) && exists k: nat :: k > 0 && ReachIn(FeedEdges(g), s, n, k)
  }

  /** The one clock a node may be on: a source its own, any other node that of the only source feeding it. */
  ghost predicate HasClock(g: Graph, n: Id, clock: Option<Id>) {
    if IsSource(g, n) then clock == Some(n)
    else forall s: Id :: Feeds(g, s, n) <==> clock == Some(s)
  }

  ghost predicate FedTwice(g: Graph, n: Id) {
    exists s, t :: s != t && Feeds(g, s, n) && Feeds(g, t, n)
  }

  /** A non-source node is fed by the sources among its predecessors and by those feeding the others. */
  ghost predicate FedThrough(g: Graph, s: Id, n: Id, m: Id) {
    (m, n) in EdgesOf(g.conns) && if IsSource(g, m) then m == s else Feeds(g, s, m)
  }

  lemma FeedsByPredecessor(g: Graph, s: Id, n: Id)
    requires !IsSource(g, n)
    ensures Feeds(g, s, n) <==> exists m :: FedThrough(g, s, n, m)
  {
    var f := FeedEdges(g);
    if Feeds(g, s, n) {
      var k: nat :| k > 0 && ReachIn(f, s, n, k);
      var m := LastStep(f, s, n, k);
      if IsSource(g, m) && k > 1 {
        var b := LastStep(f, s, m, k - 1);
        assert false;
      }
      assert FedThrough(g, s, n, m);
    }
    if m :| FedThrough(g, s, n, m) {
      if IsSource(g, m) {
        StepReaches(f, m, n);
      } else {
        var k: nat :| k > 0 && ReachIn(f, s, m, k);
        AppendStep(f, s, m, n, k);
      }
    }
  }

  type ClockMap = map<Id, Option<Id>>

  function Incoming(e: Edges, clocks: ClockMap, n: Id): set<Id> {
    set p | p in Preds(e, n) && p in clocks && clocks[p].Some? :: clocks[p].value
  }

  /** The clocks met at a node are exactly the sources feeding it. */
  lemma IncomingAreFeeders(g: Graph, clocks: ClockMap, n: Id, s: Id)
    requires !IsSource(g, n)
    requires forall m :: m in Preds(EdgesOf(g.conns), n) ==> m in clocks && HasClock(g, m, clocks[m])
    ensures s in Incoming(EdgesOf(g.conns), clocks, n) <==> Feeds(g, s, n)
  {
    var e := EdgesOf(g.conns);
    FeedsByPredecessor(g, s, n);
    forall m | m in Preds(e, n) ensures clocks[m] == Some(s) <==> FedThrough(g, s, n, m) {
      assert HasClock(g, m, clocks[m]);
      if IsSource(g, m) && m == s { assert clocks[m] == Some(s); }
    }
    if Feeds(g, s, n) {
      var m :| FedThrough(g, s, n, m);
      assert m in Preds(e, n);
    }
  }

  lemma TwoMembers(s: set<Id>) returns (a: Id, b: Id)
    requires |s| > 1
    ensures a in s && b in s && a != b
  {
    a :| a in s;
    var rest := s - {a};
    assert |rest| > 0;
    b :| b in rest;
  }

  /** The known nodes among the first `i` of the order. */
  function Known(g: Graph, order: seq<Id>, i: nat): set<Id>
    requires i <= |order|
  {
    set j | 0 <= j < i && order[j] in g.contracts :: order[j]
  }

  ghost predicate Exact(g: Graph, clocks: ClockMap) {
    forall n {:trigger HasClock(g, n, clocks[n])} :: n in clocks ==> HasClock(g, n, clocks[n])
  }

  ghost predicate SomeFedTwice(g: Graph, nodes: set<Id>) {
    exists n :: n in nodes && !IsSource(g, n) && FedTwice(g, n)
  }

  lemma PredecessorsKnown(g: Graph, nodes: set<Id>, order: seq<Id>, i: nat, m: Id)
    requires Topological(nodes, EdgesOf(g.conns), order) && i < |order| && m in Preds(EdgesOf(g.conns), order[i])
    requires forall c :: c in g.conns ==> c.src in g.contracts
    ensures m in Known(g, order, i)
  {
    assert Available(nodes, EdgesOf(g.conns), Taken(order, i), order[i]);
    var j :| 0 <= j < i && order[j] == m;
    var c :| c in g.conns && (c.src, c.dst) == (m, order[i]);
  }

  /** One node's clock, its predecessors' being exact. */
  lemma ClockStep(g: Graph, nodes: set<Id>, order: seq<Id>, i: nat, clocks: ClockMap)
    requires Topological(nodes, EdgesOf(g.conns), order) && i < |order| && !IsSource(g, order[i])
    requires forall c :: c in g.conns ==> c.src in g.contracts
    requires clocks.Keys == Known(g, order, i) && Exact(g, clocks)
    ensures var incoming := Incoming(EdgesOf(g.conns), clocks, order[i]);
            && (|incoming| > 1 ==> FedTwice(g, order[i]))
            && (incoming == {} ==> HasClock(g, order[i], None))
            && (forall s :: incoming == {s} ==> HasClock(g, order[i], Some(s)))
  {
    var n := order[i];
    var incoming := Incoming(EdgesOf(g.conns), clocks, n);
    forall m | m in Preds(EdgesOf(g.conns), n) ensures m in clocks && HasClock(g, m, clocks[m]) {
      PredecessorsKnown(g, nodes, order, i, m);
    }
    forall s ensures s in incoming <==> Feeds(g, s, n) { IncomingAreFeeders(g, clocks, n, s); }
    if |incoming| > 1 {
      var a, b := TwoMembers(incoming);
      assert Feeds(g, a, n) && Feeds(g, b, n);
    }
  }

  /** Even after a conflict elsewhere, a node's clock is a source that feeds it. */
  ghost predicate Genuine(g: Graph, clocks: ClockMap) {
    forall n {:trigger clocks[n]} :: n in clocks && clocks[n].Some? ==>
      if IsSource(g, n) then clocks[n].value == n else Feeds(g, clocks[n].value, n)
  }

  lemma GenuineIncoming(g: Graph, clocks: ClockMap, n: Id)
    requires Genuine(g, clocks) && !IsSource(g, n)
    ensures forall s :: s in Incoming(EdgesOf(g.conns), clocks, n) ==> Feeds(g, s, n)
    ensures |Incoming(EdgesOf(g.conns), clocks, n)| > 1 ==> FedTwice(g, n)
  {
    var incoming := Incoming(EdgesOf(g.conns), clocks, n);
    forall s | s in incoming ensures Feeds(g, s, n) {
      var m :| m in Preds(EdgesOf(g.conns), n) && m in clocks && clocks[m] == Some(s);
      FeedsByPredecessor(g, s, n);
      assert FedThrough(g, s, n, m);
    }
    if |incoming| > 1 {
      var a, b := TwoMembers(incoming);
      assert Feeds(g, a, n) && Feeds(g, b, n);
    }
  }

  lemma ExactExcludesConflict(g: Graph, clocks: ClockMap)
    requires Exact(g, clocks)
    ensures !SomeFedTwice(g, clocks.Keys)
  {
    forall n | n in clocks && !IsSource(g, n) ensures !FedTwice(g, n) {
      assert HasClock(g, n, clocks[n]);
    }
  }

  ghost predicate ClockIssue(g: Graph, x: Issue) {
    x.ClockMismatch? && x.node in g.contracts && !IsSource(g, x.node) && FedTwice(g, x.node)
  }

  /** Different clocks meet at a node. */
  predicate ClocksMeet(g: Graph, clocks: ClockMap, n: Id) {
    n in clocks && !IsSource(g, n) && |Incoming(EdgesOf(g.conns), clocks, n)| > 1
  }

  /** A source has its own clock, any other node the one its predecessors have, if that is one. */
  ghost predicate FromPredecessors(g: Graph, clocks: ClockMap, n: Id)
    requires n in clocks
  {
    if IsSource(g, n) then clocks[n] == Some(n)
    else forall s :: clocks[n] == Some(s) <==> Incoming(EdgesOf(g.conns), clocks, n) == {s}
  }

  ghost predicate ClockTable(g: Graph, clocks: ClockMap) {
    forall n {:trigger FromPredecessors(g, clocks, n)} :: n in clocks ==> FromPredecessors(g, clocks, n)
  }

  lemma OneMember(s: set<Id>)
    ensures |s| > 1 ==> forall x :: s != {x}
    ensures |s| == 1 ==> forall x :: s == {x} <==> x == Only(s)
  {
    forall x | s == {x} ensures |s| == 1 && x == Only(s) {
      assert Only(s) in s;
    }
  }

  /** A node's clock, once found, changes nothing for the nodes before it. */
  lemma LaterClock(g: Graph, nodes: set<Id>, order: seq<Id>, i: nat, clocks: ClockMap, clock: Option<Id>)
    requires Topological(nodes, EdgesOf(g.conns), order) && i < |order| && clocks.Keys == Known(g, order, i)
    requires ClockTable(g, clocks) && order[i] in g.contracts
    requires FromPredecessors(g, clocks[order[i] := clock], order[i])
    ensures var more := clocks[order[i] := clock];
            && ClockTable(g, more)
            && Incoming(EdgesOf(g.conns), more, order[i]) == Incoming(EdgesOf(g.conns), clocks, order[i])
            && forall n :: n in clocks ==> (ClocksMeet(g, more, n) <==> ClocksMeet(g, clocks, n))
  {
    var e, more := EdgesOf(g.conns), clocks[order[i] := clock];
    NotBefore(nodes, e, order, i, i);
    SameIncoming(e, clocks, order[i], clock, order[i]);
    forall n | n in clocks ensures Incoming(e, more, n) == Incoming(e, clocks, n) && FromPredecessors(g, clocks, n) {
      var j :| 0 <= j < i && order[j] == n;
      NotBefore(nodes, e, order, i, j);
      SameIncoming(e, clocks, order[i], clock, n);
    }
    forall n | n in more ensures FromPredecessors(g, more, n) {
      if n in clocks {
        var j :| 0 <= j < i && order[j] == n;
        NotBefore(nodes, e, order, i, i);
        assert n in Taken(order, i);
      }
    }
  }

  lemma NotBefore(nodes: set<Id>, e: Edges, order: seq<Id>, i: nat, j: nat)
    requires Topological(nodes, e, order) && j <= i < |order|
    ensures order[i] !in Preds(e, order[j]) && order[i] !in Taken(order, j)
  {
    assert Available(nodes, e, Taken(order, j), order[j]);
    assert Available(nodes, e, Taken(order, i), order[i]);
    assert Taken(order, j) <= Taken(order, i);
  }

  lemma SameIncoming(e: Edges, clocks: ClockMap, m: Id, clock: Option<Id>, n: Id)
    requires m !in Preds(e, n)
    ensures Incoming(e, clocks[m := clock], n) == Incoming(e, clocks, n)
  {
    var more := clocks[m := clock];
    assert forall p :: p in Preds(e, n) ==> (p in more <==> p in clocks) && (p in clocks ==> more[p] == clocks[p]);
  }

  /** One turn of the loop. */
  method NextClock(g: Graph, ghost nodes: set<Id>, order: seq<Id>, i: nat, clocks: ClockMap, ghost exact: bool)
    returns (clock: Option<Id>, raised: seq<Issue>)
    requires Topological(nodes, EdgesOf(g.conns), order) && i < |order| && order[i] in g.contracts
    requires forall c :: c in g.conns ==> c.src in g.contracts
    requires clocks.Keys == Known(g, order, i) && Genuine(g, clocks) && (exact ==> Exact(g, clocks))
    ensures var more := clocks[order[i] := clock];
            && FromPredecessors(g, more, order[i]) && Genuine(g, more)
            && raised == (if ClocksMeet(g, more, order[i]) then [ClockMismatch(order[i])] else [])
            && (raised != [] ==> ClockIssue(g, ClockMismatch(order[i])))
            && (exact && raised == [] ==> Exact(g, more))
  {
    var n := order[i];
    clock, raised := None, [];
    NotBefore(nodes, EdgesOf(g.conns), order, i, i);
    if IsSource(g, n) {
      clock := Some(n);
    } else {
      if exact { ClockStep(g, nodes, order, i, clocks); }
      GenuineIncoming(g, clocks, n);
      var incoming := Incoming(EdgesOf(g.conns), clocks, n);
      OneMember(incoming);
      if |incoming| > 1 {
        raised := [ClockMismatch(n)];
      } else if incoming != {} {
        assert |incoming| == 1;
        clock := Some(Only(incoming));
      }
      SameIncoming(EdgesOf(g.conns), clocks, n, clock, n);
    }
  }

  /** The clocks are those the predecessors have, and reported are exactly the nodes where different ones meet. Each
      of these is fed by two sources, and there is one if any ordered node is; without one, every ordered node of
      known type is on its unique clock. */
  method AnalyzeClocks(g: Graph, ghost nodes: set<Id>, order: seq<Id>) returns (clocks: ClockMap, issues: seq<Issue>)
    requires Topological(nodes, EdgesOf(g.conns), order)
    requires forall c :: c in g.conns ==> c.src in g.contracts
    ensures clocks.Keys == Known(g, order, |order|) && ClockTable(g, clocks)
    ensures forall x :: x in issues <==> x.ClockMismatch? && ClocksMeet(g, clocks, x.node)
    ensures forall x :: x in issues ==> ClockIssue(g, x)
    ensures issues == [] <==> !SomeFedTwice(g, Known(g, order, |order|))
    ensures issues == [] ==> Exact(g, clocks)
  {
    clocks, issues := map[], [];
    for i := 0 to |order|
      invariant clocks.Keys == Known(g, order, i) && ClockTable(g, clocks)
      invariant forall x :: x in issues <==> x.ClockMismatch? && ClocksMeet(g, clocks, x.node)
      invariant forall x :: x in issues ==> ClockIssue(g, x)
      invariant Genuine(g, clocks)
      invariant issues == [] ==> Exact(g, clocks)
      invariant issues != [] ==> SomeFedTwice(g, Known(g, order, i))
    {
      assert Known(g, order, i + 1) == Known(g, order, i) + if order[i] in g.contracts then {order[i]} else {};
      if order[i] in g.contracts {
        ghost var exact := issues == [];
        var clock, raised := NextClock(g, nodes, order, i, clocks, exact);
        NotBefore(nodes, EdgesOf(g.conns), order, i, i);
        LaterClock(g, nodes, order, i, clocks, clock);
        clocks, issues := clocks[order[i] := clock], issues + raised;
      }
    }
    if issues == [] { ExactExcludesConflict(g, clocks); }
  }

  /* ---- demand ---- */

  /** The least predecessor-closed set of nodes that contains the roots (`_upstream_reachable`). */
  method UpstreamReachable(roots: set<Id>, e: Edges) returns (reachable: set<Id>)
    ensures roots <= reachable && Closed(e, reachable)
    ensures forall s :: roots <= s && Closed(e, s) ==> reachable <= s
  {
    reachable := roots;
    var pending := roots;
    ghost var all := roots + set p | p in e :: p.0;
    while pending != {}
      invariant roots <= reachable <= all && pending <= reachable
      invariant forall n {:trigger Preds(e, n)} :: n in reachable && n !in pending ==> Preds(e, n) <= reachable
      invariant forall s :: roots <= s && Closed(e, s) ==> reachable <= s
      decreases all - reachable, pending
    {
      var n :| n in pending;
      var found := Preds(e, n) - reachable;
      forall s | roots <= s && Closed(e, s) ensures Preds(e, n) <= s {
        assert n in s;
      }
      reachable := reachable + found;
      pending := (pending - {n}) + found;
    }
  }
}
