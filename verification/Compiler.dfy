/** Compilation of any snapshot to a plan of its valid part (`GraphCompiler.compile`). */
module Compiler {
  import opened Common
  import opened NodeContracts
  import opened GraphModel
  import opened TypeInference
  import opened Validation
  import opened Analysis
  import opened Plans
  import opened Isolation
  import opened SpareSockets

  /* ---- excluding the broken parts ---- */

  function KeepNodes(nodes: seq<Node>, dropped: set<Id>): (r: seq<Node>)
    ensures |r| <= |nodes| && forall n :: n in r <==> n in nodes && n.id !in dropped
    ensures |r| == |nodes| ==> forall n :: n in nodes ==> n.id !in dropped
  {
    if nodes == [] then [] else
      var rest := KeepNodes(nodes[1..], dropped);
      assert forall n :: n in nodes <==> n == nodes[0] || n in nodes[1..];
      if nodes[0].id in dropped then rest else [nodes[0]] + rest
  }

  predicate Survives(c: Connection, droppedNodes: set<Id>, droppedConnections: set<Id>) {
    c.id !in droppedConnections && c.src !in droppedNodes && c.dst !in droppedNodes
  }

  function KeepConnections(cs: seq<Connection>, droppedNodes: set<Id>,
                           droppedConnections: set<Id>): (r: seq<Connection>)
    ensures |r| <= |cs| && forall c :: c in r <==> c in cs && Survives(c, droppedNodes, droppedConnections)
    ensures |r| == |cs| <==> forall c :: c in cs ==> Survives(c, droppedNodes, droppedConnections)
  {
    if cs == [] then [] else
      var rest := KeepConnections(cs[1..], droppedNodes, droppedConnections);
      assert forall c :: c in cs <==> c == cs[0] || c in cs[1..];
      if Survives(cs[0], droppedNodes, droppedConnections) then [cs[0]] + rest else rest
  }

  ghost predicate PartOf(part: Snapshot, whole: Snapshot) {
    && part.document == whole.document && part.revision == whole.revision
    && (forall n :: n in part.nodes ==> n in whole.nodes)
    && (forall c :: c in part.connections ==> c in whole.connections)
  }

  function Size(s: Snapshot): nat { |s.nodes| + |s.connections| }

  /** Nodes an issue names or a port of which is unsettled. */
  function DroppedNodes(s: Snapshot, a: Analyzed): set<Id> {
    ((set x | x in a.issues && NamesNode(x) :: x.node)
     + (set k | k in a.resolved && a.resolved[k].None? :: k.node)) * NodeIds(s)
  }

  function DroppedConnections(a: Analyzed): set<Id> {
    set x | x in a.issues && NamesConnection(x) :: x.connection
  }

  function Reduced(s: Snapshot, a: Analyzed): Snapshot {
    s.(nodes := KeepNodes(s.nodes, DroppedNodes(s, a)),
       connections := KeepConnections(s.connections, DroppedNodes(s, a), DroppedConnections(a)))
  }

  /* ---- what a round of reduction leaves out ---- */

  /** A part of the snapshot as it was analyzed: what was reported of it, its clocks, and its ports without a type. */
  datatype Round = Round(part: Snapshot, issues: seq<Issue>, clocks: Clocks.ClockMap, untyped: set<PortKey>)

  function RoundOf(s: Snapshot, a: Analyzed): Round {
    Round(s, a.issues, a.clocks, set k | k in a.resolved && a.resolved[k].None?)
  }

  /** The report is exact but for requested roots that are not there: exactly the faults of the part, clock conflicts
      where clocks meet, and exactly the ports without a type. */
  ghost predicate IsReport(reg: Registry, r: Round)
    requires WellFormedRegistry(reg)
  {
    GraphOfIsWellFormed(reg, r.part);
    var g := GraphOf(reg, r.part);
    && Clocks.ClockTable(g, r.clocks)
    && (forall x :: x in r.issues ==> FaultIn(reg, r.part, x) || (x.UnknownDemandRoot? && x.node !in NodeIds(r.part)))
    && (forall x :: FaultIn(reg, r.part, x) && !x.ClockMismatch? ==> x in r.issues)
    && (forall x :: x in r.issues && x.ClockMismatch? <==> x.ClockMismatch? && Clocks.ClocksMeet(g, r.clocks, x.node))
    && (forall k :: k in r.untyped <==> IsPort(g, k) && TypeOf(g, k).None?)
  }

  /** An issue names the node, or one of its ports has no type. */
  ghost predicate NodeBlamed(r: Round, n: Id) {
    && n in NodeIds(r.part)
    && ((exists x :: x in r.issues && NamesNode(x) && x.node == n) || exists k :: k in r.untyped && k.node == n)
  }

  ghost predicate ConnectionBlamed(r: Round, id: Id) {
    exists x :: x in r.issues && NamesConnection(x) && x.connection == id
  }

  /** Only unresolved wiring and repeated connection ids leave the nodes alone; connections are named by what is wrong
      with them and by nothing else. */
  lemma WhatIssuesName(x: Issue)
    ensures !NamesNode(x) <==> x.DuplicateConnectionId? || x.MissingSourceNode? || x.MissingDestinationNode?
    ensures NamesConnection(x) <==>
            !NamesNode(x) || x.UnknownOutputPort? || x.UnknownInputPort? || x.IncompatiblePortTypes?
  {
  }

  /** Left out are exactly the nodes blamed, the connections blamed, and the connections of the nodes blamed. */
  ghost predicate Reduces(r: Round, next: Snapshot) {
    && next == r.part.(nodes := next.nodes, connections := next.connections)
    && next.nodes == Filter(r.part.nodes, (n: Node) => !NodeBlamed(r, n.id))
    && next.connections == Filter(r.part.connections, (c: Connection) => !ConnectionLeaves(r, c))
  }

  ghost predicate ConnectionLeaves(r: Round, c: Connection) {
    ConnectionBlamed(r, c.id) || NodeBlamed(r, c.src) || NodeBlamed(r, c.dst)
  }

  lemma {:induction false} KeptNodesFiltered(nodes: seq<Node>, dropped: set<Id>, keep: Node -> bool)
    requires forall n :: n in nodes ==> (keep(n) <==> n.id !in dropped)
    ensures KeepNodes(nodes, dropped) == Filter(nodes, keep)
  {
    if nodes == [] {
    } else {
      KeptNodesFiltered(nodes[1..], dropped, keep);
      FilterFirst(nodes, keep);
    }
  }

  lemma {:induction false} KeptConnectionsFiltered(cs: seq<Connection>, droppedNodes: set<Id>,
                                                   droppedConnections: set<Id>, keep: Connection -> bool)
    requires forall c :: c in cs ==> (keep(c) <==> Survives(c, droppedNodes, droppedConnections))
    ensures KeepConnections(cs, droppedNodes, droppedConnections) == Filter(cs, keep)
  {
    if cs == [] {
    } else {
      KeptConnectionsFiltered(cs[1..], droppedNodes, droppedConnections, keep);
      FilterFirst(cs, keep);
    }
  }

  lemma ReducedReduces(s: Snapshot, a: Analyzed)
    ensures Reduces(RoundOf(s, a), Reduced(s, a))
  {
    var r, nodes, connections := RoundOf(s, a), DroppedNodes(s, a), DroppedConnections(a);
    forall n ensures n in nodes <==> NodeBlamed(r, n) {
      if NodeBlamed(r, n) && !exists x :: x in r.issues && NamesNode(x) && x.node == n {
        var k :| k in r.untyped && k.node == n;
        assert k in a.resolved && a.resolved[k].None?;
      }
      if n in nodes && !exists x :: x in r.issues && NamesNode(x) && x.node == n {
        var k :| k in a.resolved && a.resolved[k].None? && k.node == n;
        assert k in r.untyped;
      }
    }
    forall id ensures id in connections <==> ConnectionBlamed(r, id) { }
    KeptNodesFiltered(s.nodes, nodes, (n: Node) => !NodeBlamed(r, n.id));
    KeptConnectionsFiltered(s.connections, nodes, connections, (c: Connection) => !ConnectionLeaves(r, c));
  }

  lemma RoundIsReport(reg: Registry, s: Snapshot, requested: Requested, a: Analyzed)
    requires WellFormedRegistry(reg) && WellFormedGraph(a.graph) && Describes(reg, s, requested, a)
    requires forall x :: x in a.issues <==> Reported(reg, s, requested, a.clocks, x)
    requires forall x :: x in a.issues ==> FaultIn(reg, s, x) || UnknownRootIssue(s, requested, x)
    ensures IsReport(reg, RoundOf(s, a))
  {
  }

  /** The rounds that lead from a snapshot to what is kept of it. */
  ghost predicate Trail(reg: Registry, s: Snapshot, rounds: seq<Round>, kept: Snapshot)
    requires WellFormedRegistry(reg)
  {
    && PartAt(rounds, 0, kept) == s
    && forall i {:trigger IsRound(reg, rounds, i, kept)} :: 0 <= i < |rounds| ==> IsRound(reg, rounds, i, kept)
  }

  ghost predicate IsRound(reg: Registry, rounds: seq<Round>, i: nat, kept: Snapshot)
    requires WellFormedRegistry(reg) && i < |rounds|
  {
    IsReport(reg, rounds[i]) && Reduces(rounds[i], PartAt(rounds, i + 1, kept))
  }

  function PartAt(rounds: seq<Round>, i: nat, kept: Snapshot): Snapshot {
    if i < |rounds| then rounds[i].part else kept
  }

  lemma OneMoreRound(reg: Registry, s: Snapshot, rounds: seq<Round>, r: Round, next: Snapshot)
    requires WellFormedRegistry(reg) && Trail(reg, s, rounds, r.part) && IsReport(reg, r) && Reduces(r, next)
    ensures Trail(reg, s, rounds + [r], next)
  {
    var longer := rounds + [r];
    forall i | 0 <= i < |longer| ensures IsRound(reg, longer, i, next) {
      if i < |rounds| {
        assert IsRound(reg, rounds, i, r.part);
        assert longer[i] == rounds[i] && PartAt(longer, i + 1, next) == PartAt(rounds, i + 1, r.part);
      }
    }
  }

  /** What is not kept of the first part was left out in some round. */
  lemma {:induction false} NodeLeftOut(reg: Registry, s: Snapshot, rounds: seq<Round>, kept: Snapshot, n: Node)
    returns (i: nat)
    requires WellFormedRegistry(reg) && Trail(reg, s, rounds, kept) && n in s.nodes && n !in kept.nodes
    ensures i < |rounds| && n in rounds[i].part.nodes && NodeBlamed(rounds[i], n.id)
  {
    var m := |rounds| - 1;
    assert rounds != [];
    var front, r := rounds[..m], rounds[m];
    assert IsRound(reg, rounds, m, kept);
    FilterMembers(r.part.nodes, (n: Node) => !NodeBlamed(r, n.id));
    ShorterTrail(reg, s, rounds, kept);
    if n in r.part.nodes {
      i := m;
    } else {
      i := NodeLeftOut(reg, s, front, r.part, n);
    }
  }

  lemma {:induction false} ConnectionLeftOut(reg: Registry, s: Snapshot, rounds: seq<Round>, kept: Snapshot,
                                             c: Connection)
    returns (i: nat)
    requires WellFormedRegistry(reg) && Trail(reg, s, rounds, kept) && c in s.connections && c !in kept.connections
    ensures i < |rounds| && c in rounds[i].part.connections && ConnectionLeaves(rounds[i], c)
  {
    var m := |rounds| - 1;
    assert rounds != [];
    var front, r := rounds[..m], rounds[m];
    assert IsRound(reg, rounds, m, kept);
    FilterMembers(r.part.connections, (c: Connection) => !ConnectionLeaves(r, c));
    ShorterTrail(reg, s, rounds, kept);
    if c in r.part.connections {
      i := m;
    } else {
      i := ConnectionLeftOut(reg, s, front, r.part, c);
    }
  }

  lemma ShorterTrail(reg: Registry, s: Snapshot, rounds: seq<Round>, kept: Snapshot)
    requires WellFormedRegistry(reg) && Trail(reg, s, rounds, kept) && rounds != []
    ensures Trail(reg, s, rounds[..|rounds| - 1], rounds[|rounds| - 1].part)
  {
    var m := |rounds| - 1;
    var front := rounds[..m];
    forall i | 0 <= i < m ensures IsRound(reg, front, i, rounds[m].part) {
      assert IsRound(reg, rounds, i, kept);
      assert front[i] == rounds[i] && PartAt(front, i + 1, rounds[m].part) == PartAt(rounds, i + 1, kept);
    }
  }

  /** Whatever of `s` is not kept was blamed for something in a part it was still in. */
  ghost predicate LossesExplained(s: Snapshot, rounds: seq<Round>, kept: Snapshot) {
    && (forall n :: n in s.nodes && n !in kept.nodes ==> NodeLossExplained(rounds, n))
    && (forall c :: c in s.connections && c !in kept.connections ==> ConnectionLossExplained(rounds, c))
  }

  ghost predicate NodeLossExplained(rounds: seq<Round>, n: Node) {
    exists i {:trigger rounds[i]} :: 0 <= i < |rounds| && n in rounds[i].part.nodes && NodeBlamed(rounds[i], n.id)
  }

  ghost predicate ConnectionLossExplained(rounds: seq<Round>, c: Connection) {
    exists i {:trigger rounds[i]} ::
      0 <= i < |rounds| && c in rounds[i].part.connections && ConnectionLeaves(rounds[i], c)
  }

  lemma TrailExplainsLosses(reg: Registry, s: Snapshot, rounds: seq<Round>, kept: Snapshot)
    requires WellFormedRegistry(reg) && Trail(reg, s, rounds, kept)
    ensures LossesExplained(s, rounds, kept)
  {
    forall n | n in s.nodes && n !in kept.nodes ensures NodeLossExplained(rounds, n) {
      var i := NodeLeftOut(reg, s, rounds, kept, n);
      assert NodeBlamed(rounds[i], n.id);
    }
    forall c | c in s.connections && c !in kept.connections ensures ConnectionLossExplained(rounds, c) {
      var i := ConnectionLeftOut(reg, s, rounds, kept, c);
      assert ConnectionLeaves(rounds[i], c);
    }
  }

  /** `_reduced_snapshot`; None stands for returning the snapshot itself, when there is nothing to drop. */
  method ReducedSnapshot(s: Snapshot, a: Analyzed) returns (reduced: Option<Snapshot>)
    ensures reduced.Some? ==>
              && Reduces(RoundOf(s, a), reduced.value) && reduced.value == Reduced(s, a)
              && PartOf(reduced.value, s) && Size(reduced.value) < Size(s)
    ensures reduced.None? <==> NoneLocated(s, a.issues) && NoneUnsettled(s, a.resolved)
  {
    var named := set x | x in a.issues && NamesNode(x) :: x.node;
    var unsettled := set k | k in a.resolved && a.resolved[k].None? :: k.node;
    var droppedNodes := (named + unsettled) * NodeIds(s);
    var droppedConnections := set x | x in a.issues && NamesConnection(x) :: x.connection;
    var connections := KeepConnections(s.connections, droppedNodes, droppedConnections);
    NothingLocated(s, a.issues, droppedNodes, droppedConnections);
    NothingUnsettled(s, a, droppedNodes, named, unsettled);
    ReducedReduces(s, a);
    if droppedNodes == {} && |connections| == |s.connections| {
      reduced := None;
    } else {
      var nodes := KeepNodes(s.nodes, droppedNodes);
      reduced := Some(s.(nodes := nodes, connections := connections));
      if droppedNodes != {} {
        var d :| d in droppedNodes;
        var n :| n in s.nodes && n.id == d;
      }
    }
  }

  lemma NothingLocated(s: Snapshot, issues: seq<Issue>, droppedNodes: set<Id>, droppedConnections: set<Id>)
    requires forall x :: x in issues && NamesNode(x) && x.node in NodeIds(s) ==> x.node in droppedNodes
    requires forall x :: x in issues && NamesConnection(x) ==> x.connection in droppedConnections
    requires forall i :: i in droppedConnections ==> exists x :: x in issues && NamesConnection(x) && x.connection == i
    ensures droppedNodes == {} && (forall c :: c in s.connections ==> c.id !in droppedConnections) ==>
            NoneLocated(s, issues)
    ensures NoneLocated(s, issues) ==> forall c :: c in s.connections ==> c.id !in droppedConnections
  {
    if NoneLocated(s, issues) {
      forall c | c in s.connections ensures c.id !in droppedConnections {
        assert forall x :: x in issues && NamesConnection(x) ==> x.connection != c.id;
      }
    }
  }

  lemma NothingUnsettled(s: Snapshot, a: Analyzed, droppedNodes: set<Id>, named: set<Id>, unsettled: set<Id>)
    requires droppedNodes == (named + unsettled) * NodeIds(s)
    requires named == set x | x in a.issues && NamesNode(x) :: x.node
    requires unsettled == set k | k in a.resolved && a.resolved[k].None? :: k.node
    ensures NoneLocated(s, a.issues) && NoneUnsettled(s, a.resolved) ==> droppedNodes == {}
    ensures droppedNodes == {} ==> NoneUnsettled(s, a.resolved)
  {
    forall k | k in a.resolved && a.resolved[k].None? && k.node in NodeIds(s) ensures k.node in droppedNodes {
      assert k.node in unsettled;
    }
    if NoneLocated(s, a.issues) && NoneUnsettled(s, a.resolved) {
      forall x | x in a.issues && NamesNode(x) ensures x.node !in NodeIds(s) { assert !Located(s, x); }
    }
  }

  ghost predicate NoneUnsettled(s: Snapshot, resolved: map<PortKey, Option<PortType>>) {
    forall k :: k in resolved && resolved[k].None? ==> k.node !in NodeIds(s)
  }

  lemma SettledIffNoneUnsettled(reg: Registry, s: Snapshot, requested: Requested, a: Analyzed)
    requires WellFormedRegistry(reg) && WellFormedGraph(a.graph) && Describes(reg, s, requested, a)
    ensures NoneUnsettled(s, a.resolved) <==> EveryPortSettled(reg, s)
  {
    GraphOfIsWellFormed(reg, s);
    forall k | IsPort(a.graph, k)
      ensures k in a.resolved && k.node in NodeIds(s) && a.resolved[k] == TypeOf(a.graph, k)
    {
    }
  }

  ghost predicate NoneLocated(s: Snapshot, issues: seq<Issue>) { forall x :: x in issues ==> !Located(s, x) }

  /* ---- what reduction spares ---- */

  /** Nothing in a sheltered part is named by an issue or left without a type. */
  ghost predicate Spares(reg: Registry, s: Snapshot, a: Analyzed)
    requires WellFormedRegistry(reg)
  {
    forall part {:trigger Sheltered(reg, s, part)} :: Sheltered(reg, s, part) ==>
      part !! DroppedNodes(s, a) && forall c :: c in s.connections && c.src in part ==> c.id !in DroppedConnections(a)
  }

  lemma UnknownRootIsElsewhere(s: Snapshot, requested: Requested, part: set<Id>, x: Issue)
    requires part <= NodeIds(s) && UnknownRootIssue(s, requested, x)
    ensures Elsewhere(s, part, x)
  {
  }

  lemma NothingInsideDropped(s: Snapshot, a: Analyzed, part: set<Id>)
    requires forall x :: x in a.issues ==> Elsewhere(s, part, x)
    requires forall k :: k in a.resolved && k.node in part ==> a.resolved[k].Some?
    ensures part !! DroppedNodes(s, a) && forall c :: c in s.connections && c.src in part ==>
            c.id !in DroppedConnections(a)
  {
  }

  lemma IssueIsElsewhere(reg: Registry, s: Snapshot, requested: Requested, part: set<Id>, x: Issue)
    requires WellFormedRegistry(reg) && Sheltered(reg, s, part)
    requires FaultIn(reg, s, x) || UnknownRootIssue(s, requested, x)
    ensures Elsewhere(s, part, x)
  {
    if FaultIn(reg, s, x) {
      FaultsAreElsewhere(reg, s, part, Part(s, part), x);
    } else {
      UnknownRootIsElsewhere(s, requested, part, x);
    }
  }

  lemma PortInsideIsSettled(reg: Registry, s: Snapshot, requested: Requested, a: Analyzed, part: set<Id>, k: PortKey)
    requires WellFormedRegistry(reg) && WellFormedGraph(a.graph) && Describes(reg, s, requested, a)
    requires Sheltered(reg, s, part) && k in a.resolved && k.node in part
    ensures a.resolved[k].Some?
  {
    GraphOfIsWellFormed(reg, Part(s, part));
    PartIsCut(reg, s, part, Part(s, part));
    TypeCut(a.graph, GraphOf(reg, Part(s, part)), part, k);
  }

  lemma AnalysisSpares(reg: Registry, s: Snapshot, requested: Requested, a: Analyzed)
    requires WellFormedRegistry(reg) && WellFormedGraph(a.graph) && Describes(reg, s, requested, a)
    requires forall x :: x in a.issues ==> FaultIn(reg, s, x) || UnknownRootIssue(s, requested, x)
    ensures Spares(reg, s, a)
  {
    forall part | Sheltered(reg, s, part)
      ensures part !! DroppedNodes(s, a) && forall c :: c in s.connections && c.src in part ==>
              c.id !in DroppedConnections(a)
    {
      forall x | x in a.issues ensures Elsewhere(s, part, x) {
        IssueIsElsewhere(reg, s, requested, part, x);
      }
      forall k | k in a.resolved && k.node in part ensures a.resolved[k].Some? {
        PortInsideIsSettled(reg, s, requested, a, part, k);
      }
      NothingInsideDropped(s, a, part);
    }
  }

  lemma {:induction false} KeptNodesInside(nodes: seq<Node>, dropped: set<Id>, part: set<Id>)
    requires part !! dropped
    ensures NodesIn(KeepNodes(nodes, dropped), part) == NodesIn(nodes, part)
  {
    if nodes == [] {
    } else {
      KeptNodesInside(nodes[1..], dropped, part);
    }
  }

  lemma {:induction false} KeptConnectionsInside(cs: seq<Connection>, droppedNodes: set<Id>,
                                                 droppedConnections: set<Id>, part: set<Id>)
    requires part !! droppedNodes
    requires forall c :: c in cs ==>
             (c.src in part <==> c.dst in part) && (c.src in part ==> c.id !in droppedConnections)
    ensures ConnectionsIn(KeepConnections(cs, droppedNodes, droppedConnections), part) == ConnectionsIn(cs, part)
  {
    if cs == [] {
    } else {
      assert cs[0] in cs && forall c :: c in cs[1..] ==> c in cs;
      KeptConnectionsInside(cs[1..], droppedNodes, droppedConnections, part);
    }
  }

  ghost predicate NodesDistinctIn(nodes: seq<Node>, part: set<Id>) {
    forall i, j :: 0 <= i < j < |nodes| && nodes[i].id == nodes[j].id ==> nodes[i].id !in part
  }

  lemma FirstNodeApart(nodes: seq<Node>, part: set<Id>)
    requires nodes != [] && NodesDistinctIn(nodes, part)
    ensures NodesDistinctIn(nodes[1..], part)
    ensures forall n :: n in nodes[1..] && n.id == nodes[0].id ==> n.id !in part
  {
    var rest := nodes[1..];
    forall i, j | 0 <= i < j < |rest| && rest[i].id == rest[j].id ensures rest[i].id !in part {
      assert nodes[i + 1].id == nodes[j + 1].id;
    }
    forall n | n in rest && n.id == nodes[0].id ensures n.id !in part {
      var i :| 0 <= i < |rest| && rest[i] == n;
      assert nodes[i + 1].id == nodes[0].id;
    }
  }

  lemma PrependedNode(n: Node, rest: seq<Node>, part: set<Id>)
    requires NodesDistinctIn(rest, part) && forall m :: m in rest && m.id == n.id ==> m.id !in part
    ensures NodesDistinctIn([n] + rest, part)
  {
    var all := [n] + rest;
    forall i, j | 0 <= i < j < |all| && all[i].id == all[j].id ensures all[i].id !in part {
      assert all[j] == rest[j - 1] && rest[j - 1] in rest;
      assert i > 0 ==> all[i] == rest[i - 1];
    }
  }

  lemma {:induction false} KeptNodesDistinct(nodes: seq<Node>, dropped: set<Id>, part: set<Id>)
    requires NodesDistinctIn(nodes, part)
    ensures NodesDistinctIn(KeepNodes(nodes, dropped), part)
  {
    if nodes == [] {
    } else {
      FirstNodeApart(nodes, part);
      KeptNodesDistinct(nodes[1..], dropped, part);
      var rest := KeepNodes(nodes[1..], dropped);
      PrependedNode(nodes[0], rest, part);
    }
  }

  ghost predicate ConnectionsDistinctIn(cs: seq<Connection>, part: set<Id>) {
    forall i, j :: 0 <= i < j < |cs| && cs[i].id == cs[j].id ==> cs[i].src !in part && cs[j].src !in part
  }

  lemma FirstConnectionApart(cs: seq<Connection>, part: set<Id>)
    requires cs != [] && ConnectionsDistinctIn(cs, part)
    ensures ConnectionsDistinctIn(cs[1..], part)
    ensures forall c :: c in cs[1..] && c.id == cs[0].id ==> c.src !in part && cs[0].src !in part
  {
    var rest := cs[1..];
    forall i, j | 0 <= i < j < |rest| && rest[i].id == rest[j].id ensures rest[i].src !in part && rest[j].src !in part {
      assert cs[i + 1].id == cs[j + 1].id;
    }
    forall c | c in rest && c.id == cs[0].id ensures c.src !in part && cs[0].src !in part {
      var i :| 0 <= i < |rest| && rest[i] == c;
      assert cs[i + 1].id == cs[0].id;
    }
  }

  lemma PrependedConnection(c: Connection, rest: seq<Connection>, part: set<Id>)
    requires ConnectionsDistinctIn(rest, part) && forall d :: d in rest && d.id == c.id ==>
             d.src !in part && c.src !in part
    ensures ConnectionsDistinctIn([c] + rest, part)
  {
    var all := [c] + rest;
    forall i, j | 0 <= i < j < |all| && all[i].id == all[j].id ensures all[i].src !in part && all[j].src !in part {
      assert all[j] == rest[j - 1] && rest[j - 1] in rest;
      assert i > 0 ==> all[i] == rest[i - 1];
    }
  }

  lemma {:induction false} KeptConnectionsDistinct(cs: seq<Connection>, droppedNodes: set<Id>,
                                                   droppedConnections: set<Id>, part: set<Id>)
    requires ConnectionsDistinctIn(cs, part)
    ensures ConnectionsDistinctIn(KeepConnections(cs, droppedNodes, droppedConnections), part)
  {
    if cs == [] {
    } else {
      FirstConnectionApart(cs, part);
      KeptConnectionsDistinct(cs[1..], droppedNodes, droppedConnections, part);
      var rest := KeepConnections(cs[1..], droppedNodes, droppedConnections);
      PrependedConnection(cs[0], rest, part);
    }
  }

  /** Reduction leaves a sheltered part as it was. */
  lemma ReductionShelters(reg: Registry, s: Snapshot, a: Analyzed, part: set<Id>)
    requires WellFormedRegistry(reg) && Spares(reg, s, a) && Sheltered(reg, s, part)
    ensures Part(Reduced(s, a), part) == Part(s, part) && Sheltered(reg, Reduced(s, a), part)
  {
    var nodes, connections := DroppedNodes(s, a), DroppedConnections(a);
    KeptNodesInside(s.nodes, nodes, part);
    KeptConnectionsInside(s.connections, nodes, connections, part);
    KeptNodesDistinct(s.nodes, nodes, part);
    KeptConnectionsDistinct(s.connections, nodes, connections, part);
    forall n | n in part ensures n in NodeIds(Reduced(s, a)) {
      var m :| m in s.nodes && m.id == n;
      assert m in Reduced(s, a).nodes;
    }
  }

  /** Every sheltered part of `s` is still there, as it was. */
  ghost predicate SheltersKept(reg: Registry, s: Snapshot, kept: Snapshot)
    requires WellFormedRegistry(reg)
  {
    forall part {:trigger Sheltered(reg, s, part)} :: Sheltered(reg, s, part) ==>
      Sheltered(reg, kept, part) && Part(kept, part) == Part(s, part)
  }

  lemma SheltersSurvive(reg: Registry, s: Snapshot, current: Snapshot, a: Analyzed)
    requires WellFormedRegistry(reg) && SheltersKept(reg, s, current) && Spares(reg, current, a)
    ensures SheltersKept(reg, s, Reduced(current, a))
  {
    forall part | Sheltered(reg, s, part)
      ensures Sheltered(reg, Reduced(current, a), part) && Part(Reduced(current, a), part) == Part(s, part)
    {
      ReductionShelters(reg, current, a, part);
    }
  }

  /** `_surviving_roots`. */
  function SurvivingRoots(requested: Requested, s: Snapshot): Requested {
    if requested.None? then None else Some(requested.value * NodeIds(s))
  }

  /* ---- the compiler ---- */

  /** The outcome: a sound plan, under the snapshot's identity, covering a valid part of it and
      demanding the requested nodes of that part. */
  ghost predicate CompiledFrom(reg: Registry, s: Snapshot, requested: Requested, kept: Snapshot, plan: Plan)
    requires WellFormedRegistry(reg)
  {
    PartOf(kept, s) && IsPlanFor(reg, s, kept, SurvivingRoots(requested, kept), plan)
  }

  ghost predicate IsPlanFor(reg: Registry, s: Snapshot, kept: Snapshot, roots: Requested, plan: Plan)
    requires WellFormedRegistry(reg)
  {
    && Valid(reg, kept)
    && plan.document == s.document && plan.revision == s.revision
    && plan.roots == DemandRoots(GraphOf(reg, kept), roots)
    && Sound(plan) && Covers(reg, kept, plan)
  }

  method PlanOf(reg: Registry, s: Snapshot, kept: Snapshot, ghost roots: Requested, a: Analyzed) returns (plan: Plan)
    requires WellFormedRegistry(reg) && WellFormedGraph(a.graph) && Describes(reg, kept, roots, a)
    requires Valid(reg, kept) && a.clocks.Keys == a.graph.contracts.Keys && Clocks.Exact(a.graph, a.clocks)
    ensures IsPlanFor(reg, s, kept, roots, plan)
  {
    ValidAnalysisIsReady(reg, kept, roots, a);
    plan := BuildPlan(s.document, s.revision, a);
    PlanIsSound(a, plan);
    GraphOfIsWellFormed(reg, kept);
    PlanCovers(reg, kept, a, plan);
  }

  /** What a failed attempt tells: the part is invalid or a root is missing, and it is valid only if no
      issue can be located in it. */
  ghost predicate Diagnosed(reg: Registry, part: Snapshot, roots: Requested, a: Analyzed)
    requires WellFormedRegistry(reg)
  {
    && !(Valid(reg, part) && RootsPresent(part, roots))
    && Spares(reg, part, a) && IsReport(reg, RoundOf(part, a))
    && (Valid(reg, part) <==> NoneLocated(part, a.issues))
    && (EveryPortSettled(reg, part) <==> NoneUnsettled(part, a.resolved))
  }

  /** Analyze one part of the snapshot and plan it if nothing is wrong with it. */
  method Attempt(reg: Registry, s: Snapshot, part: Snapshot, roots: Requested) returns (a: Analyzed, plan: Option<Plan>)
    requires WellFormedRegistry(reg)
    ensures plan.Some? <==> a.issues == []
    ensures plan.Some? <==> Valid(reg, part) && RootsPresent(part, roots)
    ensures plan.Some? ==> IsPlanFor(reg, s, part, roots, plan.value)
    ensures plan.None? ==> Diagnosed(reg, part, roots, a)
    ensures forall x :: x in a.issues <==> Reported(reg, part, roots, a.clocks, x)
  {
    a := Analyze(reg, part, roots);
    SettledIffNoneUnsettled(reg, part, roots, a);
    AnalysisSpares(reg, part, roots, a);
    RoundIsReport(reg, part, roots, a);
    plan := None;
    if a.issues == [] {
      var p := PlanOf(reg, s, part, roots, a);
      plan := Some(p);
    }
  }

  lemma PartOfPart(a: Snapshot, b: Snapshot, c: Snapshot)
    requires PartOf(a, b) && PartOf(b, c)
    ensures PartOf(a, c)
  {
  }

  /** When nothing can be dropped, the part is valid and only requested roots outside it are missing. */
  lemma NothingDropped(reg: Registry, part: Snapshot, requested: Requested, roots: Requested, a: Analyzed)
    requires WellFormedRegistry(reg) && Diagnosed(reg, part, roots, a) && NoneLocated(part, a.issues)
    requires roots == requested || roots == SurvivingRoots(requested, part)
    ensures Valid(reg, part) && RootsPresent(part, SurvivingRoots(requested, part))
            && SurvivingRoots(requested, part) != requested
  {
    SurvivorsArePresent(part, requested);
  }

  /** The reduce-and-revalidate loop: each round strictly shrinks the part, and it cannot end without a plan. */
  method CompileRemainder(reg: Registry, s: Snapshot, requested: Requested, full: Analyzed)
    returns (plan: Option<Plan>, ghost kept: Snapshot, ghost rounds: seq<Round>)
    requires WellFormedRegistry(reg) && Diagnosed(reg, s, requested, full)
    ensures Trail(reg, s, rounds, kept)
    ensures plan.Some? && CompiledFrom(reg, s, requested, kept, plan.value)
    ensures SheltersKept(reg, s, kept)
    ensures kept == s <==> NoneLocated(s, full.issues) && NoneUnsettled(s, full.resolved)
  {
    var current, analysis := s, full;
    ghost var roots := requested;
    ghost var whole := NoneLocated(s, full.issues) && NoneUnsettled(s, full.resolved);
    rounds := [];
    while true
      invariant Trail(reg, s, rounds, current)
      invariant PartOf(current, s) && (Size(current) < Size(s) ==> !whole)
      invariant Size(current) < Size(s) || (current == s && analysis == full)
      invariant roots == requested || roots == SurvivingRoots(requested, current)
      invariant Diagnosed(reg, current, roots, analysis) && SheltersKept(reg, s, current)
      decreases Size(current)
    {
      var reduced := ReducedSnapshot(current, analysis);
      kept, plan := current, None;
      if reduced.None? {
        NothingDropped(reg, current, requested, roots, analysis);
        var surviving := SurvivingRoots(requested, current);
        if surviving != requested {
          analysis, plan := Attempt(reg, s, current, surviving);
        }
        return;
      }
      OneMoreRound(reg, s, rounds, RoundOf(current, analysis), reduced.value);
      rounds := rounds + [RoundOf(current, analysis)];
      PartOfPart(reduced.value, current, s);
      SheltersSurvive(reg, s, current, analysis);
      current, kept := reduced.value, reduced.value;
      roots := SurvivingRoots(requested, current);
      analysis, plan := Attempt(reg, s, current, SurvivingRoots(requested, current));
      if plan.Some? {
        return;
      }
    }
  }

  /** Every self-contained part of `s` that is valid by itself is still there, as it was. */
  ghost predicate ValidPartsKept(reg: Registry, s: Snapshot, kept: Snapshot)
    requires WellFormedRegistry(reg)
  {
    forall part {:trigger SelfContained(s, part)} ::
      SelfContained(s, part) && Valid(reg, Part(s, part)) ==> Part(kept, part) == Part(s, part)
  }

  lemma PlainPartsKept(reg: Registry, s: Snapshot, kept: Snapshot)
    requires WellFormedRegistry(reg) && PlainFamilies(reg) && SheltersKept(reg, s, kept)
    ensures ValidPartsKept(reg, s, kept)
  {
    forall part | SelfContained(s, part) && Valid(reg, Part(s, part)) ensures Part(kept, part) == Part(s, part) {
      ValidMeansEveryPortSettled(reg, Part(s, part));
      assert Sheltered(reg, s, part);
    }
  }

  /** The roots of the plan: the requested nodes that are kept; without a request the sinks and visualizers kept, or if
      there are none the nodes nothing reads from. */
  ghost predicate RootsOf(reg: Registry, requested: Requested, kept: Snapshot, roots: set<Id>) {
    forall n :: n in roots <==>
                  && n in NodeIds(kept)
                  && if requested.Some? then n in requested.value
                     else if exists m :: m in kept.nodes && ShowsOrConsumes(reg, m)
                     then exists m :: m in kept.nodes && m.id == n && ShowsOrConsumes(reg, m)
                     else forall c :: c in kept.connections ==> c.src != n
  }

  predicate ShowsOrConsumes(reg: Registry, n: Node) {
    n.typeId in reg && (reg[n.typeId].kind == Sink || reg[n.typeId].kind == Visualizer)
  }

  lemma GraphKeepsNodes(reg: Registry, s: Snapshot)
    requires UniqueIds(s) && forall n :: n in s.nodes ==> n.typeId in reg
    ensures var nodes := FirstNodes(s.nodes);
            && nodes.Keys == ContractsOf(reg, nodes).Keys == NodeIds(s)
            && forall n :: n in s.nodes ==> ContractsOf(reg, nodes)[n.id] == reg[n.typeId]
  {
    forall n | n in s.nodes ensures FirstNodes(s.nodes)[n.id] == n {
      FirstIsOnly(s.nodes, n);
    }
  }

  lemma GraphKeepsConnections(contracts: map<Id, Contract>, cs: seq<Connection>)
    requires forall i, j :: 0 <= i < j < |cs| ==> cs[i].id != cs[j].id
    requires forall c :: c in cs ==> Wired(contracts, c)
    ensures forall c :: c in Accepted(contracts, cs) <==> c in cs
  {
    forall c | c in cs ensures c in Accepted(contracts, cs) {
      FirstConnectionIsOnly(cs, c);
    }
  }

  lemma RootsOfGraph(reg: Registry, requested: Requested, kept: Snapshot, g: Graph)
    requires g.nodes.Keys == g.contracts.Keys == NodeIds(kept)
    requires forall n :: n in kept.nodes ==> n.typeId in reg && g.contracts[n.id] == reg[n.typeId]
    requires forall c :: c in g.conns <==> c in kept.connections
    ensures RootsOf(reg, requested, kept, DemandRoots(g, SurvivingRoots(requested, kept)))
  {
    assert forall m :: m in kept.nodes ==> m.id in NodeIds(kept) && (IsEndpoint(g, m.id) <==> ShowsOrConsumes(reg, m));
    var endpoints := set n | n in g.contracts && IsEndpoint(g, n);
    var roots := DemandRoots(g, SurvivingRoots(requested, kept));
    forall n ensures n in endpoints <==> exists m :: m in kept.nodes && m.id == n && ShowsOrConsumes(reg, m) {
      if n in endpoints { var m :| m in kept.nodes && m.id == n; }
    }
    if m :| m in kept.nodes && ShowsOrConsumes(reg, m) {
      assert m.id in endpoints;
    } else {
      assert endpoints == {};
      assert requested.None? ==> roots == NodeIds(kept) - set c | c in g.conns :: c.src;
    }
  }

  lemma PlanRoots(reg: Registry, requested: Requested, kept: Snapshot)
    requires WellFormedRegistry(reg) && Valid(reg, kept)
    ensures RootsOf(reg, requested, kept, DemandRoots(GraphOf(reg, kept), SurvivingRoots(requested, kept)))
  {
    assert forall n :: n in kept.nodes ==> NodeAccepted(reg, n);
    GraphKeepsNodes(reg, kept);
    GraphKeepsConnections(GraphOf(reg, kept).contracts, kept.connections);
    RootsOfGraph(reg, requested, kept, GraphOf(reg, kept));
  }

  /** Whatever the snapshot and whatever roots are requested, compilation ends with a plan, and the report is
      that of the whole snapshot: every fault of it, and nothing else. What is not planned was left out round by round,
      each time exactly what was reported of the part still there. Unless some definition has both a variadic family
      and a type resolver, every self-contained part that is valid by itself is planned unchanged whatever is broken
      around it, and the snapshot is planned whole exactly when it is valid. With such a definition both need the
      spare sockets to have types as well, the latter only if a requested root is missing. */
  method Compile(reg: Registry, s: Snapshot, requested: Requested)
    returns (report: seq<Issue>, plan: Option<Plan>, ghost kept: Snapshot, ghost rounds: seq<Round>)
    requires WellFormedRegistry(reg)
    ensures plan.Some? && CompiledFrom(reg, s, requested, kept, plan.value)
    ensures plan.Some? ==> RootsOf(reg, requested, kept, plan.value.roots)
    ensures report == [] <==> Valid(reg, s) && RootsPresent(s, requested)
    ensures forall x :: x in report && !x.ClockMismatch? <==>
                        !x.ClockMismatch? && (FaultIn(reg, s, x) || UnknownRootIssue(s, requested, x))
    ensures Trail(reg, s, rounds, kept) && LossesExplained(s, rounds, kept)
    ensures PlainFamilies(reg) ==> ValidPartsKept(reg, s, kept) && (kept == s <==> Valid(reg, s))
    ensures SheltersKept(reg, s, kept)
    ensures kept == s <==> Valid(reg, s) && (RootsPresent(s, requested) || EveryPortSettled(reg, s))
  {
    var full;
    full, plan := Attempt(reg, s, s, requested);
    report, kept, rounds := full.issues, s, [];
    if plan.Some? {
      RootsUnchanged(s, requested);
    } else {
      plan, kept, rounds := CompileRemainder(reg, s, requested, full);
    }
    TrailExplainsLosses(reg, s, rounds, kept);
    PlanRoots(reg, requested, kept);
    if PlainFamilies(reg) {
      PlainPartsKept(reg, s, kept);
      if Valid(reg, s) { ValidMeansEveryPortSettled(reg, s); }
    }
  }

  lemma RootsUnchanged(s: Snapshot, requested: Requested)
    requires RootsPresent(s, requested)
    ensures SurvivingRoots(requested, s) == requested
  {
    if requested.Some? { assert requested.value * NodeIds(s) == requested.value; }
  }

  lemma SurvivorsArePresent(s: Snapshot, requested: Requested)
    ensures RootsPresent(s, SurvivingRoots(requested, s))
    ensures SurvivingRoots(requested, s) == requested ==> RootsPresent(s, requested)
  {
  }
}
