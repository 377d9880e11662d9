/** The whole analysis of a snapshot (`_analyze`): valid exactly when nothing is reported. */
module Analysis {
  import opened Common
  import opened NodeContracts
  import opened Reach
  import opened TypeGroups
  import opened GraphModel
  import opened TypeInference
  import opened Ordering
  import opened Clocks
  import opened Validation

  type Requested = Option<set<Id>>

  datatype Analyzed = Analyzed(
    issues: seq<Issue>,
    graph: Graph,
    connections: seq<Connection>,
    resolved: map<PortKey, Option<PortType>>,
    order: seq<Id>,
    clocks: ClockMap,
    roots: set<Id>,
    demanded: set<Id>)

  /* ---- demand roots ---- */

  predicate IsEndpoint(g: Graph, n: Id) { n in g.contracts && g.contracts[n].kind in {Sink, Visualizer} }

  /** `_resolve_demand_roots`: the requested nodes that exist, else all sinks and visualizers, else the
      nodes nothing reads from. */
  function DemandRoots(g: Graph, requested: Requested): set<Id> {
    if requested.Some? then requested.value * g.nodes.Keys
    else
      var endpoints := set n | n in g.contracts && IsEndpoint(g, n);
      if endpoints != {} then endpoints
      else var read := set c | c in g.conns :: c.src; g.nodes.Keys - read
  }

  predicate RootsPresent(s: Snapshot, requested: Requested) {
    requested.Some? ==> requested.value <= NodeIds(s)
  }

  ghost predicate UnknownRootIssue(s: Snapshot, requested: Requested, x: Issue) {
    x.UnknownDemandRoot? && requested.Some? && x.node in requested.value && x.node !in NodeIds(s)
  }

  method ReportUnknownRoots(nodes: set<Id>, requested: Requested) returns (issues: seq<Issue>)
    ensures forall x :: x in issues <==>
                          x.UnknownDemandRoot? && requested.Some? && x.node in requested.value && x.node !in nodes
  {
    issues := [];
    if requested.Some? {
      var unknown := SortIds(requested.value - nodes);
      for i := 0 to |unknown|
        invariant forall x :: x in issues <==> x.UnknownDemandRoot? && x.node in unknown[..i]
      {
        issues := issues + [UnknownDemandRoot(unknown[i])];
        assert unknown[..i + 1] == unknown[..i] + [unknown[i]];
      }
      assert unknown[..|unknown|] == unknown;
    }
  }

  /* ---- every issue but an unknown root names something that is there ---- */

  predicate Located(s: Snapshot, x: Issue) {
    (NamesNode(x) && x.node in NodeIds(s)) || (NamesConnection(x) && x.connection in ConnectionIds(s))
  }

  lemma DuplicateIssuesLocated(s: Snapshot, x: Issue)
    requires DuplicateIssue(s, x)
    ensures Located(s, x)
  {
    if x.DuplicateNodeId? {
      var i, j :| 0 <= i < j < |s.nodes| && NodeIdList(s)[i] == NodeIdList(s)[j] == x.node;
      assert s.nodes[i] in s.nodes && s.nodes[i].id == x.node;
    } else {
      var i, j :| 0 <= i < j < |s.connections| && ConnectionIdList(s)[i] == ConnectionIdList(s)[j] == x.connection;
      assert s.connections[i] in s.connections && s.connections[i].id == x.connection;
    }
  }

  lemma DefinitionIssuesLocated(reg: Registry, s: Snapshot, x: Issue)
    requires DefinitionIssue(reg, FirstNodes(s.nodes), FirstNodes(s.nodes).Keys, x)
    ensures Located(s, x)
  {
    var nodes := FirstNodes(s.nodes);
    var i :| i in nodes && NodeIssue(reg, nodes[i], x);
    assert nodes[i] in s.nodes && x.node == i == nodes[i].id;
  }

  lemma WiringIssueNamesConnection(nodes: set<Id>, contracts: map<Id, Contract>, c: Connection, x: Issue)
    requires WiringIssue(nodes, contracts, c, x)
    ensures NamesConnection(x) && x.connection == c.id
  {
  }

  lemma ConnectionIssuesLocated(s: Snapshot, contracts: map<Id, Contract>, x: Issue)
    requires var first := FirstConnections(s.connections); ConnectionIssue(NodeIds(s), contracts, first, first.Keys, x)
    ensures Located(s, x)
  {
    var first := FirstConnections(s.connections);
    var i :| i in first && WiringIssue(NodeIds(s), contracts, first[i], x);
    WiringIssueNamesConnection(NodeIds(s), contracts, first[i], x);
    assert first[i] in s.connections;
  }

  /* ---- nothing reported, stage by stage ---- */

  lemma FirstIsOnly(nodes: seq<Node>, n: Node)
    requires forall i, j :: 0 <= i < j < |nodes| ==> nodes[i].id != nodes[j].id
    requires n in nodes
    ensures FirstNodes(nodes)[n.id] == n
  {
    var first := FirstNodes(nodes)[n.id];
    var i, j :| 0 <= i < |nodes| && 0 <= j < |nodes| && nodes[i] == n && nodes[j] == first;
    assert nodes[i].id == nodes[j].id;
  }

  lemma FirstConnectionIsOnly(cs: seq<Connection>, c: Connection)
    requires forall i, j :: 0 <= i < j < |cs| ==> cs[i].id != cs[j].id
    requires c in cs
    ensures FirstConnections(cs)[c.id] == c
  {
    var first := FirstConnections(cs)[c.id];
    var i, j :| 0 <= i < |cs| && 0 <= j < |cs| && cs[i] == c && cs[j] == first;
    assert cs[i].id == cs[j].id;
  }

  lemma RejectedNodeIsReported(reg: Registry, nodes: map<Id, Node>, i: Id)
    requires i in nodes && !NodeAccepted(reg, nodes[i])
    ensures exists x :: DefinitionIssue(reg, nodes, nodes.Keys, x)
  {
    var n := nodes[i];
    var x := if n.typeId !in reg then UnknownNodeType(n.id)
             else if n.version != reg[n.typeId].version then NodeVersionMismatch(n.id)
             else InvalidParameter(n.id, reg[n.typeId].evaluate(n.literals).errors[0]);
    assert NodeIssue(reg, n, x);
    assert DefinitionIssue(reg, nodes, nodes.Keys, x);
  }

  lemma NodesAccepted(reg: Registry, s: Snapshot)
    requires UniqueIds(s)
    ensures (forall x :: !DefinitionIssue(reg, FirstNodes(s.nodes), FirstNodes(s.nodes).Keys, x)) <==>
            forall n :: n in s.nodes ==> NodeAccepted(reg, n)
  {
    var nodes := FirstNodes(s.nodes);
    if forall x :: !DefinitionIssue(reg, nodes, nodes.Keys, x) {
      forall n | n in s.nodes ensures NodeAccepted(reg, n) {
        FirstIsOnly(s.nodes, n);
        if !NodeAccepted(reg, n) { RejectedNodeIsReported(reg, nodes, n.id); }
      }
    }
    if forall n :: n in s.nodes ==> NodeAccepted(reg, n) {
      forall x ensures !DefinitionIssue(reg, nodes, nodes.Keys, x) {
        forall i | i in nodes ensures !NodeIssue(reg, nodes[i], x) { assert NodeAccepted(reg, nodes[i]); }
      }
    }
  }

  lemma ConnectionsWired(reg: Registry, s: Snapshot)
    requires UniqueIds(s) && forall n :: n in s.nodes ==> NodeAccepted(reg, n)
    ensures var g := GraphOf(reg, s);
            var first := FirstConnections(s.connections);
            (forall x :: !ConnectionIssue(g.nodes.Keys, g.contracts, first, first.Keys, x)) <==>
            forall c :: c in s.connections ==> Wired(g.contracts, c)
  {
    var g := GraphOf(reg, s);
    assert g.contracts.Keys == g.nodes.Keys;
    WiredIffUnreported(g.nodes.Keys, g.contracts, s.connections);
  }

  lemma WiredIffUnreported(nodes: set<Id>, contracts: map<Id, Contract>, cs: seq<Connection>)
    requires contracts.Keys == nodes && forall i, j :: 0 <= i < j < |cs| ==> cs[i].id != cs[j].id
    ensures var first := FirstConnections(cs);
            (forall x :: !ConnectionIssue(nodes, contracts, first, first.Keys, x)) <==>
              forall c :: c in cs ==> Wired(contracts, c)
  {
    var first := FirstConnections(cs);
    if forall c :: c in cs ==> Wired(contracts, c) {
      forall x ensures !ConnectionIssue(nodes, contracts, first, first.Keys, x) {
        forall i | i in first ensures !WiringIssue(nodes, contracts, first[i], x) {
          assert first[i] in cs && Wired(contracts, first[i]);
        }
      }
    } else {
      var c :| c in cs && !Wired(contracts, c);
      FirstConnectionIsOnly(cs, c);
      UnwiredIsReported(nodes, contracts, first, c);
    }
  }

  lemma UnwiredIsReported(nodes: set<Id>, contracts: map<Id, Contract>, first: map<Id, Connection>, c: Connection)
    requires contracts.Keys == nodes && c.id in first && first[c.id] == c && !Wired(contracts, c)
    ensures exists x :: ConnectionIssue(nodes, contracts, first, first.Keys, x)
  {
    var x := if c.src !in nodes then MissingSourceNode(c.id)
             else if c.dst !in nodes then MissingDestinationNode(c.id)
             else if !HasOutput(contracts[c.src], c.srcPort) then UnknownOutputPort(c.src, c.id, c.srcPort)
             else UnknownInputPort(c.dst, c.id, c.dstPort);
    assert WiringIssue(nodes, contracts, first[c.id], x);
    assert ConnectionIssue(nodes, contracts, first, first.Keys, x);
  }

  lemma TypesClean(t: ExprTable, conns: set<Connection>, checked: set<PortKey>)
    requires BoundedTable(t) && checked <= t.Keys
    ensures var f := FactsOf(t, conns);
            (forall x :: !VariableIssue(t, f, checked, x) && !MisfitIssue(t, f, conns, x)) <==>
              WellTyped(t, conns, checked)
  {
    var f := FactsOf(t, conns);
    if k :| k in checked && TypeIn(t, f, k).None? {
      if t[k].ArrayVariable? && Meaning(f, VarOf(k, t[k])).Some? { SettledArrayHasType(t, conns, k); }
      var x := if Clash(f, VarOf(k, t[k])) != {} then GenericTypeConflict(k.node, k.port)
               else UnresolvedGenericType(k.node, k.port);
      assert VariableIssue(t, f, checked, x);
    }
    if c :| c in conns && Misfit(t, f, c) {
      assert MisfitIssue(t, f, conns, IncompatiblePortTypes(c.dst, c.id, c.dstPort));
    }
  }

  lemma BoundedExpressions(g: Graph)
    requires WellFormedGraph(g)
    ensures BoundedTable(Expressions(g)) && forall c :: c in g.conns ==> InTable(Expressions(g), c)
    ensures Expressions(g).Keys == Ports(g) && CheckedPorts(g) <= Ports(g)
  {
    forall k | k in Expressions(g) ensures ArrayVariableBounded(Expressions(g)[k]) { ExpressionsAreBounded(g, k); }
    forall c | c in g.conns ensures InTable(Expressions(g), c) { EndsAreChecked(g, c); }
  }

  /** On an acyclic graph the order holds every node, so clock analysis has looked everywhere. */
  lemma AcyclicOrderIsFull(g: Graph, order: seq<Id>)
    requires WellFormedGraph(g) && GreedyOrder(g.nodes.Keys, EdgesOf(g.conns), order)
    ensures Within(EdgesOf(g.conns), g.nodes.Keys)
    ensures Acyclic(EdgesOf(g.conns)) <==> forall n :: n in g.nodes ==> !Tainted(EdgesOf(g.conns), n)
    ensures Acyclic(EdgesOf(g.conns)) ==> Known(g, order, |order|) == g.contracts.Keys && forall n :: n in g.nodes ==>
            n in order
  {
    var e := EdgesOf(g.conns);
    AcyclicIffUntainted(g.nodes.Keys, e);
    if Acyclic(e) {
      forall n | n in g.nodes ensures n in order { LeftOutIffTainted(g.nodes.Keys, e, order, n); }
    }
  }

  /* ---- the analysis ---- */

  /** What an analysis computes, whether or not the snapshot is valid. */
  ghost predicate Describes(reg: Registry, s: Snapshot, requested: Requested, a: Analyzed)
    requires WellFormedGraph(a.graph)
  {
    var g := a.graph;
    && g == GraphOf(reg, s)
    && AsSet(a.connections) == g.conns
    && a.resolved.Keys == Ports(g)
    && (forall k :: k in a.resolved ==> a.resolved[k] == TypeOf(g, k))
    && GreedyOrder(g.nodes.Keys, EdgesOf(g.conns), a.order)
    && a.clocks.Keys == Known(g, a.order, |a.order|) && ClockTable(g, a.clocks)
    && a.roots == DemandRoots(g, requested)
    && IsDemand(EdgesOf(g.conns), a.roots, a.demanded)
  }

  /** The least predecessor-closed set containing the roots. */
  ghost predicate IsDemand(e: Edges, roots: set<Id>, demanded: set<Id>) {
    roots <= demanded && Closed(e, demanded) && forall s :: roots <= s && Closed(e, s) ==> demanded <= s
  }

  /** The graph's own share of validity, in the terms of the stages. */
  ghost predicate Clean(g: Graph, order: seq<Id>)
    requires WellFormedGraph(g)
  {
    && (forall n, p :: !Overdriven(g.conns, n, p))
    && WellTyped(Expressions(g), g.conns, CheckedPorts(g))
    && (forall n :: n in g.nodes ==> !Tainted(EdgesOf(g.conns), n))
    && (forall n, p :: !Missing(g, n, p))
    && !SomeFedTwice(g, Known(g, order, |order|))
  }

  ghost predicate TypingIssue(g: Graph, x: Issue)
    requires WellFormedGraph(g)
  {
    || VariableIssue(Expressions(g), FactsOf(Expressions(g), g.conns), CheckedPorts(g), x)
    || MisfitIssue(Expressions(g), FactsOf(Expressions(g), g.conns), g.conns, x)
  }

  /** What validity of the wiring and its graph comes down to, given the structure is sound. */
  lemma ValidIffClean(reg: Registry, s: Snapshot, g: Graph, order: seq<Id>)
    requires WellFormedRegistry(reg) && WellFormedGraph(g) && g == GraphOf(reg, s)
    requires GreedyOrder(g.nodes.Keys, EdgesOf(g.conns), order)
    ensures Valid(reg, s) <==>
            && UniqueIds(s)
            && (forall n :: n in s.nodes ==> NodeAccepted(reg, n))
            && (forall c :: c in s.connections ==> Wired(g.contracts, c))
            && Clean(g, order)
  {
    GraphValidIffClean(g, order);
  }

  lemma SingleIffNoneOverdriven(g: Graph)
    ensures SingleDriver(g) <==> forall n, p :: !Overdriven(g.conns, n, p)
  {
    if c, d :| c in g.conns && d in g.conns && c.dst == d.dst && c.dstPort == d.dstPort && c != d {
      assert Overdriven(g.conns, c.dst, c.dstPort);
    }
  }

  lemma GraphValidIffClean(g: Graph, order: seq<Id>)
    requires WellFormedGraph(g) && GreedyOrder(g.nodes.Keys, EdgesOf(g.conns), order)
    ensures GraphValid(g) <==> Clean(g, order)
  {
    AcyclicOrderIsFull(g, order);
    SingleIffNoneOverdriven(g);
  }

  method ResolveGraphTypes(g: Graph, conns: seq<Connection>)
    returns (resolved: map<PortKey, Option<PortType>>, issues: seq<Issue>)
    requires WellFormedGraph(g) && AsSet(conns) == g.conns
    ensures resolved.Keys == Ports(g) && forall k :: k in resolved ==> resolved[k] == TypeOf(g, k)
    ensures forall x :: x in issues <==> TypingIssue(g, x)
    ensures issues == [] <==> WellTyped(Expressions(g), g.conns, CheckedPorts(g))
  {
    var t := Expressions(g);
    var checked := CheckedPorts(g);
    BoundedExpressions(g);
    resolved, issues := ResolveTypes(t, conns, checked);
    TypesClean(t, g.conns, checked);
    if issues != [] { assert issues[0] in issues; }
  }

  /** Issues of the stages that read the graph only. */
  method AnalyzeGraph(g: Graph, conns: seq<Connection>)
    returns (issues: seq<Issue>, resolved: map<PortKey, Option<PortType>>, order: seq<Id>, clocks: ClockMap)
    requires WellFormedGraph(g) && AsSet(conns) == g.conns
    ensures resolved.Keys == Ports(g) && forall k :: k in resolved ==> resolved[k] == TypeOf(g, k)
    ensures GreedyOrder(g.nodes.Keys, EdgesOf(g.conns), order)
    ensures clocks.Keys == Known(g, order, |order|) && ClockTable(g, clocks)
    ensures forall x :: x in issues <==> GraphReport(g, clocks, x)
    ensures forall x :: x in issues ==> GraphIssue(g, x)
    ensures issues == [] <==> Clean(g, order)
    ensures issues == [] ==> Exact(g, clocks)
  {
    var cardinality := ValidateCardinality(conns);
    var typing;
    resolved, typing := ResolveGraphTypes(g, conns);
    var cycles;
    assert forall c :: c in conns ==> c in g.conns;
    order, cycles := TopologicalOrder(g.nodes.Keys, conns);
    var missing := ValidateRequiredInputs(g);
    var mismatches;
    clocks, mismatches := AnalyzeClocks(g, g.nodes.Keys, order);
    issues := cardinality + typing + cycles + missing + mismatches;
    GraphIssuesAbsent(g, cardinality, cycles, missing);
    StagesReport(g, clocks, cardinality, typing, cycles, missing, mismatches);
  }

  lemma StagesReport(g: Graph, clocks: ClockMap, cardinality: seq<Issue>, typing: seq<Issue>, cycles: seq<Issue>,
                     missing: seq<Issue>, mismatches: seq<Issue>)
    requires WellFormedGraph(g)
    requires forall x :: x in cardinality <==> x.InputCardinality? && Overdriven(g.conns, x.node, x.port)
    requires forall x :: x in typing <==> TypingIssue(g, x)
    requires forall x :: x in cycles <==> x.GraphCycle? && x.node in g.nodes && Tainted(EdgesOf(g.conns), x.node)
    requires forall x :: x in missing <==> x.RequiredInputMissing? && Missing(g, x.node, x.port)
    requires forall x :: x in mismatches <==> x.ClockMismatch? && ClocksMeet(g, clocks, x.node)
    requires forall x :: x in mismatches ==> ClockIssue(g, x)
    ensures var issues := cardinality + typing + cycles + missing + mismatches;
            forall x :: (x in issues <==> GraphReport(g, clocks, x)) && (x in issues ==> GraphIssue(g, x))
  {
    var issues := cardinality + typing + cycles + missing + mismatches;
    forall x ensures (x in issues <==> GraphReport(g, clocks, x)) && (x in issues ==> GraphIssue(g, x)) {
      TypeIssueNode(g, x);
      assert x in issues <==> x in cardinality || x in typing || x in cycles || x in missing || x in mismatches;
    }
  }

  /** What the stages on the graph report: every fault, and of the nodes fed by two sources those where the clocks
      meet. */
  ghost predicate GraphReport(g: Graph, clocks: ClockMap, x: Issue)
    requires WellFormedGraph(g)
  {
    if x.ClockMismatch? then ClocksMeet(g, clocks, x.node) else GraphIssue(g, x)
  }

  /** What the stages on the graph may report: each time the fault it names. */
  ghost predicate GraphIssue(g: Graph, x: Issue)
    requires WellFormedGraph(g)
  {
    || (x.InputCardinality? && Overdriven(g.conns, x.node, x.port))
    || TypingIssue(g, x)
    || (x.GraphCycle? && x.node in g.nodes && Tainted(EdgesOf(g.conns), x.node))
    || (x.RequiredInputMissing? && Missing(g, x.node, x.port))
    || ClockIssue(g, x)
  }

  lemma GraphIssueNamesNode(g: Graph, x: Issue)
    requires WellFormedGraph(g)
    ensures GraphIssue(g, x) ==> NamesNode(x) && x.node in g.nodes
  {
    TypeIssueNode(g, x);
    if x.InputCardinality? && Overdriven(g.conns, x.node, x.port) {
      var c, d :| c in g.conns && d in g.conns && c != d && c.dst == d.dst == x.node
        && c.dstPort == d.dstPort == x.port;
      assert Wired(g.contracts, c);
    }
  }

  lemma TypeIssueNode(g: Graph, x: Issue)
    requires WellFormedGraph(g)
    ensures TypingIssue(g, x) ==> NamesNode(x) && x.node in g.nodes && !x.ClockMismatch?
  {
    var t := Expressions(g);
    var f := FactsOf(t, g.conns);
    if VariableIssue(t, f, CheckedPorts(g), x) {
      var k := VariableIssuePort(t, f, CheckedPorts(g), x);
      assert IsPort(g, k);
    } else if TypingIssue(g, x) {
      var c :| c in g.conns && x == IncompatiblePortTypes(c.dst, c.id, c.dstPort);
      assert Wired(g.contracts, c);
    }
  }

  lemma VariableIssuePort(t: ExprTable, f: Facts, checked: set<PortKey>, x: Issue) returns (k: PortKey)
    requires VariableIssue(t, f, checked, x)
    ensures k in checked && NamesNode(x) && !NamesConnection(x) && x.node == k.node && !x.ClockMismatch?
    ensures k in t && TypeIn(t, f, k).None?
  {
    k :| && k in checked && k in t && !t[k].Concrete? && Meaning(f, VarOf(k, t[k])).None?
         && x == if Clash(f, VarOf(k, t[k])) != {} then GenericTypeConflict(k.node, k.port)
                 else UnresolvedGenericType(k.node, k.port);
  }

  lemma GraphIssuesAbsent(g: Graph, cardinality: seq<Issue>, cycles: seq<Issue>, missing: seq<Issue>)
    requires g.contracts.Keys == g.values.Keys
    requires forall x :: x in cardinality <==> x.InputCardinality? && Overdriven(g.conns, x.node, x.port)
    requires forall x :: x in cycles <==> x.GraphCycle? && x.node in g.nodes && Tainted(EdgesOf(g.conns), x.node)
    requires forall x :: x in missing <==> x.RequiredInputMissing? && Missing(g, x.node, x.port)
    ensures cardinality == [] <==> forall n, p :: !Overdriven(g.conns, n, p)
    ensures cycles == [] <==> forall n :: n in g.nodes ==> !Tainted(EdgesOf(g.conns), n)
    ensures missing == [] <==> forall n, p :: !Missing(g, n, p)
  {
    forall n, p | Overdriven(g.conns, n, p) ensures cardinality != [] { assert InputCardinality(n, p) in cardinality; }
    forall n | n in g.nodes && Tainted(EdgesOf(g.conns), n) ensures cycles != [] { assert GraphCycle(n) in cycles; }
    forall n, p | Missing(g, n, p) ensures missing != [] { assert RequiredInputMissing(n, p) in missing; }
    if cardinality != [] { assert cardinality[0] in cardinality; }
    if cycles != [] { assert cycles[0] in cycles; }
    if missing != [] { assert missing[0] in missing; }
  }

  /** What an analysis may report of a snapshot: each time a fault it has. */
  ghost predicate FaultIn(reg: Registry, s: Snapshot, x: Issue)
    requires WellFormedRegistry(reg)
  {
    GraphOfIsWellFormed(reg, s);
    var nodes, first := FirstNodes(s.nodes), FirstConnections(s.connections);
    || DuplicateIssue(s, x)
    || DefinitionIssue(reg, nodes, nodes.Keys, x)
    || ConnectionIssue(NodeIds(s), GraphOf(reg, s).contracts, first, first.Keys, x)
    || GraphIssue(GraphOf(reg, s), x)
  }

  /** What is reported of a snapshot: every fault, of the nodes fed by two sources those where the clocks meet, and
      every requested root that is not there. */
  ghost predicate Reported(reg: Registry, s: Snapshot, requested: Requested, clocks: ClockMap, x: Issue)
    requires WellFormedRegistry(reg)
  {
    if x.ClockMismatch? then ClocksMeet(GraphOf(reg, s), clocks, x.node)
    else FaultIn(reg, s, x) || UnknownRootIssue(s, requested, x)
  }

  /** Nothing is reported exactly when the snapshot is valid and every requested root exists; every issue
      reported is true, and all but unknown roots name a node or a connection of the snapshot. */
  method Analyze(reg: Registry, s: Snapshot, requested: Requested) returns (a: Analyzed)
    requires WellFormedRegistry(reg)
    ensures WellFormedGraph(a.graph) && Describes(reg, s, requested, a)
    ensures a.issues == [] <==> Valid(reg, s) && RootsPresent(s, requested)
    ensures a.issues == [] ==> a.clocks.Keys == a.graph.contracts.Keys && Exact(a.graph, a.clocks)
    ensures forall x :: x in a.issues <==> Reported(reg, s, requested, a.clocks, x)
    ensures forall x :: x in a.issues ==> FaultIn(reg, s, x) || UnknownRootIssue(s, requested, x)
    ensures forall x :: x in a.issues ==> Located(s, x) || UnknownRootIssue(s, requested, x)
    ensures Valid(reg, s) <==> forall x :: x in a.issues ==> !Located(s, x)
  {
    GraphOfIsWellFormed(reg, s);
    var nodes, duplicates := UniqueNodes(s);
    var contracts, values, definitions := ResolveDefinitions(reg, nodes);
    var conns, wiring := ValidateConnections(s.connections, nodes.Keys, contracts);
    var g := Graph(nodes, contracts, values, AsSet(conns));
    assert g == GraphOf(reg, s);
    var issues, resolved, order, clocks := AnalyzeGraph(g, conns);
    var roots := DemandRoots(g, requested);
    var demanded := UpstreamReachable(roots, EdgesOf(g.conns));
    var unknown := ReportUnknownRoots(nodes.Keys, requested);
    var located := duplicates + definitions + wiring + issues;
    ReportIsExact(reg, s, requested, clocks, duplicates, definitions, wiring, issues, unknown);
    a := Analyzed(located + unknown, g, conns, resolved, order, clocks, roots, demanded);
    AllLocated(reg, s, requested, located, unknown);
    StructureClean(reg, s, duplicates, definitions, wiring);
    RootsClean(s, requested, unknown);
    ValidIffClean(reg, s, g, order);
    AcyclicOrderIsFull(g, order);
    if located != [] { assert located[0] in a.issues; }
  }

  lemma ReportIsExact(reg: Registry, s: Snapshot, requested: Requested, clocks: ClockMap, duplicates: seq<Issue>,
                      definitions: seq<Issue>, wiring: seq<Issue>, issues: seq<Issue>, unknown: seq<Issue>)
    requires WellFormedRegistry(reg) && WellFormedGraph(GraphOf(reg, s))
    requires forall x :: x in duplicates <==> DuplicateIssue(s, x)
    requires forall x :: x in definitions <==> DefinitionIssue(reg, FirstNodes(s.nodes), FirstNodes(s.nodes).Keys, x)
    requires var first := FirstConnections(s.connections);
             forall x :: x in wiring <==> ConnectionIssue(NodeIds(s), GraphOf(reg, s).contracts, first, first.Keys, x)
    requires forall x :: x in issues <==> GraphReport(GraphOf(reg, s), clocks, x)
    requires forall x :: x in issues ==> GraphIssue(GraphOf(reg, s), x)
    requires forall x :: x in unknown <==> UnknownRootIssue(s, requested, x)
    ensures forall x :: x in duplicates + definitions + wiring + issues ==> FaultIn(reg, s, x)
    ensures forall x :: x in duplicates + definitions + wiring + issues + unknown <==>
                        Reported(reg, s, requested, clocks, x)
  {
    var located := duplicates + definitions + wiring + issues;
    forall x ensures x in located + unknown <==> Reported(reg, s, requested, clocks, x) {
      assert x in located <==> x in duplicates || x in definitions || x in wiring || x in issues;
    }
  }

  lemma FaultIsLocated(reg: Registry, s: Snapshot, x: Issue)
    requires WellFormedRegistry(reg)
    ensures FaultIn(reg, s, x) ==> Located(s, x)
  {
    GraphOfIsWellFormed(reg, s);
    var nodes, first := FirstNodes(s.nodes), FirstConnections(s.connections);
    if DuplicateIssue(s, x) {
      DuplicateIssuesLocated(s, x);
    } else if DefinitionIssue(reg, nodes, nodes.Keys, x) {
      DefinitionIssuesLocated(reg, s, x);
    } else if ConnectionIssue(NodeIds(s), GraphOf(reg, s).contracts, first, first.Keys, x) {
      ConnectionIssuesLocated(s, GraphOf(reg, s).contracts, x);
    } else {
      GraphIssueNamesNode(GraphOf(reg, s), x);
    }
  }

  lemma AllLocated(reg: Registry, s: Snapshot, requested: Requested, located: seq<Issue>, unknown: seq<Issue>)
    requires WellFormedRegistry(reg)
    requires forall x :: x in located ==> FaultIn(reg, s, x)
    requires forall x :: x in unknown ==> UnknownRootIssue(s, requested, x)
    ensures forall x :: x in located ==> Located(s, x)
    ensures forall x :: x in unknown ==> !Located(s, x)
  {
    forall x | x in located ensures Located(s, x) {
      FaultIsLocated(reg, s, x);
    }
  }

  lemma StructureClean(reg: Registry, s: Snapshot, duplicates: seq<Issue>, definitions: seq<Issue>, wiring: seq<Issue>)
    requires forall x :: x in duplicates <==> DuplicateIssue(s, x)
    requires forall x :: x in definitions <==> DefinitionIssue(reg, FirstNodes(s.nodes), FirstNodes(s.nodes).Keys, x)
    requires var g := GraphOf(reg, s);
             var first := FirstConnections(s.connections);
             forall x :: x in wiring <==> ConnectionIssue(g.nodes.Keys, g.contracts, first, first.Keys, x)
    ensures duplicates == [] && definitions == [] && wiring == [] <==>
            && UniqueIds(s)
            && (forall n :: n in s.nodes ==> NodeAccepted(reg, n))
            && (forall c :: c in s.connections ==> Wired(GraphOf(reg, s).contracts, c))
  {
    UniqueIffNoDuplicates(s);
    if duplicates != [] { assert duplicates[0] in duplicates; }
    if definitions != [] { assert definitions[0] in definitions; }
    if wiring != [] { assert wiring[0] in wiring; }
    if UniqueIds(s) {
      NodesAccepted(reg, s);
      if definitions == [] { ConnectionsWired(reg, s); }
    }
  }

  lemma RootsClean(s: Snapshot, requested: Requested, unknown: seq<Issue>)
    requires forall x :: x in unknown <==> UnknownRootIssue(s, requested, x)
    ensures unknown == [] <==> RootsPresent(s, requested)
  {
    if unknown != [] { assert unknown[0] in unknown; }
    if !RootsPresent(s, requested) {
      var n :| n in requested.value && n !in NodeIds(s);
      assert UnknownRootIssue(s, requested, UnknownDemandRoot(n));
    }
  }

  /** Every port has a type, the spare socket of a full variadic family included. */
  ghost predicate EveryPortSettled(reg: Registry, s: Snapshot)
    requires WellFormedRegistry(reg)
  {
    GraphOfIsWellFormed(reg, s);
    forall k {:trigger IsPort(GraphOf(reg, s), k)} :: IsPort(GraphOf(reg, s), k) ==> TypeOf(GraphOf(reg, s), k).Some?
  }
}
