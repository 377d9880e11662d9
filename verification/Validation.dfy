/** The validation pipeline (`_analyze` and its stages), each stage against what it must report. */
module Validation {
  import opened Common
  import opened PortNames
  import opened NodeContracts
  import opened Reach
  import opened GraphModel
  import opened TypeInference
  import opened Ordering
  import opened Clocks

  /* ---- what a valid snapshot is ---- */

  ghost predicate SingleDriver(g: Graph) {
    forall c, d :: c in g.conns && d in g.conns && c.dst == d.dst && c.dstPort == d.dstPort ==> c == d
  }

  /** Every checked port has settled to a type, and the types at the two ends of a connection fit. */
  ghost predicate WellTyped(t: ExprTable, conns: set<Connection>, checked: set<PortKey>) {
    && (forall k :: k in checked && k in t ==> TypeIn(t, FactsOf(t, conns), k).Some?)
    && (forall c :: c in conns ==> !Misfit(t, FactsOf(t, conns), c))
  }

  function CheckedPorts(g: Graph): set<PortKey> { set k | k in Ports(g) && IsChecked(g, k) }

  function ConnectedMembers(g: Graph, f: Family, n: Id): set<Name> {
    set p | p in ConnectedPorts(g.conns, n) && MemberIndex(f.prefix, p).Some?
  }

  /** A required input that is not connected; for the family's prefix, too few connected members. */
  predicate Missing(g: Graph, n: Id, p: Name)
    requires g.contracts.Keys == g.values.Keys
  {
    && n in g.contracts
    && var c := g.contracts[n];
       && p in RequiredInputs(c, g.values[n])
       && if c.variadic.Some? && p == c.variadic.value.prefix
          then |ConnectedMembers(g, c.variadic.value, n)| < c.variadic.value.minimum
          else p !in ConnectedPorts(g.conns, n)
  }

  /** With one connection at most into each input: a family is short of inputs if fewer connections than its minimum
      enter its sockets, whichever these are; any other required input is missing if no connection enters it. */
  lemma MissingMeansTooFew(g: Graph, n: Id, p: Name)
    requires g.contracts.Keys == g.values.Keys && n in g.contracts && SingleDriver(g)
    ensures var c := g.contracts[n];
            Missing(g, n, p) <==>
              if c.variadic.Some? && p == c.variadic.value.prefix
              then |MemberConnections(g.conns, c.variadic.value, n)| < c.variadic.value.minimum
              else
                && (forall d :: d in g.conns && d.dst == n ==> d.dstPort != p)
                && if c.requiredResolver.Some? then p in c.requiredResolver.value(g.values[n])
                   else exists i :: 0 <= i < |c.inputs| && c.inputs[i].required && c.inputs[i].id == p
  {
    var c := g.contracts[n];
    if c.variadic.Some? && p == c.variadic.value.prefix {
      var members := MemberConnections(g.conns, c.variadic.value, n);
      OnePortEach(members);
      assert (set d | d in members :: d.dstPort) == ConnectedMembers(g, c.variadic.value, n);
    }
  }

  function MemberConnections(conns: set<Connection>, f: Family, n: Id): set<Connection> {
    set d | d in conns && d.dst == n && MemberIndex(f.prefix, d.dstPort).Some?
  }

  lemma {:induction false} OnePortEach(cs: set<Connection>)
    requires forall c, d :: c in cs && d in cs && c.dstPort == d.dstPort ==> c == d
    ensures |set c | c in cs :: c.dstPort| == |cs|
    decreases |cs|
  {
    if cs == {} {
      assert (set c | c in cs :: c.dstPort) == {};
    } else {
      var c :| c in cs;
      var rest := cs - {c};
      OnePortEach(rest);
      assert (set d | d in cs :: d.dstPort) == (set d | d in rest :: d.dstPort) + {c.dstPort};
    }
  }

  ghost predicate InputsSupplied(g: Graph)
    requires g.contracts.Keys == g.values.Keys
  {
    forall n, p :: !Missing(g, n, p)
  }

  ghost predicate GraphValid(g: Graph)
    requires WellFormedGraph(g)
  {
    && SingleDriver(g)
    && WellTyped(Expressions(g), g.conns, CheckedPorts(g))
    && Acyclic(EdgesOf(g.conns))
    && InputsSupplied(g)
    && !SomeFedTwice(g, g.contracts.Keys)
  }

  ghost predicate UniqueIds(s: Snapshot) {
    && (forall i, j :: 0 <= i < j < |s.nodes| ==> s.nodes[i].id != s.nodes[j].id)
    && (forall i, j :: 0 <= i < j < |s.connections| ==> s.connections[i].id != s.connections[j].id)
  }

  predicate NodeAccepted(reg: Registry, n: Node) {
    n.typeId in reg && n.version == reg[n.typeId].version && reg[n.typeId].evaluate(n.literals).errors == []
  }

  /** Unique ids, known nodes with good parameters, connections between existing ports, and a graph
      that is well driven, well typed, acyclic, fully supplied and on one clock per node. */
  ghost predicate Valid(reg: Registry, s: Snapshot)
    requires WellFormedRegistry(reg)
  {
    GraphOfIsWellFormed(reg, s);
    && UniqueIds(s)
    && (forall n :: n in s.nodes ==> NodeAccepted(reg, n))
    && (forall c :: c in s.connections ==> Wired(GraphOf(reg, s).contracts, c))
    && GraphValid(GraphOf(reg, s))
  }

  /* ---- stage by stage ---- */

  ghost predicate Repeated(ids: seq<Id>, x: Id) {
    exists i, j :: 0 <= i < j < |ids| && ids[i] == ids[j] == x
  }

  method Duplicates(ids: seq<Id>) returns (repeated: seq<Id>)
    ensures forall x :: x in repeated <==> Repeated(ids, x)
  {
    repeated := [];
    var seen: set<Id> := {};
    for i := 0 to |ids|
      invariant forall x :: x in seen <==> x in ids[..i]
      invariant forall x :: x in repeated <==> Repeated(ids[..i], x)
    {
      ghost var before := repeated;
      if ids[i] in seen {
        repeated := repeated + [ids[i]];
      }
      seen := seen + {ids[i]};
      RepeatedGrows(ids, i);
      assert ids[..i + 1] == ids[..i] + [ids[i]];
    }
    assert ids[..|ids|] == ids;
  }

  lemma RepeatedGrows(ids: seq<Id>, i: nat)
    requires i < |ids|
    ensures forall x :: Repeated(ids[..i + 1], x) <==> Repeated(ids[..i], x) || (x == ids[i] && x in ids[..i])
  {
    var shorter, longer := ids[..i], ids[..i + 1];
    assert forall j :: 0 <= j < i ==> longer[j] == shorter[j];
    forall x | Repeated(shorter, x) ensures Repeated(longer, x) {
      var a, b :| 0 <= a < b < |shorter| && shorter[a] == shorter[b] == x;
      assert longer[a] == longer[b] == x;
    }
    if ids[i] in shorter {
      var a :| 0 <= a < |shorter| && shorter[a] == ids[i];
      assert longer[a] == longer[i] == ids[i];
    }
  }

  ghost predicate DuplicateIssue(s: Snapshot, x: Issue) {
    || (x.DuplicateNodeId? && Repeated(NodeIdList(s), x.node))
    || (x.DuplicateConnectionId? && Repeated(ConnectionIdList(s), x.connection))
  }

  function NodeIdList(s: Snapshot): seq<Id> { seq(|s.nodes|, i requires 0 <= i < |s.nodes| => s.nodes[i].id) }

  function ConnectionIdList(s: Snapshot): seq<Id> {
    seq(|s.connections|, i requires 0 <= i < |s.connections| => s.connections[i].id)
  }

  lemma UniqueIffNoDuplicates(s: Snapshot)
    ensures UniqueIds(s) <==> forall x :: !DuplicateIssue(s, x)
  {
    var ns, cs := NodeIdList(s), ConnectionIdList(s);
    if !UniqueIds(s) {
      if i, j :| 0 <= i < j < |s.nodes| && s.nodes[i].id == s.nodes[j].id {
        assert ns[i] == ns[j];
        assert DuplicateIssue(s, DuplicateNodeId(ns[i]));
      } else {
        var a, b :| 0 <= a < b < |s.connections| && s.connections[a].id == s.connections[b].id;
        assert cs[a] == cs[b];
        assert DuplicateIssue(s, DuplicateConnectionId(cs[a]));
      }
    }
  }

  /** `_unique_nodes`: the first node of each id, and every repeated id reported. */
  method UniqueNodes(s: Snapshot) returns (nodes: map<Id, Node>, issues: seq<Issue>)
    ensures nodes == FirstNodes(s.nodes)
    ensures forall x :: x in issues <==> DuplicateIssue(s, x)
  {
    nodes := map[];
    for i := 0 to |s.nodes|
      invariant nodes == FirstNodes(s.nodes[..i])
    {
      var n := s.nodes[i];
      assert s.nodes[..i + 1][..i] == s.nodes[..i];
      if n.id !in nodes {
        nodes := nodes[n.id := n];
      }
    }
    assert s.nodes[..|s.nodes|] == s.nodes;
    issues := RepeatedIds(s);
  }

  /** Repeated node ids and then repeated connection ids. */
  method RepeatedIds(s: Snapshot) returns (issues: seq<Issue>)
    ensures forall x :: x in issues <==> DuplicateIssue(s, x)
  {
    var repeatedNodes := Duplicates(NodeIdList(s));
    var repeatedConnections := Duplicates(ConnectionIdList(s));
    issues := [];
    for i := 0 to |repeatedNodes|
      invariant forall x :: x in issues <==> x.DuplicateNodeId? && x.node in repeatedNodes[..i]
    {
      issues := issues + [DuplicateNodeId(repeatedNodes[i])];
      assert repeatedNodes[..i + 1] == repeatedNodes[..i] + [repeatedNodes[i]];
    }
    assert repeatedNodes[..|repeatedNodes|] == repeatedNodes;
    for i := 0 to |repeatedConnections|
      invariant forall x :: x in issues <==>
                              || (x.DuplicateNodeId? && x.node in repeatedNodes)
                              || (x.DuplicateConnectionId? && x.connection in repeatedConnections[..i])
    {
      issues := issues + [DuplicateConnectionId(repeatedConnections[i])];
      assert repeatedConnections[..i + 1] == repeatedConnections[..i] + [repeatedConnections[i]];
    }
    assert repeatedConnections[..|repeatedConnections|] == repeatedConnections;
  }

  ghost predicate NodeIssue(reg: Registry, n: Node, x: Issue) {
    || (x == UnknownNodeType(n.id) && n.typeId !in reg)
    || (x == NodeVersionMismatch(n.id) && n.typeId in reg && n.version != reg[n.typeId].version)
    || (x.InvalidParameter? && x.node == n.id && n.typeId in reg
        && x.message in reg[n.typeId].evaluate(n.literals).errors)
  }

  ghost predicate DefinitionIssue(reg: Registry, nodes: map<Id, Node>, ids: set<Id>, x: Issue) {
    exists i :: i in ids && i in nodes && NodeIssue(reg, nodes[i], x)
  }

  function NodeIssues(reg: Registry, n: Node): seq<Issue> {
    if n.typeId !in reg then [UnknownNodeType(n.id)] else
      var errors := reg[n.typeId].evaluate(n.literals).errors;
      (if n.version != reg[n.typeId].version then [NodeVersionMismatch(n.id)] else []) +
      seq(|errors|, i requires 0 <= i < |errors| => InvalidParameter(n.id, errors[i]))
  }

  lemma NodeIssuesExact(reg: Registry, n: Node, x: Issue)
    ensures x in NodeIssues(reg, n) <==> NodeIssue(reg, n, x)
  {
    if n.typeId in reg {
      var errors := reg[n.typeId].evaluate(n.literals).errors;
      var invalid := seq(|errors|, i requires 0 <= i < |errors| => InvalidParameter(n.id, errors[i]));
      if x.InvalidParameter? && x.node == n.id && x.message in errors {
        var i :| 0 <= i < |errors| && errors[i] == x.message;
        assert invalid[i] == x;
      }
    }
  }

  /** `_resolve_definitions`. */
  method ResolveDefinitions(reg: Registry, nodes: map<Id, Node>)
    returns (contracts: map<Id, Contract>, values: map<Id, Values>, issues: seq<Issue>)
    ensures contracts == ContractsOf(reg, nodes) && values == ValuesOf(reg, nodes)
    ensures forall x :: x in issues <==> DefinitionIssue(reg, nodes, nodes.Keys, x)
  {
    contracts, values, issues := ContractsOf(reg, nodes), ValuesOf(reg, nodes), [];
    var ids := SortIds(nodes.Keys);
    for i := 0 to |ids|
      invariant forall x :: x in issues <==> DefinitionIssue(reg, nodes, set j | 0 <= j < i :: ids[j], x)
    {
      assert ids[i] in ids;
      var n := nodes[ids[i]];
      ghost var before := set j | 0 <= j < i :: ids[j];
      ghost var after := set j | 0 <= j < i + 1 :: ids[j];
      assert after == before + {ids[i]};
      forall x
        ensures DefinitionIssue(reg, nodes, after, x) <==>
                DefinitionIssue(reg, nodes, before, x) || x in NodeIssues(reg, n)
      {
        NodeIssuesExact(reg, n, x);
        if DefinitionIssue(reg, nodes, after, x) && !DefinitionIssue(reg, nodes, before, x) {
          var i' :| i' in after && i' in nodes && NodeIssue(reg, nodes[i'], x);
          assert i' == ids[i];
        }
      }
      issues := issues + NodeIssues(reg, n);
    }
    assert (set j | 0 <= j < |ids| :: ids[j]) == nodes.Keys;
  }

  ghost predicate WiringIssue(nodes: set<Id>, contracts: map<Id, Contract>, c: Connection, x: Issue) {
    if c.src !in nodes then x == MissingSourceNode(c.id)
    else if c.dst !in nodes then x == MissingDestinationNode(c.id)
    else if c.src !in contracts || c.dst !in contracts then false
    else if !HasOutput(contracts[c.src], c.srcPort) then x == UnknownOutputPort(c.src, c.id, c.srcPort)
    else !AcceptsConnection(contracts[c.dst], c.dstPort) && x == UnknownInputPort(c.dst, c.id, c.dstPort)
  }

  ghost predicate ConnectionIssue(nodes: set<Id>, contracts: map<Id, Contract>, first: map<Id, Connection>,
                                  ids: set<Id>, x: Issue) {
    exists i :: i in ids && i in first && WiringIssue(nodes, contracts, first[i], x)
  }

  method FirstOfEachId(cs: seq<Connection>) returns (first: map<Id, Connection>)
    ensures first == FirstConnections(cs)
  {
    first := map[];
    for i := 0 to |cs|
      invariant first == FirstConnections(cs[..i])
    {
      assert cs[..i + 1][..i] == cs[..i];
      if cs[i].id !in first {
        first := first[cs[i].id := cs[i]];
      }
    }
    assert cs[..|cs|] == cs;
  }

  method CheckConnection(c: Connection, nodes: set<Id>, contracts: map<Id, Contract>)
    returns (wired: bool, raised: seq<Issue>)
    requires contracts.Keys <= nodes
    ensures wired <==> Wired(contracts, c)
    ensures forall x :: x in raised <==> WiringIssue(nodes, contracts, c, x)
  {
    wired, raised := false, [];
    if c.src !in nodes {
      raised := [MissingSourceNode(c.id)];
    } else if c.dst !in nodes {
      raised := [MissingDestinationNode(c.id)];
    } else if c.src !in contracts || c.dst !in contracts {
    } else if !HasOutput(contracts[c.src], c.srcPort) {
      raised := [UnknownOutputPort(c.src, c.id, c.srcPort)];
    } else if !AcceptsConnection(contracts[c.dst], c.dstPort) {
      raised := [UnknownInputPort(c.dst, c.id, c.dstPort)];
    } else {
      wired := true;
    }
  }

  function WiredAmong(contracts: map<Id, Contract>, first: map<Id, Connection>, ids: set<Id>): set<Connection> {
    set i | i in ids && i in first && Wired(contracts, first[i]) :: first[i]
  }

  function Leading(ids: seq<Id>, i: nat): set<Id>
    requires i <= |ids|
  {
    set j | 0 <= j < i :: ids[j]
  }

  /** `_validate_connections`: in id order, first of each id, keep the wired ones and report the others. */
  method ValidateConnections(cs: seq<Connection>, nodes: set<Id>, contracts: map<Id, Contract>)
    returns (valid: seq<Connection>, issues: seq<Issue>)
    requires contracts.Keys <= nodes
    ensures var first := FirstConnections(cs);
            && AsSet(valid) == WiredAmong(contracts, first, first.Keys)
            && (forall x :: x in issues <==> ConnectionIssue(nodes, contracts, first, first.Keys, x))
  {
    var first := FirstOfEachId(cs);
    var ids := SortIds(first.Keys);
    valid, issues := [], [];
    for i := 0 to |ids|
      invariant AsSet(valid) == WiredAmong(contracts, first, Leading(ids, i))
      invariant forall x :: x in issues <==> ConnectionIssue(nodes, contracts, first, Leading(ids, i), x)
    {
      assert ids[i] in ids;
      var wired, raised := CheckConnection(first[ids[i]], nodes, contracts);
      assert Leading(ids, i + 1) == Leading(ids, i) + {ids[i]};
      ConnectionIssuesGrow(nodes, contracts, first, Leading(ids, i), ids[i]);
      WiredGrow(contracts, first, Leading(ids, i), ids[i]);
      if wired {
        valid := valid + [first[ids[i]]];
      }
      issues := issues + raised;
    }
    assert Leading(ids, |ids|) == first.Keys;
  }

  lemma WiredGrow(contracts: map<Id, Contract>, first: map<Id, Connection>, ids: set<Id>, i: Id)
    requires i in first
    ensures WiredAmong(contracts, first, ids + {i}) ==
            WiredAmong(contracts, first, ids) + if Wired(contracts, first[i]) then {first[i]} else {}
  {
  }

  lemma ConnectionIssuesGrow(nodes: set<Id>, contracts: map<Id, Contract>, first: map<Id, Connection>, ids: set<Id>,
                             i: Id)
    requires i in first
    ensures forall x :: ConnectionIssue(nodes, contracts, first, ids + {i}, x) <==>
                          ConnectionIssue(nodes, contracts, first, ids, x) || WiringIssue(nodes, contracts, first[i], x)
  {
  }

  ghost predicate Overdriven(conns: set<Connection>, n: Id, p: Name) {
    exists c, d :: c in conns && d in conns && c != d && c.dst == d.dst == n && c.dstPort == d.dstPort == p
  }

  lemma OverdrivenIffMany(conns: set<Connection>, n: Id, p: Name)
    ensures var incoming := set c | c in conns && c.dst == n && c.dstPort == p;
            |incoming| > 1 <==> Overdriven(conns, n, p)
  {
    var incoming := set c | c in conns && c.dst == n && c.dstPort == p;
    if |incoming| > 1 {
      var a :| a in incoming;
      var rest := incoming - {a};
      assert |rest| > 0;
      var b :| b in rest;
      assert a in conns && b in conns && a != b;
    }
    if Overdriven(conns, n, p) {
      var c, d :| c in conns && d in conns && c != d && c.dst == d.dst == n && c.dstPort == d.dstPort == p;
      SubsetSize({c, d}, incoming);
    }
  }

  /** `_validate_cardinality`. */
  method ValidateCardinality(conns: seq<Connection>) returns (issues: seq<Issue>)
    ensures forall x :: x in issues <==> x.InputCardinality? && Overdriven(AsSet(conns), x.node, x.port)
  {
    issues := [];
    var targets := set c | c in conns :: (c.dst, c.dstPort);
    var todo := targets;
    while todo != {}
      invariant todo <= targets
      invariant forall x :: x in issues <==>
                              x.InputCardinality? && (x.node, x.port) in targets - todo
                                && Overdriven(AsSet(conns), x.node, x.port)
      decreases todo
    {
      var t :| t in todo;
      var incoming := set c | c in AsSet(conns) && c.dst == t.0 && c.dstPort == t.1;
      OverdrivenIffMany(AsSet(conns), t.0, t.1);
      if |incoming| > 1 {
        issues := issues + [InputCardinality(t.0, t.1)];
      }
      todo := todo - {t};
    }
  }

  /** `_validate_required_inputs`. */
  method ValidateRequiredInputs(g: Graph) returns (issues: seq<Issue>)
    requires g.contracts.Keys == g.values.Keys
    ensures forall x :: x in issues <==> x.RequiredInputMissing? && Missing(g, x.node, x.port)
  {
    issues := [];
    var demands := set n, p | n in g.contracts && p in RequiredInputs(g.contracts[n], g.values[n]) :: (n, p);
    var todo := demands;
    while todo != {}
      invariant todo <= demands
      invariant forall x :: x in issues <==>
                              x.RequiredInputMissing? && (x.node, x.port) in demands - todo
                                && Missing(g, x.node, x.port)
      decreases todo
    {
      var t :| t in todo;
      if Missing(g, t.0, t.1) {
        issues := issues + [RequiredInputMissing(t.0, t.1)];
      }
      todo := todo - {t};
    }
  }
}
