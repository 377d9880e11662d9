/** Graph snapshots, the issues validation can report, and what a valid graph is, said without algorithms. */
module GraphModel {
  import opened Common
  import opened PortNames
  import opened NodeContracts

  datatype Node = Node(id: Id, typeId: Name, version: nat, literals: Values)
  datatype Connection = Connection(id: Id, src: Id, srcPort: Name, dst: Id, dstPort: Name)
  datatype Snapshot = Snapshot(document: Id, revision: nat, nodes: seq<Node>, connections: seq<Connection>)

  type Registry = map<Name, Contract>

  ghost predicate WellFormedRegistry(reg: Registry) {
    forall t {:trigger WellFormed(reg[t])} :: t in reg ==> WellFormed(reg[t])
  }

  datatype Issue =
    | DuplicateNodeId(node: Id)
    | DuplicateConnectionId(connection: Id)
    | UnknownNodeType(node: Id)
    | NodeVersionMismatch(node: Id)
    | InvalidParameter(node: Id, message: string)
    | MissingSourceNode(connection: Id)
    | MissingDestinationNode(connection: Id)
    | UnknownOutputPort(node: Id, connection: Id, port: Name)
    | UnknownInputPort(node: Id, connection: Id, port: Name)
    | InputCardinality(node: Id, port: Name)
    | GenericTypeConflict(node: Id, port: Name)
    | UnresolvedGenericType(node: Id, port: Name)
    | IncompatiblePortTypes(node: Id, connection: Id, port: Name)
    | GraphCycle(node: Id)
    | RequiredInputMissing(node: Id, port: Name)
    | ClockMismatch(node: Id)
    | UnknownDemandRoot(node: Id)

  predicate NamesConnection(i: Issue) {
    || i.DuplicateConnectionId? || i.MissingSourceNode? || i.MissingDestinationNode?
    || i.UnknownOutputPort? || i.UnknownInputPort? || i.IncompatiblePortTypes?
  }

  predicate NamesNode(i: Issue) {
    !(i.DuplicateConnectionId? || i.MissingSourceNode? || i.MissingDestinationNode?)
  }

  /* ---- the graph a snapshot denotes ---- */

  /** Nodes by id, the contract and parameter values of the nodes whose type is known, and the
      connections between known nodes whose two ports exist. */
  datatype Graph = Graph(
    nodes: map<Id, Node>,
    contracts: map<Id, Contract>,
    values: map<Id, Values>,
    conns: set<Connection>)

  function AsSet(conns: seq<Connection>): set<Connection> { set c | c in conns }

  function NodeIds(s: Snapshot): set<Id> { set n | n in s.nodes :: n.id }

  function ConnectionIds(s: Snapshot): set<Id> { set c | c in s.connections :: c.id }

  /** Of several nodes with one id the first counts. */
  function FirstNodes(nodes: seq<Node>): (r: map<Id, Node>)
    ensures forall i {:trigger r[i]} :: i in r ==> r[i] in nodes && r[i].id == i
    ensures forall n {:trigger n in nodes} :: n in nodes ==> n.id in r
  {
    if nodes == [] then map[] else
      var n := nodes[|nodes| - 1];
      var r := FirstNodes(nodes[..|nodes| - 1]);
      assert forall m :: m in nodes <==> m in nodes[..|nodes| - 1] || m == n;
      if n.id in r then r else r[n.id := n]
  }

  function FirstConnections(cs: seq<Connection>): (r: map<Id, Connection>)
    ensures forall i {:trigger r[i]} :: i in r ==> r[i] in cs && r[i].id == i
    ensures forall c {:trigger c in cs} :: c in cs ==> c.id in r
  {
    if cs == [] then map[] else
      var c := cs[|cs| - 1];
      var r := FirstConnections(cs[..|cs| - 1]);
      assert forall d :: d in cs <==> d in cs[..|cs| - 1] || d == c;
      if c.id in r then r else r[c.id := c]
  }

  /** A node whose id no node before it has is the one that counts. */
  lemma {:induction false} FirstNodesAreFirst(nodes: seq<Node>, i: nat)
    requires i < |nodes| && nodes[i].id !in FirstNodes(nodes[..i])
    ensures nodes[i].id in FirstNodes(nodes) && FirstNodes(nodes)[nodes[i].id] == nodes[i]
  {
    FirstNodesGrow(nodes, |nodes| - 1);
    if i < |nodes| - 1 {
      var front := nodes[..|nodes| - 1];
      assert front[..i] == nodes[..i] && front[i] == nodes[i];
      FirstNodesAreFirst(front, i);
    }
  }

  lemma FirstNodesGrow(nodes: seq<Node>, i: nat)
    requires i == |nodes| - 1
    ensures var r := FirstNodes(nodes[..i]);
            FirstNodes(nodes) == if nodes[i].id in r then r else r[nodes[i].id := nodes[i]]
  {
  }

  /** And a connection likewise. */
  lemma {:induction false} FirstConnectionsAreFirst(cs: seq<Connection>, i: nat)
    requires i < |cs| && cs[i].id !in FirstConnections(cs[..i])
    ensures cs[i].id in FirstConnections(cs) && FirstConnections(cs)[cs[i].id] == cs[i]
  {
    FirstConnectionsGrow(cs, |cs| - 1);
    if i < |cs| - 1 {
      var front := cs[..|cs| - 1];
      assert front[..i] == cs[..i] && front[i] == cs[i];
      FirstConnectionsAreFirst(front, i);
    }
  }

  lemma FirstConnectionsGrow(cs: seq<Connection>, i: nat)
    requires i == |cs| - 1
    ensures var r := FirstConnections(cs[..i]);
            FirstConnections(cs) == if cs[i].id in r then r else r[cs[i].id := cs[i]]
  {
  }

  function ContractsOf(reg: Registry, nodes: map<Id, Node>): map<Id, Contract> {
    map i | i in nodes && nodes[i].typeId in reg :: reg[nodes[i].typeId]
  }

  function ValuesOf(reg: Registry, nodes: map<Id, Node>): map<Id, Values> {
    map i | i in nodes && nodes[i].typeId in reg :: reg[nodes[i].typeId].evaluate(nodes[i].literals).values
  }

  /** Both ends are known nodes and both ports exist. */
  predicate Wired(contracts: map<Id, Contract>, c: Connection) {
    && c.src in contracts && c.dst in contracts
    && HasOutput(contracts[c.src], c.srcPort) && AcceptsConnection(contracts[c.dst], c.dstPort)
  }

  /** The connections a graph accepts: of those with one id the first, if it is wired. */
  function Accepted(contracts: map<Id, Contract>, cs: seq<Connection>): set<Connection> {
    var first := FirstConnections(cs);
    set i | i in first && Wired(contracts, first[i]) :: first[i]
  }

  function GraphOf(reg: Registry, s: Snapshot): Graph {
    var nodes := FirstNodes(s.nodes);
    var contracts := ContractsOf(reg, nodes);
    Graph(nodes, contracts, ValuesOf(reg, nodes), Accepted(contracts, s.connections))
  }

  ghost predicate WellFormedGraph(g: Graph) {
    && g.contracts.Keys == g.values.Keys <= g.nodes.Keys
    && (forall n {:trigger WellFormed(g.contracts[n])} :: n in g.contracts ==> WellFormed(g.contracts[n]))
    && (forall c :: c in g.conns ==> Wired(g.contracts, c))
    && (forall c, d :: c in g.conns && d in g.conns && c.id == d.id ==> c == d)
  }

  lemma GraphOfIsWellFormed(reg: Registry, s: Snapshot)
    requires WellFormedRegistry(reg)
    ensures WellFormedGraph(GraphOf(reg, s))
    ensures GraphOf(reg, s).nodes.Keys == NodeIds(s)
    ensures forall c :: c in GraphOf(reg, s).conns ==> c in s.connections
  {
    var g := GraphOf(reg, s);
    assert forall i :: i in g.nodes ==> g.nodes[i] in s.nodes && g.nodes[i].id == i;
  }

  /* ---- port types ---- */

  datatype PortKey = PortKey(node: Id, port: Name, isOutput: bool)

  function ConnectedPorts(conns: set<Connection>, n: Id): set<Name> {
    set c | c in conns && c.dst == n :: c.dstPort
  }

  /** A node's input sockets: its effective input ports (with or without the spare variadic one) and
      its connectable parameters. */
  function Sockets(g: Graph, n: Id, withNext: bool): set<Name>
    requires n in g.contracts
  {
    InputPorts(g.contracts[n], ConnectedPorts(g.conns, n), withNext) + ParameterSockets(g.contracts[n])
  }

  /** The ports of known nodes that take part in type resolution. */
  function Ports(g: Graph): (r: set<PortKey>)
    ensures forall k :: k in r <==> IsPort(g, k)
  {
    (set n, p | n in g.contracts && p in Sockets(g, n, true) :: PortKey(n, p, false)) +
    (set n, p | n in g.contracts && p in Ids(g.contracts[n].outputs) :: PortKey(n, p, true))
  }

  predicate IsPort(g: Graph, k: PortKey) {
    && k.node in g.contracts
    && if k.isOutput then HasOutput(g.contracts[k.node], k.port) else k.port in Sockets(g, k.node, true)
  }

  /** A port whose unsettled type is reported: all but the spare socket of a full variadic family. */
  predicate IsChecked(g: Graph, k: PortKey) {
    IsPort(g, k) && (k.isOutput || k.port in Sockets(g, k.node, false))
  }

  function ExprOf(g: Graph, k: PortKey): TypeExpr
    requires WellFormedGraph(g) && IsPort(g, k)
  {
    var c := g.contracts[k.node];
    assert WellFormed(c);
    if !k.isOutput && k.port in ParameterSockets(c) then Concrete(SocketTypeOf(c, k.port)) else
      assert k.isOutput || HasInput(c, k.port) by {
        if !k.isOutput { ListedInputsExist(c, ConnectedPorts(g.conns, k.node), true, k.port); }
      }
      PortTypeOf(c, k.port, k.isOutput, g.values[k.node])
  }

  function Expressions(g: Graph): map<PortKey, TypeExpr>
    requires WellFormedGraph(g)
  {
    map k | k in Ports(g) :: ExprOf(g, k)
  }

  function SourceKey(c: Connection): PortKey { PortKey(c.src, c.srcPort, true) }

  function TargetKey(c: Connection): PortKey { PortKey(c.dst, c.dstPort, false) }

  /** Both ends of every connection are checked ports, so no table lookup can miss. */
  lemma EndsAreChecked(g: Graph, c: Connection)
    requires WellFormedGraph(g) && c in g.conns
    ensures IsChecked(g, SourceKey(c)) && IsChecked(g, TargetKey(c))
  {
    var contract := g.contracts[c.dst];
    assert c.dstPort in ConnectedPorts(g.conns, c.dst);
    if HasInput(contract, c.dstPort) {
      ConnectedInputsAreListed(contract, ConnectedPorts(g.conns, c.dst), true, c.dstPort);
      ConnectedInputsAreListed(contract, ConnectedPorts(g.conns, c.dst), false, c.dstPort);
    }
  }

  lemma ExpressionsAreBounded(g: Graph, k: PortKey)
    requires WellFormedGraph(g) && IsPort(g, k)
    ensures ArrayVariableBounded(ExprOf(g, k))
  {
    var c := g.contracts[k.node];
    assert WellFormed(c);
    if k.isOutput || k.port !in ParameterSockets(c) {
      if !k.isOutput { ListedInputsExist(c, ConnectedPorts(g.conns, k.node), true, k.port); }
      if c.typeResolver.None? {
        var ports := if k.isOutput then c.outputs else c.inputs;
        if k.isOutput || k.port in Ids(c.inputs) {
          var spec := Lookup(ports, k.port);
          var i :| 0 <= i < |ports| && ports[i] == spec;
        }
      }
    }
  }
}
