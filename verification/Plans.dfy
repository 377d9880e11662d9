/** Execution plans and their construction (`_build_plan`, `_compile_node`), with what makes a plan sound. */
module Plans {
  import opened Common
  import opened PortNames
  import opened NodeContracts
  import opened Reach
  import opened TypeGroups
  import opened GraphModel
  import opened TypeInference
  import opened Ordering
  import opened Clocks
  import opened Validation
  import opened Analysis

  datatype Binding = Binding(source: Id, port: Name, intToFloat: bool)

  datatype CompiledNode = CompiledNode(
    id: Id,
    contract: Contract,
    parameters: Values,
    bindings: map<Name, Binding>,
    inputTypes: map<Name, PortType>,
    outputTypes: map<Name, PortType>,
    clock: Option<Id>,
    isStatic: bool,
    isDemanded: bool)

  datatype Plan = Plan(document: Id, revision: nat, nodes: seq<CompiledNode>, roots: set<Id>)

  /* ---- soundness, stated on the plan alone ---- */

  /** The binding at `p` of node `i` reads a declared output of an earlier node, of a compatible type,
      and converts exactly an Int read as Float. */
  ghost predicate BindingFrom(plan: Plan, i: nat, p: Name, j: nat)
    requires i < |plan.nodes| && p in plan.nodes[i].bindings
  {
    && j < i
    && var reader, writer, b := plan.nodes[i], plan.nodes[j], plan.nodes[i].bindings[p];
       && writer.id == b.source
       && HasOutput(writer.contract, b.port) && b.port in writer.outputTypes && p in reader.inputTypes
       && TypesCompatible(writer.outputTypes[b.port], reader.inputTypes[p])
       && (b.intToFloat <==> writer.outputTypes[b.port] == Int && reader.inputTypes[p] == Float)
  }

  ghost predicate BindingsSound(plan: Plan) {
    forall i, p :: 0 <= i < |plan.nodes| && p in plan.nodes[i].bindings ==> exists j: nat :: BindingFrom(plan, i, p, j)
  }

  /** Every required input is bound, and a variadic family has at least its minimum of members bound. */
  ghost predicate Supplied(n: CompiledNode) {
    forall p :: p in RequiredInputs(n.contract, n.parameters) ==>
                  if n.contract.variadic.Some? && p == n.contract.variadic.value.prefix then
                    var f := n.contract.variadic.value;
                    |set q | q in n.bindings.Keys && MemberIndex(f.prefix, q).Some?| >= f.minimum
                  else p in n.bindings
  }

  /** A source runs on its own clock; any other node on the clock of whatever it reads that has one. */
  ghost predicate ClockSound(plan: Plan, i: nat)
    requires i < |plan.nodes|
  {
    var n := plan.nodes[i];
    if n.contract.kind == Source then n.clock == Some(n.id)
    else
      && (forall p, j: nat :: p in n.bindings && BindingFrom(plan, i, p, j) && plan.nodes[j].clock.Some? ==>
                                n.clock == plan.nodes[j].clock)
      && (n.clock.Some? ==>
            exists p, j: nat :: p in n.bindings && BindingFrom(plan, i, p, j) && plan.nodes[j].clock == n.clock)
  }

  /** A node is computed once and kept exactly when nothing clocks it and its type does not forbid it. */
  ghost predicate StaticSound(n: CompiledNode) {
    n.isStatic <==> n.clock.None? && n.contract.cache != Never
  }

  /** The type variables of one node, each settled to one type. */
  type Assignment = map<Name, Option<PortType>>

  /** `t` is what the declaration says: itself if concrete, otherwise what its variable was assigned, or the
      array of that, and inside the variable's allowed set if it has one. */
  predicate HasType(e: TypeExpr, vars: Assignment, t: PortType) {
    if e.Concrete? then t == e.portType
    else e.name in vars && vars[e.name].Some? && AssignedType(e, vars[e.name].value, t)
  }

  predicate AssignedType(e: TypeExpr, element: PortType, t: PortType)
    requires !e.Concrete?
  {
    && (e.allowed != {} ==> element in e.allowed)
    && if e.Variable? then t == element else element in ELEMENT_TYPES && t == ArrayOf(element)
  }

  predicate Declares(c: Contract, p: Name, isOutput: bool) {
    if isOutput then HasOutput(c, p) else AcceptsConnection(c, p)
  }

  function DeclaredType(c: Contract, p: Name, isOutput: bool, values: Values): TypeExpr
    requires WellFormed(c) && Declares(c, p, isOutput)
  {
    if !isOutput && p in ParameterSockets(c) then Concrete(SocketTypeOf(c, p)) else PortTypeOf(c, p, isOutput, values)
  }

  ghost predicate PortTyped(n: CompiledNode, vars: Assignment, p: Name, isOutput: bool, t: PortType) {
    && WellFormed(n.contract) && Declares(n.contract, p, isOutput)
    && HasType(DeclaredType(n.contract, p, isOutput, n.parameters), vars, t)
  }

  ghost predicate TypedBy(n: CompiledNode, vars: Assignment) {
    && (forall p :: p in n.inputTypes ==> PortTyped(n, vars, p, false, n.inputTypes[p]))
    && (forall p :: p in n.outputTypes ==> PortTyped(n, vars, p, true, n.outputTypes[p]))
  }

  /** Every output and every effective input has the type it declares, with one type for each variable. */
  ghost predicate TypesSound(n: CompiledNode) {
    && n.inputTypes.Keys == InputPorts(n.contract, n.bindings.Keys, false) + ParameterSockets(n.contract)
    && n.outputTypes.Keys == Ids(n.contract.outputs)
    && exists vars :: TypedBy(n, vars)
  }

  ghost predicate NodeSound(plan: Plan, i: nat)
    requires i < |plan.nodes|
  {
    Supplied(plan.nodes[i]) && ClockSound(plan, i) && StaticSound(plan.nodes[i]) && TypesSound(plan.nodes[i])
  }

  ghost function PlanEdges(plan: Plan): Edges {
    set i, p | 0 <= i < |plan.nodes|
      && p in plan.nodes[i].bindings.Keys :: (plan.nodes[i].bindings[p].source, plan.nodes[i].id)
  }

  ghost function PlanIds(plan: Plan): set<Id> { set i | 0 <= i < |plan.nodes| :: plan.nodes[i].id }

  ghost function Demanded(plan: Plan): set<Id> {
    set i | 0 <= i < |plan.nodes| && plan.nodes[i].isDemanded :: plan.nodes[i].id
  }

  ghost predicate Sound(plan: Plan) {
    && (forall i, j :: 0 <= i < j < |plan.nodes| ==> plan.nodes[i].id != plan.nodes[j].id)
    && BindingsSound(plan)
    && (forall i :: 0 <= i < |plan.nodes| ==> NodeSound(plan, i))
    && plan.roots <= PlanIds(plan)
    && IsDemand(PlanEdges(plan), plan.roots, Demanded(plan))
  }

  /** The plan covers exactly the snapshot's nodes, each with its contract and evaluated parameters, and
      turns each connection into one binding and nothing else. */
  ghost predicate Covers(reg: Registry, s: Snapshot, plan: Plan) {
    && PlanIds(plan) == NodeIds(s)
    && (forall i :: 0 <= i < |plan.nodes| ==> IsInstance(reg, s, plan.nodes[i]))
    && (forall i, p, c :: 0 <= i < |plan.nodes| && c in s.connections && c.dst == plan.nodes[i].id && c.dstPort == p ==>
          Binds(plan.nodes[i], p, c))
    && (forall i, p :: 0 <= i < |plan.nodes| && p in plan.nodes[i].bindings ==>
          HasConnection(s, plan.nodes[i], p))
  }

  ghost predicate IsInstance(reg: Registry, s: Snapshot, n: CompiledNode) {
    exists m :: m in s.nodes && Instantiates(reg, m, n)
  }

  ghost predicate Instantiates(reg: Registry, m: Node, n: CompiledNode) {
    m.id == n.id && m.typeId in reg && n.contract == reg[m.typeId]
    && n.parameters == reg[m.typeId].evaluate(m.literals).values
  }

  ghost predicate HasConnection(s: Snapshot, n: CompiledNode, p: Name) {
    exists c :: c in s.connections && c.dst == n.id && c.dstPort == p && Binds(n, p, c)
  }

  ghost predicate Binds(n: CompiledNode, p: Name, c: Connection) {
    p in n.bindings && n.bindings[p].source == c.src && n.bindings[p].port == c.srcPort
  }

  /* ---- construction ---- */

  function Driver(conns: set<Connection>, n: Id, p: Name): (c: Connection)
    requires p in ConnectedPorts(conns, n)
    requires forall c, d :: c in conns && d in conns && c.dst == d.dst && c.dstPort == d.dstPort ==> c == d
    ensures c in conns && c.dst == n && c.dstPort == p
  {
    var c :| c in conns && c.dst == n && c.dstPort == p;
    c
  }

  /** `_settled_type` has a value to return at every port a plan reads. */
  ghost predicate AllSettled(g: Graph, resolved: map<PortKey, Option<PortType>>) {
    forall k {:trigger IsChecked(g, k)} :: IsChecked(g, k) ==> k in resolved && resolved[k].Some?
  }

  lemma ValidMeansSettled(g: Graph, resolved: map<PortKey, Option<PortType>>)
    requires WellFormedGraph(g) && GraphValid(g)
    requires resolved.Keys == Ports(g) && forall k :: k in resolved ==> resolved[k] == TypeOf(g, k)
    ensures AllSettled(g, resolved)
  {
    forall k | IsChecked(g, k) ensures k in resolved && resolved[k].Some? {
      assert k in CheckedPorts(g) && k in Expressions(g);
    }
  }

  function SettledType(resolved: map<PortKey, Option<PortType>>, k: PortKey): PortType
    requires k in resolved && resolved[k].Some?
  {
    resolved[k].value
  }

  function InputTypes(g: Graph, resolved: map<PortKey, Option<PortType>>, n: Id): map<Name, PortType>
    requires n in g.contracts && AllSettled(g, resolved) && SpareIsExtra(g, n)
  {
    map p | p in Sockets(g, n, false) :: assert IsChecked(g, PortKey(n, p, false));
      SettledType(resolved, PortKey(n, p, false))
  }

  ghost predicate SpareIsExtra(g: Graph, n: Id)
    requires n in g.contracts
  {
    Sockets(g, n, false) <= Sockets(g, n, true)
  }

  lemma SpareIsAlwaysExtra(g: Graph, n: Id)
    requires n in g.contracts
    ensures SpareIsExtra(g, n)
  {
    var c := g.contracts[n];
    forall p | p in InputPorts(c, ConnectedPorts(g.conns, n), false)
      ensures p in InputPorts(c, ConnectedPorts(g.conns, n), true)
    {
      ListedInputsExist(c, ConnectedPorts(g.conns, n), false, p);
    }
  }

  function OutputTypes(g: Graph, resolved: map<PortKey, Option<PortType>>, n: Id): map<Name, PortType>
    requires n in g.contracts && AllSettled(g, resolved)
  {
    map p | p in Ids(g.contracts[n].outputs) :: assert IsChecked(g, PortKey(n, p, true));
      SettledType(resolved, PortKey(n, p, true))
  }

  /** The connected sockets of a node, each bound to its single driver. */
  function Bindings(g: Graph, resolved: map<PortKey, Option<PortType>>, n: Id): map<Name, Binding>
    requires WellFormedGraph(g) && n in g.contracts && AllSettled(g, resolved) && SingleDriver(g)
  {
    map p | p in Sockets(g, n, false) && p in ConnectedPorts(g.conns, n) ::
      var c := Driver(g.conns, n, p);
      EndsAreChecked(g, c);
      var source, destination := SettledType(resolved, SourceKey(c)), SettledType(resolved, TargetKey(c));
      Binding(c.src, c.srcPort, source == Int && destination == Float)
  }

  function CompileNode(g: Graph, resolved: map<PortKey, Option<PortType>>, clock: Option<Id>, demanded: bool,
                       n: Id): CompiledNode
    requires WellFormedGraph(g) && n in g.contracts && AllSettled(g, resolved) && SingleDriver(g)
  {
    SpareIsAlwaysExtra(g, n);
    var c := g.contracts[n];
    CompiledNode(n, c, g.values[n], Bindings(g, resolved, n), InputTypes(g, resolved, n), OutputTypes(g, resolved, n),
                 clock, clock.None? && c.cache != Never, demanded)
  }

  /* ---- the plan of a valid analysis ---- */

  /** Facts about an analysis without issues, as plan construction uses them. */
  ghost predicate Ready(a: Analyzed) {
    var g := a.graph;
    && Compilable(a) && g.contracts.Keys == g.nodes.Keys && InputsSupplied(g)
    && TypesAgree(g, a.resolved) && TypesResolved(g, a.resolved)
    && GreedyOrder(g.nodes.Keys, EdgesOf(g.conns), a.order) && SameElements(a.order, g.nodes.Keys)
    && Exact(g, a.clocks)
    && a.roots <= g.nodes.Keys && IsDemand(EdgesOf(g.conns), a.roots, a.demanded)
  }

  ghost predicate TypesResolved(g: Graph, resolved: map<PortKey, Option<PortType>>)
    requires WellFormedGraph(g)
  {
    forall k :: k in resolved ==> IsPort(g, k) && resolved[k] == TypeOf(g, k)
  }

  /** Settled types at the two ends of a connection fit. */
  ghost predicate TypesAgree(g: Graph, resolved: map<PortKey, Option<PortType>>) {
    forall c :: c in g.conns && SourceKey(c) in resolved && TargetKey(c) in resolved
                && resolved[SourceKey(c)].Some? && resolved[TargetKey(c)].Some? ==>
                  TypesCompatible(resolved[SourceKey(c)].value, resolved[TargetKey(c)].value)
  }

  lemma ValidMeansAgreeing(g: Graph, resolved: map<PortKey, Option<PortType>>)
    requires WellFormedGraph(g) && GraphValid(g)
    requires resolved.Keys == Ports(g) && forall k :: k in resolved ==> resolved[k] == TypeOf(g, k)
    ensures TypesAgree(g, resolved)
  {
    forall c | c in g.conns && SourceKey(c) in resolved && TargetKey(c) in resolved
               && resolved[SourceKey(c)].Some? && resolved[TargetKey(c)].Some?
      ensures TypesCompatible(resolved[SourceKey(c)].value, resolved[TargetKey(c)].value)
    {
      assert !Misfit(Expressions(g), FactsOf(Expressions(g), g.conns), c);
    }
  }

  lemma FullOrderOfValid(g: Graph, order: seq<Id>)
    requires WellFormedGraph(g) && Acyclic(EdgesOf(g.conns)) && GreedyOrder(g.nodes.Keys, EdgesOf(g.conns), order)
    ensures SameElements(order, g.nodes.Keys)
  {
    AcyclicOrderIsFull(g, order);
    forall n | n in order ensures n in g.nodes {
      var i :| 0 <= i < |order| && order[i] == n;
      assert Available(g.nodes.Keys, EdgesOf(g.conns), Taken(order, i), n);
    }
  }

  lemma ValidKnowsContracts(reg: Registry, s: Snapshot)
    requires forall n :: n in s.nodes ==> NodeAccepted(reg, n)
    ensures GraphOf(reg, s).contracts.Keys == GraphOf(reg, s).nodes.Keys
  {
    var g := GraphOf(reg, s);
    forall i | i in g.nodes ensures i in g.contracts { assert NodeAccepted(reg, g.nodes[i]); }
  }

  lemma ValidAnalysisIsReady(reg: Registry, s: Snapshot, requested: Requested, a: Analyzed)
    requires WellFormedRegistry(reg) && WellFormedGraph(a.graph) && Describes(reg, s, requested, a) && Valid(reg, s)
    requires a.clocks.Keys == a.graph.contracts.Keys && Exact(a.graph, a.clocks)
    ensures Ready(a)
  {
    var g := a.graph;
    ValidKnowsContracts(reg, s);
    ValidMeansSettled(g, a.resolved);
    ValidMeansAgreeing(g, a.resolved);
    FullOrderOfValid(g, a.order);
    forall i | 0 <= i < |a.order| ensures a.order[i] in g.contracts && a.order[i] in a.clocks {
      assert a.order[i] in a.order;
    }
    RootsAreNodes(g, requested);
  }

  lemma RootsAreNodes(g: Graph, requested: Requested)
    requires g.contracts.Keys <= g.nodes.Keys
    ensures DemandRoots(g, requested) <= g.nodes.Keys
  {
  }

  /** What construction itself needs: settled types, single drivers, and a contract and clock for each node. */
  ghost predicate Compilable(a: Analyzed) {
    && WellFormedGraph(a.graph) && SingleDriver(a.graph) && AllSettled(a.graph, a.resolved)
    && forall i :: 0 <= i < |a.order| ==> a.order[i] in a.graph.contracts && a.order[i] in a.clocks
  }

  function CompiledAt(a: Analyzed, i: nat): CompiledNode
    requires Compilable(a) && i < |a.order|
  {
    CompileNode(a.graph, a.resolved, a.clocks[a.order[i]], a.order[i] in a.demanded, a.order[i])
  }

  ghost predicate IsPlanOf(a: Analyzed, plan: Plan) {
    && Compilable(a) && |plan.nodes| == |a.order| && plan.roots == a.roots
    && forall i {:trigger plan.nodes[i]} :: 0 <= i < |a.order| ==> plan.nodes[i] == CompiledAt(a, i)
  }

  method BuildPlan(document: Id, revision: nat, a: Analyzed) returns (plan: Plan)
    requires Compilable(a)
    ensures plan.document == document && plan.revision == revision && IsPlanOf(a, plan)
  {
    var nodes := [];
    for i := 0 to |a.order|
      invariant |nodes| == i && forall j :: 0 <= j < i ==> nodes[j] == CompiledAt(a, j)
    {
      nodes := nodes + [CompiledAt(a, i)];
    }
    plan := Plan(document, revision, nodes, a.roots);
  }

  /* ---- every plan built this way is sound ---- */

  lemma CompiledBindings(a: Analyzed, plan: Plan, i: nat, p: Name)
    requires IsPlanOf(a, plan) && i < |plan.nodes|
    ensures plan.nodes[i].id == a.order[i] && plan.nodes[i].contract == a.graph.contracts[a.order[i]]
    ensures plan.nodes[i].parameters == a.graph.values[a.order[i]] && plan.nodes[i].clock == a.clocks[a.order[i]]
    ensures p in plan.nodes[i].bindings <==> p in ConnectedPorts(a.graph.conns, a.order[i])
  {
    var g, n := a.graph, a.order[i];
    assert plan.nodes[i] == CompiledAt(a, i);
    if p in ConnectedPorts(g.conns, n) {
      var c := Driver(g.conns, n, p);
      EndsAreChecked(g, c);
    }
  }

  lemma ConnectionIsBound(a: Analyzed, plan: Plan, i: nat, c: Connection)
    requires IsPlanOf(a, plan) && i < |plan.nodes| && c in a.graph.conns && c.dst == a.order[i]
    ensures Binds(plan.nodes[i], c.dstPort, c)
    ensures c.dstPort in plan.nodes[i].inputTypes
    ensures AllSettled(a.graph, a.resolved) && IsChecked(a.graph, SourceKey(c)) && IsChecked(a.graph, TargetKey(c))
    ensures plan.nodes[i].inputTypes[c.dstPort] == a.resolved[TargetKey(c)].value
    ensures plan.nodes[i].bindings[c.dstPort].intToFloat <==>
            a.resolved[SourceKey(c)].value == Int && a.resolved[TargetKey(c)].value == Float
  {
    EndsAreChecked(a.graph, c);
    assert plan.nodes[i] == CompiledAt(a, i);
    assert c.dstPort in ConnectedPorts(a.graph.conns, c.dst);
    assert Driver(a.graph.conns, c.dst, c.dstPort) == c;
  }

  lemma OutputIsTyped(a: Analyzed, plan: Plan, j: nat, c: Connection)
    requires IsPlanOf(a, plan) && j < |plan.nodes| && c in a.graph.conns && c.src == a.order[j]
    ensures AllSettled(a.graph, a.resolved) && IsChecked(a.graph, SourceKey(c))
    ensures HasOutput(plan.nodes[j].contract, c.srcPort) && c.srcPort in plan.nodes[j].outputTypes
    ensures plan.nodes[j].outputTypes[c.srcPort] == a.resolved[SourceKey(c)].value
  {
    EndsAreChecked(a.graph, c);
    assert plan.nodes[j] == CompiledAt(a, j);
  }

  /** The node a binding reads from comes earlier in the plan. */
  lemma WriterComesFirst(a: Analyzed, plan: Plan, i: nat, c: Connection) returns (j: nat)
    requires Ready(a) && IsPlanOf(a, plan) && i < |plan.nodes| && c in a.graph.conns && c.dst == a.order[i]
    ensures j < i && a.order[j] == c.src && c.dstPort in plan.nodes[i].bindings && BindingFrom(plan, i, c.dstPort, j)
  {
    var e := EdgesOf(a.graph.conns);
    assert Available(a.graph.nodes.Keys, e, Taken(a.order, i), a.order[i]);
    assert c.src in Preds(e, c.dst);
    j :| 0 <= j < i && a.order[j] == c.src;
    ConnectionIsBound(a, plan, i, c);
    OutputIsTyped(a, plan, j, c);
    CompiledBindings(a, plan, j, c.srcPort);
    assert TypesCompatible(a.resolved[SourceKey(c)].value, a.resolved[TargetKey(c)].value);
  }

  lemma PlanBindingsSound(a: Analyzed, plan: Plan)
    requires Ready(a) && IsPlanOf(a, plan)
    ensures BindingsSound(plan)
  {
    forall i, p | 0 <= i < |plan.nodes| && p in plan.nodes[i].bindings
      ensures exists j: nat :: BindingFrom(plan, i, p, j)
    {
      CompiledBindings(a, plan, i, p);
      var c := Driver(a.graph.conns, a.order[i], p);
      var j := WriterComesFirst(a, plan, i, c);
    }
  }

  lemma PlanSupplied(a: Analyzed, plan: Plan, i: nat)
    requires Ready(a) && IsPlanOf(a, plan) && i < |plan.nodes|
    ensures Supplied(plan.nodes[i])
  {
    var g, n := a.graph, plan.nodes[i];
    forall p ensures p in n.bindings <==> p in ConnectedPorts(g.conns, a.order[i]) { CompiledBindings(a, plan, i, p); }
    CompiledBindings(a, plan, i, "");
    forall p | p in RequiredInputs(n.contract, n.parameters) && n.contract.variadic.Some?
      && p == n.contract.variadic.value.prefix
      ensures |set q | q in n.bindings.Keys
              && MemberIndex(n.contract.variadic.value.prefix, q).Some?| >= n.contract.variadic.value.minimum
    {
      assert !Missing(g, n.id, p);
      var f := n.contract.variadic.value;
      assert (set q | q in n.bindings.Keys && MemberIndex(f.prefix, q).Some?) == ConnectedMembers(g, f, n.id);
    }
    forall p | p in RequiredInputs(n.contract, n.parameters)
      && !(n.contract.variadic.Some? && p == n.contract.variadic.value.prefix)
      ensures p in n.bindings
    {
      assert !Missing(g, n.id, p);
    }
  }

  /** Of a non-source node: reading from a clocked node puts it on that clock, and its clock comes from a read. */
  lemma ClockFlows(g: Graph, clocks: ClockMap, n: Id, m: Id, s: Id)
    requires Exact(g, clocks) && n in clocks && m in clocks && !IsSource(g, n) && (m, n) in EdgesOf(g.conns)
    requires clocks[m] == Some(s)
    ensures clocks[n] == Some(s)
  {
    assert HasClock(g, n, clocks[n]) && HasClock(g, m, clocks[m]);
    assert FedThrough(g, s, n, m);
    FeedsByPredecessor(g, s, n);
  }

  lemma ClockHasOrigin(g: Graph, clocks: ClockMap, n: Id) returns (m: Id)
    requires Exact(g, clocks) && n in clocks && !IsSource(g, n) && clocks[n].Some?
    requires forall c :: c in g.conns ==> c.src in clocks
    ensures (m, n) in EdgesOf(g.conns) && m in clocks && clocks[m] == clocks[n]
  {
    var s := clocks[n].value;
    assert HasClock(g, n, clocks[n]);
    FeedsByPredecessor(g, s, n);
    m :| FedThrough(g, s, n, m);
    assert m in clocks;
    assert HasClock(g, m, clocks[m]);
  }

  lemma PlanClockSound(a: Analyzed, plan: Plan, i: nat)
    requires Ready(a) && IsPlanOf(a, plan) && i < |plan.nodes|
    ensures ClockSound(plan, i)
  {
    var g, n := a.graph, plan.nodes[i];
    forall k: nat | k < |plan.nodes|
      ensures plan.nodes[k].id == a.order[k] && plan.nodes[k].clock == a.clocks[a.order[k]]
              && plan.nodes[k].contract == g.contracts[a.order[k]]
    {
      CompiledBindings(a, plan, k, "");
    }
    if n.contract.kind == Source {
      assert HasClock(g, n.id, a.clocks[n.id]);
    } else {
      forall p, j: nat | p in n.bindings && BindingFrom(plan, i, p, j) && plan.nodes[j].clock.Some?
        ensures n.clock == plan.nodes[j].clock
      {
        CompiledBindings(a, plan, i, p);
        var c := Driver(g.conns, n.id, p);
        ConnectionIsBound(a, plan, i, c);
        ClockFlows(g, a.clocks, n.id, c.src, plan.nodes[j].clock.value);
      }
      if n.clock.Some? {
        KnownSources(a);
        var m := ClockHasOrigin(g, a.clocks, n.id);
        var c :| c in g.conns && (c.src, c.dst) == (m, n.id);
        var j := WriterComesFirst(a, plan, i, c);
        assert plan.nodes[j].clock == n.clock;
      }
    }
  }

  lemma KnownSources(a: Analyzed)
    requires Ready(a)
    ensures forall c :: c in a.graph.conns ==> c.src in a.clocks && c.dst in a.graph.nodes
  {
    forall c | c in a.graph.conns ensures c.src in a.clocks && c.dst in a.graph.nodes {
      assert c.src in a.order;
      var i :| 0 <= i < |a.order| && a.order[i] == c.src;
    }
  }

  lemma PlanDemandSound(a: Analyzed, plan: Plan)
    requires Ready(a) && IsPlanOf(a, plan)
    ensures PlanIds(plan) == a.graph.nodes.Keys
    ensures PlanEdges(plan) == EdgesOf(a.graph.conns) && Demanded(plan) == a.demanded
  {
    var g := a.graph;
    forall k: nat | k < |plan.nodes|
      ensures plan.nodes[k].id == a.order[k] && plan.nodes[k].isDemanded == (a.order[k] in a.demanded)
    {
      assert plan.nodes[k] == CompiledAt(a, k);
    }
    forall n | n in g.nodes ensures n in PlanIds(plan) {
      var i :| 0 <= i < |a.order| && a.order[i] == n;
      assert plan.nodes[i].id == n;
    }
    forall n | n in PlanIds(plan) ensures n in g.nodes {
      var i :| 0 <= i < |plan.nodes| && plan.nodes[i].id == n;
      assert a.order[i] in a.order;
    }
    PlanEdgesAreConnections(a, plan);
    KnownSources(a);
    assert Closed(EdgesOf(g.conns), g.nodes.Keys);
    assert a.demanded <= g.nodes.Keys;
    forall n | n in a.demanded ensures n in Demanded(plan) {
      var i :| 0 <= i < |plan.nodes| && plan.nodes[i].id == n;
    }
  }

  lemma PlanEdgesAreConnections(a: Analyzed, plan: Plan)
    requires Ready(a) && IsPlanOf(a, plan)
    ensures PlanEdges(plan) == EdgesOf(a.graph.conns)
  {
    var g := a.graph;
    forall c | c in g.conns ensures (c.src, c.dst) in PlanEdges(plan) {
      KnownSources(a);
      assert c.dst in a.order;
      var i :| 0 <= i < |a.order| && a.order[i] == c.dst;
      ConnectionIsBound(a, plan, i, c);
      CompiledBindings(a, plan, i, c.dstPort);
      assert (plan.nodes[i].bindings[c.dstPort].source, plan.nodes[i].id) == (c.src, c.dst);
    }
    forall i, p | 0 <= i < |plan.nodes| && p in plan.nodes[i].bindings.Keys
      ensures (plan.nodes[i].bindings[p].source, plan.nodes[i].id) in EdgesOf(g.conns)
    {
      CompiledBindings(a, plan, i, p);
      var c := Driver(g.conns, a.order[i], p);
      ConnectionIsBound(a, plan, i, c);
    }
  }

  /** What the variables of node `n` mean. */
  ghost function MeaningsAt(t: ExprTable, f: Facts, n: Id): Assignment {
    map x | x in (set k | k in t && k.node == n && !t[k].Concrete? :: t[k].name) :: Meaning(f, VarKey(n, x))
  }

  lemma SettledPortHasType(g: Graph, k: PortKey)
    requires WellFormedGraph(g) && IsPort(g, k) && TypeOf(g, k).Some?
    ensures var t := Expressions(g);
            HasType(ExprOf(g, k), MeaningsAt(t, FactsOf(t, g.conns), k.node), TypeOf(g, k).value)
  {
    var t := Expressions(g);
    var f := FactsOf(t, g.conns);
    var e := ExprOf(g, k);
    if !e.Concrete? {
      var v := VarOf(k, e);
      assert k in t && t[k] == e;
      if e.allowed != {} {
        assert (v, e.allowed) in f.bounds;
        LinkedReflexive(f.links, v);
        SettledTypeIsAllowed(f, v, (v, e.allowed));
      }
    }
  }

  lemma DeclaredIsExpr(g: Graph, k: PortKey)
    requires WellFormedGraph(g) && IsPort(g, k)
    ensures WellFormed(g.contracts[k.node]) && Declares(g.contracts[k.node], k.port, k.isOutput)
    ensures DeclaredType(g.contracts[k.node], k.port, k.isOutput, g.values[k.node]) == ExprOf(g, k)
  {
    var c := g.contracts[k.node];
    if !k.isOutput && k.port !in ParameterSockets(c) {
      ListedInputsExist(c, ConnectedPorts(g.conns, k.node), true, k.port);
    }
  }

  lemma CompiledPortIsTyped(a: Analyzed, n: CompiledNode, k: PortKey)
    requires Ready(a) && IsChecked(a.graph, k) && AllSettled(a.graph, a.resolved)
    requires n.contract == a.graph.contracts[k.node] && n.parameters == a.graph.values[k.node]
    ensures k in a.resolved && a.resolved[k].Some?
    ensures var t := Expressions(a.graph);
            PortTyped(n, MeaningsAt(t, FactsOf(t, a.graph.conns), k.node), k.port, k.isOutput, a.resolved[k].value)
  {
    DeclaredIsExpr(a.graph, k);
    SettledPortHasType(a.graph, k);
  }

  lemma PlanTypesSound(a: Analyzed, plan: Plan, i: nat)
    requires Ready(a) && IsPlanOf(a, plan) && i < |plan.nodes|
    ensures TypesSound(plan.nodes[i]) && StaticSound(plan.nodes[i])
  {
    var g, n, id := a.graph, plan.nodes[i], a.order[i];
    assert n == CompiledAt(a, i);
    forall p ensures p in n.bindings <==> p in ConnectedPorts(g.conns, id) { CompiledBindings(a, plan, i, p); }
    assert n.bindings.Keys == ConnectedPorts(g.conns, id);
    CompiledBindings(a, plan, i, "");
    SpareIsAlwaysExtra(g, id);
    var vars := MeaningsAt(Expressions(g), FactsOf(Expressions(g), g.conns), id);
    forall p | p in n.inputTypes ensures PortTyped(n, vars, p, false, n.inputTypes[p]) {
      CompiledPortIsTyped(a, n, PortKey(id, p, false));
    }
    forall p | p in n.outputTypes ensures PortTyped(n, vars, p, true, n.outputTypes[p]) {
      CompiledPortIsTyped(a, n, PortKey(id, p, true));
    }
    assert TypedBy(n, vars);
  }

  /** Soundness of the plan of any analysis without issues. */
  lemma PlanIsSound(a: Analyzed, plan: Plan)
    requires Ready(a) && IsPlanOf(a, plan)
    ensures Sound(plan)
  {
    PlanBindingsSound(a, plan);
    PlanDemandSound(a, plan);
    forall i | 0 <= i < |plan.nodes| ensures NodeSound(plan, i) {
      PlanTypesSound(a, plan, i);
      PlanSupplied(a, plan, i);
      PlanClockSound(a, plan, i);
    }
    forall i, j | 0 <= i < j < |plan.nodes| ensures plan.nodes[i].id != plan.nodes[j].id {
      TopologicalDistinct(a.graph.nodes.Keys, EdgesOf(a.graph.conns), a.order, i, j);
      CompiledBindings(a, plan, i, "");
      CompiledBindings(a, plan, j, "");
    }
  }

  lemma NodeIsInstantiated(reg: Registry, s: Snapshot, a: Analyzed, plan: Plan, i: nat)
    requires a.graph == GraphOf(reg, s) && IsPlanOf(a, plan) && i < |plan.nodes|
    ensures IsInstance(reg, s, plan.nodes[i])
  {
    CompiledBindings(a, plan, i, "");
    var m := a.graph.nodes[a.order[i]];
    assert m in s.nodes && Instantiates(reg, m, plan.nodes[i]);
  }

  /** In a valid snapshot every connection is one of the graph's, and conversely. */
  lemma ValidKeepsConnections(reg: Registry, s: Snapshot, c: Connection)
    requires UniqueIds(s) && forall d :: d in s.connections ==> Wired(GraphOf(reg, s).contracts, d)
    ensures c in s.connections <==> c in GraphOf(reg, s).conns
  {
    var first := FirstConnections(s.connections);
    if c in s.connections {
      FirstConnectionIsOnly(s.connections, c);
      assert c.id in first && Wired(GraphOf(reg, s).contracts, first[c.id]);
    }
  }

  lemma ConnectionIsInPlan(reg: Registry, s: Snapshot, a: Analyzed, plan: Plan, i: nat, c: Connection)
    requires UniqueIds(s) && forall d :: d in s.connections ==> Wired(GraphOf(reg, s).contracts, d)
    requires a.graph == GraphOf(reg, s) && Ready(a) && IsPlanOf(a, plan) && i < |plan.nodes|
    requires c in s.connections && c.dst == plan.nodes[i].id
    ensures Binds(plan.nodes[i], c.dstPort, c)
  {
    ValidKeepsConnections(reg, s, c);
    CompiledBindings(a, plan, i, c.dstPort);
    ConnectionIsBound(a, plan, i, c);
  }

  lemma BindingIsConnection(reg: Registry, s: Snapshot, a: Analyzed, plan: Plan, i: nat, p: Name)
    requires UniqueIds(s) && forall d :: d in s.connections ==> Wired(GraphOf(reg, s).contracts, d)
    requires a.graph == GraphOf(reg, s) && Ready(a) && IsPlanOf(a, plan) && i < |plan.nodes|
    requires p in plan.nodes[i].bindings
    ensures HasConnection(s, plan.nodes[i], p)
  {
    CompiledBindings(a, plan, i, p);
    var c := Driver(a.graph.conns, a.order[i], p);
    ConnectionIsBound(a, plan, i, c);
    ValidKeepsConnections(reg, s, c);
  }

  lemma PlanCovers(reg: Registry, s: Snapshot, a: Analyzed, plan: Plan)
    requires UniqueIds(s) && forall d :: d in s.connections ==> Wired(GraphOf(reg, s).contracts, d)
    requires a.graph == GraphOf(reg, s) && a.graph.nodes.Keys == NodeIds(s) && Ready(a) && IsPlanOf(a, plan)
    ensures Covers(reg, s, plan)
  {
    PlanDemandSound(a, plan);
    forall i | 0 <= i < |plan.nodes| ensures IsInstance(reg, s, plan.nodes[i]) {
      NodeIsInstantiated(reg, s, a, plan, i);
    }
    forall i, p, c | 0 <= i < |plan.nodes| && c in s.connections && c.dst == plan.nodes[i].id && c.dstPort == p
      ensures Binds(plan.nodes[i], p, c)
    {
      ConnectionIsInPlan(reg, s, a, plan, i, c);
    }
    forall i, p | 0 <= i < |plan.nodes| && p in plan.nodes[i].bindings ensures HasConnection(s, plan.nodes[i], p) {
      BindingIsConnection(reg, s, a, plan, i, p);
    }
  }
}
