/** When the spare socket of a full variadic family has a type. Reduction drops a node for any port without one, so
    this decides whether a valid snapshot can lose a node. */
module SpareSockets {
  import opened Common
  import opened PortNames
  import opened NodeContracts
  import opened Reach
  import opened TypeGroups
  import opened GraphModel
  import opened TypeInference
  import opened Ordering
  import opened Validation
  import opened Analysis

  /** The family's sockets all have the declared type: no resolver looks at the socket's name. */
  predicate PlainFamily(c: Contract) { c.variadic.None? || c.typeResolver.None? }

  /** A condition on the registered definitions alone. */
  ghost predicate PlainFamilies(reg: Registry) {
    forall t {:trigger PlainFamily(reg[t])} :: t in reg ==> PlainFamily(reg[t])
  }

  lemma FamilyMember(c: Contract, p: Name)
    requires WellFormed(c) && InFamily(c, p)
    ensures HasInput(c, p) && p !in Ids(c.inputs) && p !in ParameterSockets(c)
    ensures PlainFamily(c) ==> forall v :: PortTypeOf(c, p, false, v) == c.variadic.value.valueType
  {
  }

  lemma SpareIsMember(c: Contract, connected: set<Name>, p: Name)
    requires WellFormed(c) && p in InputPorts(c, connected, true) && p !in InputPorts(c, connected, false)
    ensures InFamily(c, p)
    ensures var first := MemberName(c.variadic.value.prefix, 1);
            InFamily(c, first) && first in InputPorts(c, connected, false) && first in InputPorts(c, connected, true)
  {
    var f := c.variadic.value;
    ListedInputsExist(c, connected, true, p);
    IndexOfMember(f.prefix, 1);
    assert 1 in MemberIndexes(f, connected, false) && 1 in MemberIndexes(f, connected, true);
  }

  /** A spare socket of a plain family has the type of the family's first socket, which is always checked. */
  lemma SpareIsLikeFirst(g: Graph, k: PortKey)
    requires WellFormedGraph(g) && IsPort(g, k) && !IsChecked(g, k) && PlainFamily(g.contracts[k.node])
    ensures g.contracts[k.node].variadic.Some?
    ensures var first := PortKey(k.node, MemberName(g.contracts[k.node].variadic.value.prefix, 1), false);
            IsChecked(g, first) && ExprOf(g, first) == ExprOf(g, k)
  {
    var c := g.contracts[k.node];
    assert WellFormed(c);
    SpareIsMember(c, ConnectedPorts(g.conns, k.node), k.port);
    FamilyMember(c, k.port);
    FamilyMember(c, MemberName(c.variadic.value.prefix, 1));
  }

  lemma CheckedPortSettles(g: Graph, k: PortKey)
    requires WellFormedGraph(g) && IsChecked(g, k) && WellTyped(Expressions(g), g.conns, CheckedPorts(g))
    ensures TypeOf(g, k).Some?
  {
    assert k in CheckedPorts(g) && k in Expressions(g);
  }

  lemma SameExpressionSameType(t: ExprTable, f: Facts, k: PortKey, l: PortKey)
    requires k in t && l in t && k.node == l.node && t[k] == t[l]
    ensures TypeIn(t, f, k) == TypeIn(t, f, l)
  {
  }

  lemma PlainPortSettles(g: Graph, k: PortKey)
    requires WellFormedGraph(g) && IsPort(g, k) && PlainFamily(g.contracts[k.node])
    requires WellTyped(Expressions(g), g.conns, CheckedPorts(g))
    ensures TypeOf(g, k).Some?
  {
    if IsChecked(g, k) {
      CheckedPortSettles(g, k);
    } else {
      SpareIsLikeFirst(g, k);
      var first := PortKey(k.node, MemberName(g.contracts[k.node].variadic.value.prefix, 1), false);
      CheckedPortSettles(g, first);
      SameExpressionSameType(Expressions(g), FactsOf(Expressions(g), g.conns), k, first);
    }
  }

  /** Where no definition has both a family and a resolver, valid means settled at every port. */
  lemma ValidMeansEveryPortSettled(reg: Registry, s: Snapshot)
    requires WellFormedRegistry(reg) && PlainFamilies(reg) && Valid(reg, s)
    ensures EveryPortSettled(reg, s)
  {
    GraphOfIsWellFormed(reg, s);
    var g := GraphOf(reg, s);
    forall k | IsPort(g, k) ensures TypeOf(g, k).Some? {
      assert g.contracts[k.node] == reg[g.nodes[k.node].typeId];
      assert PlainFamily(reg[g.nodes[k.node].typeId]);
      PlainPortSettles(g, k);
    }
  }

  /* ---- a definition with both a family and a resolver ---- */

  const FEED: Contract :=
    Contract(1, Stateless, Auto, [], None, [PortSpec("out", Concrete(Float), false)], [],
             v => Evaluation(map[], []), None, None)

  /** Its resolver knows the first socket's type and leaves the later ones to what is connected. */
  const MIX: Contract :=
    Contract(1, Stateless, Auto, [], Some(Family("in", Concrete(Float), 1)), [], [], v => Evaluation(map[], []),
             Some((p, out, v) => MixType(p)), None)

  function MixType(p: Name): TypeExpr { if p == "in_1" then Concrete(Float) else Variable("T", {}, None) }

  const RESOLVED: Registry := map["feed" := FEED, "mix" := MIX]

  const WIRE: Connection := Connection(3, 1, "out", 2, "in_1")

  const MIXED: Snapshot := Snapshot(0, 0, [Node(1, "feed", 1, map[]), Node(2, "mix", 1, map[])], [WIRE])

  lemma FirstSocket()
    ensures MemberName("in", 1) == "in_1" && MemberIndex("in", "in_1") == Some(1)
  {
    assert Decimal(1) == [DigitChar(1)] && DigitChar(1) == '1';
    assert MemberName("in", 1) == "in_1";
    IndexOfMember("in", 1);
  }

  ghost predicate IsFeed(c: Contract) {
    && WellFormed(c) && c.kind == Stateless && c.typeResolver.None? && c.requiredResolver.None?
    && c.inputs == [] && c.variadic.None? && c.outputs == [PortSpec("out", Concrete(Float), false)]
       && c.parameters == []
  }

  ghost predicate IsMix(c: Contract) {
    && WellFormed(c) && c.kind == Stateless && c.typeResolver.Some? && c.requiredResolver.None?
    && c.inputs == [] && c.variadic == Some(Family("in", Concrete(Float), 1)) && c.outputs == [] && c.parameters == []
    && (forall p, out, v :: c.typeResolver.value(p, out, v) == MixType(p))
  }

  lemma FeedAndMix()
    ensures IsFeed(FEED) && IsMix(MIX)
  {
  }

  ghost predicate IsMixed(g: Graph) {
    && WellFormedGraph(g) && g.contracts.Keys == {1, 2} && IsFeed(g.contracts[1]) && IsMix(g.contracts[2])
    && g.conns == {WIRE}
  }

  /** A registry of the two definitions that accepts both nodes of the snapshot. */
  ghost predicate IsResolved(reg: Registry) {
    && reg.Keys == {"feed", "mix"} && IsFeed(reg["feed"]) && IsMix(reg["mix"])
    && forall n :: n in MIXED.nodes ==> NodeAccepted(reg, n)
  }

  lemma ResolvedRegistry()
    ensures IsResolved(RESOLVED)
  {
    FeedAndMix();
    forall n | n in MIXED.nodes ensures NodeAccepted(RESOLVED, n) {
      assert n == MIXED.nodes[0] || n == MIXED.nodes[1];
    }
  }

  lemma ResolvedIsWellFormed(reg: Registry)
    requires IsResolved(reg)
    ensures WellFormedRegistry(reg) && !PlainFamilies(reg)
  {
    assert !PlainFamily(reg["mix"]);
  }

  lemma MixedNodes()
    ensures FirstNodes(MIXED.nodes) == map[1 := MIXED.nodes[0], 2 := MIXED.nodes[1]]
    ensures MIXED.nodes[0].typeId == "feed" && MIXED.nodes[1].typeId == "mix"
  {
    var nodes := FirstNodes(MIXED.nodes);
    assert MIXED.nodes[0] in MIXED.nodes && MIXED.nodes[1] in MIXED.nodes;
    assert nodes.Keys == {1, 2};
  }

  lemma MixedGraph(reg: Registry)
    requires IsResolved(reg) && WellFormedRegistry(reg)
    ensures IsMixed(GraphOf(reg, MIXED))
  {
    FirstSocket();
    GraphOfIsWellFormed(reg, MIXED);
    MixedNodes();
    var contracts := ContractsOf(reg, FirstNodes(MIXED.nodes));
    assert contracts.Keys == {1, 2} && contracts[1] == reg["feed"] && contracts[2] == reg["mix"];
    MixedConnections(contracts);
  }

  lemma MixedConnections(contracts: map<Id, Contract>)
    requires contracts.Keys == {1, 2} && IsFeed(contracts[1]) && IsMix(contracts[2])
    ensures Accepted(contracts, MIXED.connections) == {WIRE} && Wired(contracts, WIRE)
  {
    FirstSocket();
    assert contracts[1].outputs[0].id == "out";
    assert WIRE in MIXED.connections;
    assert FirstConnections(MIXED.connections) == map[3 := WIRE];
  }

  /* ---- it is valid ---- */

  lemma MixedIsAcyclic(e: Edges, a: Id, n: nat)
    requires e == {(1, 2)} && n > 0
    ensures !ReachIn(e, a, a, n)
  {
    forall x, k: nat | k > 0 ensures !ReachIn(e, 2, x, k) { }
  }

  lemma MixedChecked(g: Graph, k: PortKey)
    requires IsMixed(g) && IsChecked(g, k)
    ensures ExprOf(g, k) == Concrete(Float)
  {
    FirstSocket();
    var c := g.contracts[k.node];
    assert WellFormed(c);
    if !k.isOutput {
      assert k.node == 2;
      MixedInput(ConnectedPorts(g.conns, 2), k.port, c);
    }
  }

  lemma MixedInput(connected: set<Name>, p: Name, c: Contract)
    requires IsMix(c) && connected <= {"in_1"} && p in InputPorts(c, connected, false)
    ensures p == "in_1"
  {
    FirstSocket();
    var i :| i in MemberIndexes(c.variadic.value, connected, false) && i > 0 && p == MemberName("in", i);
  }

  lemma MixedIsSupplied(g: Graph, n: Id, p: Name)
    requires IsMixed(g)
    ensures !Missing(g, n, p)
  {
    FirstSocket();
    if n == 2 {
      assert WIRE.dstPort in ConnectedPorts(g.conns, 2);
      assert "in_1" in ConnectedMembers(g, g.contracts[2].variadic.value, 2);
    }
  }

  lemma MixedIsValid(g: Graph)
    requires IsMixed(g)
    ensures GraphValid(g)
  {
    assert EdgesOf(g.conns) == {(1, 2)};
    forall a, n: nat | n > 0 ensures !ReachIn(EdgesOf(g.conns), a, a, n) { MixedIsAcyclic(EdgesOf(g.conns), a, n); }
    forall n, p ensures !Missing(g, n, p) { MixedIsSupplied(g, n, p); }
    MixedIsTyped(g);
  }

  lemma MixedIsTyped(g: Graph)
    requires IsMixed(g)
    ensures WellTyped(Expressions(g), g.conns, CheckedPorts(g))
  {
    var t := Expressions(g);
    forall k | k in CheckedPorts(g) && k in t ensures t[k] == Concrete(Float) { MixedChecked(g, k); }
    EndsAreChecked(g, WIRE);
    assert SourceKey(WIRE) in CheckedPorts(g) && TargetKey(WIRE) in CheckedPorts(g);
  }

  /* ---- its spare socket has no type ---- */

  lemma MixedSpare(g: Graph)
    requires IsMixed(g)
    ensures IsPort(g, PortKey(2, MemberName("in", 2), false))
    ensures ExprOf(g, PortKey(2, MemberName("in", 2), false)) == Variable("T", {}, None)
  {
    FirstSocket();
    IndexOfMember("in", 2);
    var c := g.contracts[2];
    assert WellFormed(c);
    assert ConnectedPorts(g.conns, 2) == {"in_1"};
    var used := set p | p in {"in_1"} && MemberIndex("in", p).Some? :: MemberIndex("in", p).value;
    assert used == {1} == FirstIndexes(1);
    assert 2 in MemberIndexes(c.variadic.value, {"in_1"}, true);
  }

  lemma MixedExpr(g: Graph, k: PortKey)
    requires IsMixed(g) && IsPort(g, k)
    ensures DefaultOf(ExprOf(g, k)).None?
  {
    assert WellFormed(g.contracts[k.node]);
    if k.isOutput { MixedChecked(g, k); }
  }

  lemma MixedDefaults(g: Graph)
    requires IsMixed(g)
    ensures FactsOf(Expressions(g), g.conns).defaults == {}
  {
    var t := Expressions(g);
    forall k | k in t && !t[k].Concrete? ensures DefaultOf(t[k]).None? { MixedExpr(g, k); }
  }

  lemma MixedVotes(g: Graph)
    requires IsMixed(g)
    ensures FactsOf(Expressions(g), g.conns).votes == {}
  {
    EndsAreChecked(g, WIRE);
    MixedChecked(g, SourceKey(WIRE));
    MixedChecked(g, TargetKey(WIRE));
  }

  lemma NoVoteNoType(t: ExprTable, f: Facts, k: PortKey)
    requires k in t && t[k].Variable? && f.votes == {} && f.defaults == {}
    ensures TypeIn(t, f, k).None?
  {
    assert Candidates(f, VarOf(k, t[k])) == {} && Defaults(f, VarOf(k, t[k])) == {};
  }

  lemma MixedSpareUnsettled(g: Graph)
    requires IsMixed(g)
    ensures IsPort(g, PortKey(2, MemberName("in", 2), false))
    ensures TypeOf(g, PortKey(2, MemberName("in", 2), false)).None?
  {
    MixedSpare(g);
    MixedDefaults(g);
    MixedVotes(g);
    NoVoteNoType(Expressions(g), FactsOf(Expressions(g), g.conns), PortKey(2, MemberName("in", 2), false));
  }

  lemma ValidFromGraph(reg: Registry, s: Snapshot, g: Graph)
    requires WellFormedRegistry(reg) && UniqueIds(s) && g == GraphOf(reg, s) && WellFormedGraph(g) && GraphValid(g)
    requires forall n :: n in s.nodes ==> NodeAccepted(reg, n)
    requires forall c :: c in s.connections ==> Wired(g.contracts, c)
    ensures Valid(reg, s)
  {
  }

  lemma MixedAccepted(reg: Registry, g: Graph)
    requires IsResolved(reg) && IsMixed(g)
    ensures UniqueIds(MIXED)
    ensures forall n :: n in MIXED.nodes ==> NodeAccepted(reg, n)
    ensures forall c :: c in MIXED.connections ==> Wired(g.contracts, c)
  {
    assert WIRE in g.conns;
    assert forall c :: c in MIXED.connections ==> c == WIRE;
  }

  lemma MixedSnapshotIsValid(reg: Registry)
    requires IsResolved(reg) && WellFormedRegistry(reg)
    ensures Valid(reg, MIXED)
  {
    MixedGraph(reg);
    MixedIsValid(GraphOf(reg, MIXED));
    MixedAccepted(reg, GraphOf(reg, MIXED));
    ValidFromGraph(reg, MIXED, GraphOf(reg, MIXED));
  }

  lemma UnsettledPort(reg: Registry, s: Snapshot, g: Graph, k: PortKey)
    requires WellFormedRegistry(reg) && g == GraphOf(reg, s) && WellFormedGraph(g) && IsPort(g, k) && TypeOf(g, k).None?
    ensures !EveryPortSettled(reg, s)
  {
  }

  lemma MixedIsUnsettled(reg: Registry)
    requires IsResolved(reg) && WellFormedRegistry(reg)
    ensures !EveryPortSettled(reg, MIXED)
  {
    MixedGraph(reg);
    MixedSpareUnsettled(GraphOf(reg, MIXED));
    UnsettledPort(reg, MIXED, GraphOf(reg, MIXED), PortKey(2, MemberName("in", 2), false));
  }

  /** A valid snapshot whose spare socket has no type: asked for a missing root, compilation drops node 2. */
  lemma ResolverLeavesSpareUnsettled()
    ensures WellFormedRegistry(RESOLVED) && !PlainFamilies(RESOLVED)
    ensures Valid(RESOLVED, MIXED) && !EveryPortSettled(RESOLVED, MIXED)
  {
    ResolvedRegistry();
    ResolvedIsWellFormed(RESOLVED);
    MixedSnapshotIsValid(RESOLVED);
    MixedIsUnsettled(RESOLVED);
  }
}
