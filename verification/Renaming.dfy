/** Validity does not depend on which node and connection ids a graph uses, nor on the order it lists them. */
module Renaming {
  import opened Common
  import opened NodeContracts
  import opened Reach
  import opened TypeGroups
  import opened GraphModel
  import opened TypeInference
  import opened Ordering
  import opened Clocks
  import opened Validation
  import opened Analysis

  /** New names for node and connection ids, with the way back. */
  datatype Naming = Naming(node: Id -> Id, back: Id -> Id, conn: Id -> Id, connBack: Id -> Id) {

    function Inverse(): Naming { Naming(back, node, connBack, conn) }

    function OnConnection(c: Connection): Connection {
      Connection(conn(c.id), node(c.src), c.srcPort, node(c.dst), c.dstPort)
    }

    function OnPort(k: PortKey): PortKey { PortKey(node(k.node), k.port, k.isOutput) }

    function OnVar(v: VarKey): VarKey { VarKey(node(v.node), v.name) }
  }

  /** `m` carries `g` into `h`: same contracts, values and connections under the new names. */
  ghost predicate Carries(m: Naming, g: Graph, h: Graph) {
    && g.contracts.Keys == g.values.Keys && h.contracts.Keys == h.values.Keys
    && (forall n :: n in g.contracts ==>
          && m.node(n) in h.contracts && m.back(m.node(n)) == n
          && h.contracts[m.node(n)] == g.contracts[n] && h.values[m.node(n)] == g.values[n])
    && (forall c :: c in g.conns ==> m.OnConnection(c) in h.conns && m.Inverse().OnConnection(m.OnConnection(c)) == c)
  }

  ghost predicate Isomorphic(m: Naming, g: Graph, h: Graph) {
    && WellFormedGraph(g) && WellFormedGraph(h)
    && Carries(m, g, h) && Carries(m.Inverse(), h, g)
  }

  lemma IsomorphicInverse(m: Naming, g: Graph, h: Graph)
    requires Isomorphic(m, g, h)
    ensures Isomorphic(m.Inverse(), h, g)
  {
    assert m.Inverse().Inverse() == m;
  }

  /* ---- reachability ---- */

  lemma {:induction false} WalkRenamed<T(!new)>(e: Relation<T>, f: Relation<T>, rho: T -> T, a: T, b: T, k: nat)
    requires forall x, y :: (x, y) in e ==> (rho(x), rho(y)) in f
    requires ReachIn(e, a, b, k)
    ensures ReachIn(f, rho(a), rho(b), k)
  {
    if k == 0 {
    } else {
      var x :| (a, x) in e && ReachIn(e, x, b, k - 1);
      WalkRenamed(e, f, rho, x, b, k - 1);
      assert (rho(a), rho(x)) in f;
    }
  }

  lemma EdgesRenamed(m: Naming, g: Graph, h: Graph, a: Id, b: Id)
    requires Carries(m, g, h) && (a, b) in EdgesOf(g.conns)
    ensures (m.node(a), m.node(b)) in EdgesOf(h.conns)
  {
    var c :| c in g.conns && (c.src, c.dst) == (a, b);
    assert m.OnConnection(c) in h.conns;
  }

  lemma AcyclicRenamed(m: Naming, g: Graph, h: Graph)
    requires Carries(m, g, h) && Acyclic(EdgesOf(h.conns))
    ensures Acyclic(EdgesOf(g.conns))
  {
    forall x, y | (x, y) in EdgesOf(g.conns) ensures (m.node(x), m.node(y)) in EdgesOf(h.conns) {
      EdgesRenamed(m, g, h, x, y);
    }
    forall a ensures !OnCycle(EdgesOf(g.conns), a) {
      if OnCycle(EdgesOf(g.conns), a) {
        var k: nat :| k > 0 && ReachIn(EdgesOf(g.conns), a, a, k);
        WalkRenamed(EdgesOf(g.conns), EdgesOf(h.conns), m.node, a, a, k);
        assert OnCycle(EdgesOf(h.conns), m.node(a));
      }
    }
  }

  lemma FeedsRenamed(m: Naming, g: Graph, h: Graph, s: Id, n: Id)
    requires WellFormedGraph(g) && Carries(m, g, h) && Feeds(g, s, n)
    ensures Feeds(h, m.node(s), m.node(n))
  {
    var e, f := FeedEdges(g), FeedEdges(h);
    forall x, y | (x, y) in e ensures (m.node(x), m.node(y)) in f {
      EdgesRenamed(m, g, h, x, y);
      var c :| c in g.conns && (c.src, c.dst) == (x, y);
      assert y in g.contracts;
    }
    var k: nat :| k > 0 && ReachIn(e, s, n, k);
    WalkRenamed(e, f, m.node, s, n, k);
  }

  lemma ClocksRenamed(m: Naming, g: Graph, h: Graph)
    requires WellFormedGraph(g) && Carries(m, g, h) && !SomeFedTwice(h, h.contracts.Keys)
    ensures !SomeFedTwice(g, g.contracts.Keys)
  {
    forall n, s, t | n in g.contracts && !IsSource(g, n) && Feeds(g, s, n) && Feeds(g, t, n) ensures s == t {
      FeedsRenamed(m, g, h, s, n);
      FeedsRenamed(m, g, h, t, n);
      assert !FedTwice(h, m.node(n));
      assert m.back(m.node(s)) == s && m.back(m.node(t)) == t;
    }
  }

  /* ---- sockets ---- */

  lemma ConnectedRenamed(m: Naming, g: Graph, h: Graph, n: Id)
    requires Isomorphic(m, g, h) && n in g.contracts
    ensures ConnectedPorts(h.conns, m.node(n)) == ConnectedPorts(g.conns, n)
  {
    forall p | p in ConnectedPorts(g.conns, n) ensures p in ConnectedPorts(h.conns, m.node(n)) {
      var c :| c in g.conns && c.dst == n && c.dstPort == p;
      assert m.OnConnection(c) in h.conns;
    }
    forall p | p in ConnectedPorts(h.conns, m.node(n)) ensures p in ConnectedPorts(g.conns, n) {
      var d :| d in h.conns && d.dst == m.node(n) && d.dstPort == p;
      assert m.Inverse().OnConnection(d) in g.conns;
    }
  }

  lemma SuppliedRenamed(m: Naming, g: Graph, h: Graph)
    requires Isomorphic(m, g, h) && InputsSupplied(h)
    ensures InputsSupplied(g)
  {
    forall n, p ensures !Missing(g, n, p) {
      if n in g.contracts {
        ConnectedRenamed(m, g, h, n);
        assert !Missing(h, m.node(n), p);
        var c := g.contracts[n];
        if c.variadic.Some? {
          assert ConnectedMembers(g, c.variadic.value, n) == ConnectedMembers(h, c.variadic.value, m.node(n));
        }
      }
    }
  }

  lemma SingleDriverRenamed(m: Naming, g: Graph, h: Graph)
    requires Carries(m, g, h) && SingleDriver(h)
    ensures SingleDriver(g)
  {
    forall c, d | c in g.conns && d in g.conns && c.dst == d.dst && c.dstPort == d.dstPort ensures c == d {
      assert m.OnConnection(c) == m.OnConnection(d);
      assert m.Inverse().OnConnection(m.OnConnection(c)) == c;
    }
  }

  /* ---- types ---- */

  /** Every fact of `f` holds of `g` under the new names. */
  ghost predicate FactsCarried(f: Facts, g: Facts, rho: VarKey -> VarKey) {
    && (forall x, y :: (x, y) in f.links ==> (rho(x), rho(y)) in g.links)
    && (forall b :: b in f.bounds ==> (rho(b.0), b.1) in g.bounds)
    && (forall d :: d in f.defaults ==> (rho(d.0), d.1) in g.defaults)
    && (forall v :: v in f.votes ==> (rho(v.0), v.1) in g.votes)
  }

  lemma LinkedRenamed(f: Facts, g: Facts, rho: VarKey -> VarKey, a: VarKey, b: VarKey)
    requires FactsCarried(f, g, rho) && Linked(f.links, a, b)
    ensures Linked(g.links, rho(a), rho(b))
  {
    var n: nat :| ReachIn(Symmetric(f.links), a, b, n);
    WalkRenamed(Symmetric(f.links), Symmetric(g.links), rho, a, b, n);
  }

  lemma SummariesCarried(f: Facts, g: Facts, rho: VarKey -> VarKey, v: VarKey)
    requires FactsCarried(f, g, rho)
    ensures Candidates(f, v) <= Candidates(g, rho(v)) && Defaults(f, v) <= Defaults(g, rho(v))
    ensures Allowed(f, v).Some? ==> Allowed(g, rho(v)).Some?
    ensures AdmittedBy(g, rho(v)) <= AdmittedBy(f, v)
  {
    forall w | Linked(f.links, v, w) ensures Linked(g.links, rho(v), rho(w)) { LinkedRenamed(f, g, rho, v, w); }
    forall t | t in Candidates(f, v) ensures t in Candidates(g, rho(v)) {
      var p :| p in f.votes && Linked(f.links, v, p.0) && p.1 == t;
      assert (rho(p.0), p.1) in g.votes;
    }
    forall t | t in Defaults(f, v) ensures t in Defaults(g, rho(v)) {
      var p :| p in f.defaults && Linked(f.links, v, p.0) && p.1 == t;
      assert (rho(p.0), p.1) in g.defaults;
    }
    if b :| BoundsType(f, v, b) { assert BoundsType(g, rho(v), (rho(b.0), b.1)); }
    forall t | Admits(g, rho(v), t) ensures Admits(f, v, t) {
      forall b | BoundsType(f, v, b) ensures t in b.1 { assert BoundsType(g, rho(v), (rho(b.0), b.1)); }
    }
  }

  /** Meaning is invariant under a renaming of variables that can be undone. */
  lemma MeaningRenamed(f: Facts, g: Facts, rho: VarKey -> VarKey, back: VarKey -> VarKey, v: VarKey)
    requires FactsCarried(f, g, rho) && FactsCarried(g, f, back) && back(rho(v)) == v
    ensures Meaning(f, v) == Meaning(g, rho(v))
  {
    SummariesCarried(f, g, rho, v);
    SummariesCarried(g, f, back, rho(v));
    assert Candidates(f, v) == Candidates(g, rho(v)) && Defaults(f, v) == Defaults(g, rho(v));
    assert AdmittedBy(f, v) == AdmittedBy(g, rho(v));
  }

  /** The expression tables correspond. */
  ghost predicate TableCarried(m: Naming, t: ExprTable, u: ExprTable) {
    forall k :: k in t ==> m.OnPort(k) in u && u[m.OnPort(k)] == t[k] && m.Inverse().OnPort(m.OnPort(k)) == k
  }

  lemma PortsRenamed(m: Naming, g: Graph, h: Graph, k: PortKey)
    requires Isomorphic(m, g, h) && IsPort(g, k)
    ensures IsPort(h, m.OnPort(k)) && m.Inverse().OnPort(m.OnPort(k)) == k && ExprOf(h, m.OnPort(k)) == ExprOf(g, k)
    ensures IsChecked(g, k) ==> IsChecked(h, m.OnPort(k))
  {
    ConnectedRenamed(m, g, h, k.node);
    assert Sockets(h, m.node(k.node), true) == Sockets(g, k.node, true);
    assert Sockets(h, m.node(k.node), false) == Sockets(g, k.node, false);
  }

  lemma TablesRenamed(m: Naming, g: Graph, h: Graph)
    requires Isomorphic(m, g, h)
    ensures TableCarried(m, Expressions(g), Expressions(h))
  {
    forall k | k in Expressions(g)
      ensures m.OnPort(k) in Expressions(h) && Expressions(h)[m.OnPort(k)] == Expressions(g)[k]
              && m.Inverse().OnPort(m.OnPort(k)) == k
    {
      PortsRenamed(m, g, h, k);
    }
  }

  lemma DeclarationsRenamed(m: Naming, t: ExprTable, u: ExprTable)
    requires TableCarried(m, t, u)
    ensures forall b :: b in DeclaredBounds(t) ==> (m.OnVar(b.0), b.1) in DeclaredBounds(u)
    ensures forall d :: d in DeclaredDefaults(t) ==> (m.OnVar(d.0), d.1) in DeclaredDefaults(u)
  {
    forall b | b in DeclaredBounds(t) ensures (m.OnVar(b.0), b.1) in DeclaredBounds(u) {
      var k :| k in t && !t[k].Concrete? && t[k].allowed != {} && b == (VarOf(k, t[k]), t[k].allowed);
      assert u[m.OnPort(k)] == t[k];
    }
    forall d | d in DeclaredDefaults(t) ensures (m.OnVar(d.0), d.1) in DeclaredDefaults(u) {
      var k :| k in t && !t[k].Concrete? && DefaultOf(t[k]).Some? && d == (VarOf(k, t[k]), DefaultOf(t[k]).value);
      assert u[m.OnPort(k)] == t[k];
    }
  }

  lemma ConnectionFactsRenamed(m: Naming, t: ExprTable, u: ExprTable, c: Connection)
    requires TableCarried(m, t, u)
    ensures IsLink(t, c) ==>
              && IsLink(u, m.OnConnection(c))
              && LinkOf(u, m.OnConnection(c)) == (m.OnVar(LinkOf(t, c).0), m.OnVar(LinkOf(t, c).1))
    ensures IsVote(t, c) ==>
              && IsVote(u, m.OnConnection(c))
              && VoteOf(u, m.OnConnection(c)) == (m.OnVar(VoteOf(t, c).0), VoteOf(t, c).1)
  {
    assert SourceKey(m.OnConnection(c)) == m.OnPort(SourceKey(c))
           && TargetKey(m.OnConnection(c)) == m.OnPort(TargetKey(c));
  }

  lemma FactsRenamed(m: Naming, t: ExprTable, u: ExprTable, conns: set<Connection>, renamed: set<Connection>)
    requires TableCarried(m, t, u) && forall c :: c in conns ==> m.OnConnection(c) in renamed
    ensures FactsCarried(FactsOf(t, conns), FactsOf(u, renamed), v => m.OnVar(v))
  {
    var f, g := FactsOf(t, conns), FactsOf(u, renamed);
    DeclarationsRenamed(m, t, u);
    forall x, y | (x, y) in f.links ensures (m.OnVar(x), m.OnVar(y)) in g.links {
      var c :| c in conns && IsLink(t, c) && LinkOf(t, c) == (x, y);
      ConnectionFactsRenamed(m, t, u, c);
      assert m.OnConnection(c) in renamed;
    }
    forall v | v in f.votes ensures (m.OnVar(v.0), v.1) in g.votes {
      var c :| c in conns && IsVote(t, c) && VoteOf(t, c) == v;
      ConnectionFactsRenamed(m, t, u, c);
      assert m.OnConnection(c) in renamed;
    }
  }

  lemma TypeRenamed(m: Naming, t: ExprTable, u: ExprTable, conns: set<Connection>, renamed: set<Connection>, k: PortKey)
    requires TableCarried(m, t, u) && TableCarried(m.Inverse(), u, t)
    requires forall c :: c in conns ==> m.OnConnection(c) in renamed
    requires forall d :: d in renamed ==> m.Inverse().OnConnection(d) in conns
    requires k in t
    ensures TypeIn(t, FactsOf(t, conns), k) == TypeIn(u, FactsOf(u, renamed), m.OnPort(k))
  {
    var f, g := FactsOf(t, conns), FactsOf(u, renamed);
    FactsRenamed(m, t, u, conns, renamed);
    FactsRenamed(m.Inverse(), u, t, renamed, conns);
    assert m.Inverse().OnPort(m.OnPort(k)) == k;
    assert k in t && m.OnPort(k) in u && u[m.OnPort(k)] == t[k];
    TypeCarried(m, t, u, f, g, k);
  }

  lemma TypeCarried(m: Naming, t: ExprTable, u: ExprTable, f: Facts, g: Facts, k: PortKey)
    requires k in t && m.OnPort(k) in u && u[m.OnPort(k)] == t[k] && m.Inverse().OnPort(m.OnPort(k)) == k
    requires FactsCarried(f, g, v => m.OnVar(v)) && FactsCarried(g, f, v => m.Inverse().OnVar(v))
    ensures TypeIn(t, f, k) == TypeIn(u, g, m.OnPort(k))
  {
    if !t[k].Concrete? {
      var v := VarOf(k, t[k]);
      assert VarOf(m.OnPort(k), u[m.OnPort(k)]) == m.OnVar(v);
      MeaningRenamed(f, g, v => m.OnVar(v), v => m.Inverse().OnVar(v), v);
    }
  }

  lemma WellTypedRenamed(m: Naming, g: Graph, h: Graph)
    requires Isomorphic(m, g, h) && WellTyped(Expressions(h), h.conns, CheckedPorts(h))
    ensures WellTyped(Expressions(g), g.conns, CheckedPorts(g))
  {
    var t, u := Expressions(g), Expressions(h);
    TablesRenamed(m, g, h);
    IsomorphicInverse(m, g, h);
    TablesRenamed(m.Inverse(), h, g);
    forall k | k in t ensures TypeIn(t, FactsOf(t, g.conns), k) == TypeIn(u, FactsOf(u, h.conns), m.OnPort(k)) {
      TypeRenamed(m, t, u, g.conns, h.conns, k);
    }
    forall k | k in CheckedPorts(g) && k in t ensures TypeIn(t, FactsOf(t, g.conns), k).Some? {
      PortsRenamed(m, g, h, k);
      assert m.OnPort(k) in CheckedPorts(h) && m.OnPort(k) in u;
    }
    forall c | c in g.conns ensures !Misfit(t, FactsOf(t, g.conns), c) {
      var d := m.OnConnection(c);
      assert d in h.conns && !Misfit(u, FactsOf(u, h.conns), d);
      assert SourceKey(d) == m.OnPort(SourceKey(c)) && TargetKey(d) == m.OnPort(TargetKey(c));
    }
  }

  lemma GraphValidPulledBack(m: Naming, g: Graph, h: Graph)
    requires Isomorphic(m, g, h) && GraphValid(h)
    ensures GraphValid(g)
  {
    SingleDriverRenamed(m, g, h);
    WellTypedRenamed(m, g, h);
    AcyclicRenamed(m, g, h);
    SuppliedRenamed(m, g, h);
    ClocksRenamed(m, g, h);
  }

  /** A graph and its renaming are valid together. */
  lemma GraphValidRenamed(m: Naming, g: Graph, h: Graph)
    requires Isomorphic(m, g, h)
    ensures GraphValid(g) <==> GraphValid(h)
  {
    IsomorphicInverse(m, g, h);
    if GraphValid(h) { GraphValidPulledBack(m, g, h); }
    if GraphValid(g) { GraphValidPulledBack(m.Inverse(), h, g); }
  }

  /* ---- snapshots ---- */

  function OnNode(m: Naming, n: Node): Node { n.(id := m.node(n.id)) }

  /** `t` lists the nodes and connections of `s` under the new names, in any order. */
  ghost predicate ListsRenamed(m: Naming, s: Snapshot, t: Snapshot) {
    && (forall n {:trigger OnNode(m, n)} :: n in s.nodes ==> OnNode(m, n) in t.nodes && m.back(m.node(n.id)) == n.id)
    && (forall c {:trigger m.OnConnection(c)} :: c in s.connections ==>
          m.OnConnection(c) in t.connections && m.Inverse().OnConnection(m.OnConnection(c)) == c)
  }

  ghost predicate Renames(m: Naming, s: Snapshot, t: Snapshot) {
    && UniqueIds(s) && UniqueIds(t)
    && ListsRenamed(m, s, t) && ListsRenamed(m.Inverse(), t, s)
  }

  lemma ContractsRenamed(reg: Registry, m: Naming, s: Snapshot, t: Snapshot, n: Id)
    requires Renames(m, s, t) && n in GraphOf(reg, s).contracts
    ensures var g, h := GraphOf(reg, s), GraphOf(reg, t);
            && m.node(n) in h.contracts && m.back(m.node(n)) == n
            && h.contracts[m.node(n)] == g.contracts[n] && h.values[m.node(n)] == g.values[n]
  {
    var node := FirstNodes(s.nodes)[n];
    assert node in s.nodes && node.id == n;
    assert OnNode(m, node) in t.nodes;
    FirstIsOnly(t.nodes, OnNode(m, node));
  }

  lemma WiringRenamed(m: Naming, s: Snapshot, t: Snapshot, before: map<Id, Contract>, after: map<Id, Contract>,
                      c: Connection)
    requires Renames(m, s, t) && c in Accepted(before, s.connections)
    requires forall n :: n in before ==> m.node(n) in after && after[m.node(n)] == before[n]
    ensures m.OnConnection(c) in Accepted(after, t.connections) && m.Inverse().OnConnection(m.OnConnection(c)) == c
  {
    var d := m.OnConnection(c);
    assert c in s.connections && Wired(before, c);
    FirstConnectionIsOnly(t.connections, d);
    assert FirstConnections(t.connections)[d.id] == d && Wired(after, d);
  }

  lemma RenamedGraphs(reg: Registry, m: Naming, s: Snapshot, t: Snapshot)
    requires Renames(m, s, t)
    ensures Carries(m, GraphOf(reg, s), GraphOf(reg, t))
  {
    var g, h := GraphOf(reg, s), GraphOf(reg, t);
    forall n | n in g.contracts
      ensures && m.node(n) in h.contracts && m.back(m.node(n)) == n
              && h.contracts[m.node(n)] == g.contracts[n] && h.values[m.node(n)] == g.values[n]
    {
      ContractsRenamed(reg, m, s, t, n);
    }
    forall c | c in g.conns ensures m.OnConnection(c) in h.conns && m.Inverse().OnConnection(m.OnConnection(c)) == c {
      WiringRenamed(m, s, t, g.contracts, h.contracts, c);
    }
  }

  lemma RenamesInverse(m: Naming, s: Snapshot, t: Snapshot)
    requires Renames(m, s, t)
    ensures Renames(m.Inverse(), t, s)
  {
    assert m.Inverse().Inverse() == m;
  }

  lemma StructureRenamed(reg: Registry, m: Naming, s: Snapshot, t: Snapshot)
    requires Renames(m, s, t)
    requires forall n :: n in s.nodes ==> NodeAccepted(reg, n)
    requires forall c :: c in s.connections ==> Wired(GraphOf(reg, s).contracts, c)
    ensures forall n :: n in t.nodes ==> NodeAccepted(reg, n)
    ensures forall d :: d in t.connections ==> Wired(GraphOf(reg, t).contracts, d)
  {
    var back := m.Inverse();
    forall n | n in t.nodes ensures NodeAccepted(reg, n) { assert NodeAccepted(reg, OnNode(back, n)); }
    forall d | d in t.connections ensures Wired(GraphOf(reg, t).contracts, d) {
      var c := back.OnConnection(d);
      assert c in s.connections && m.OnConnection(c) == d;
      ContractsRenamed(reg, m, s, t, c.src);
      ContractsRenamed(reg, m, s, t, c.dst);
    }
  }

  lemma ValidPushedForward(reg: Registry, m: Naming, s: Snapshot, t: Snapshot)
    requires WellFormedRegistry(reg) && Renames(m, s, t) && Valid(reg, s)
    ensures Valid(reg, t)
  {
    GraphOfIsWellFormed(reg, s);
    GraphOfIsWellFormed(reg, t);
    StructureRenamed(reg, m, s, t);
    RenamedGraphs(reg, m, s, t);
    RenamesInverse(m, s, t);
    RenamedGraphs(reg, m.Inverse(), t, s);
    GraphValidRenamed(m, GraphOf(reg, s), GraphOf(reg, t));
  }

  /** Validity is invariant under injective renaming of node and connection ids and under reordering. */
  lemma ValidRenamed(reg: Registry, m: Naming, s: Snapshot, t: Snapshot)
    requires WellFormedRegistry(reg) && Renames(m, s, t)
    ensures Valid(reg, s) <==> Valid(reg, t)
  {
    RenamesInverse(m, s, t);
    if Valid(reg, s) { ValidPushedForward(reg, m, s, t); }
    if Valid(reg, t) { ValidPushedForward(reg, m.Inverse(), t, s); }
  }
}
