/** What partial compilation must spare: a part of the snapshot that no connection joins to the rest is
    analyzed as if it stood alone, whatever is broken elsewhere. */
module Isolation {
  import opened Common
  import opened PortNames
  import opened NodeContracts
  import opened Reach
  import opened TypeGroups
  import opened GraphModel
  import opened TypeInference
  import opened Ordering
  import opened Clocks
  import opened Validation
  import opened Analysis

  /* ---- on graphs ---- */

  /** `h` is `g` on the nodes of `part`, and no connection of `g` leads into or out of the part. */
  ghost predicate Cut(g: Graph, h: Graph, part: set<Id>) {
    && (forall c :: c in g.conns ==> (c.src in part <==> c.dst in part))
    && (forall c :: c in h.conns <==> c in g.conns && c.src in part)
    && (forall n :: n in h.contracts <==> n in g.contracts && n in part)
    && h.values.Keys == h.contracts.Keys && g.values.Keys == g.contracts.Keys
    && (forall n :: n in h.contracts ==> h.contracts[n] == g.contracts[n] && h.values[n] == g.values[n])
  }

  lemma PortsCut(g: Graph, h: Graph, part: set<Id>, k: PortKey)
    requires Cut(g, h, part) && k.node in part
    ensures IsPort(g, k) <==> IsPort(h, k)
    ensures IsChecked(g, k) <==> IsChecked(h, k)
    ensures WellFormedGraph(g) && WellFormedGraph(h) && IsPort(g, k) ==> ExprOf(g, k) == ExprOf(h, k)
  {
    assert ConnectedPorts(g.conns, k.node) == ConnectedPorts(h.conns, k.node);
  }

  /* ---- types ---- */

  /** `f` is `g` on the variables of the part, and no link of `g` leads out of it. */
  ghost predicate FactsCut(f: Facts, g: Facts, part: set<Id>) {
    && (forall x, y :: (x, y) in g.links ==> (x.node in part <==> y.node in part))
    && (forall x, y :: (x, y) in f.links <==> (x, y) in g.links && x.node in part)
    && (forall b :: b in f.bounds <==> b in g.bounds && b.0.node in part)
    && (forall d :: d in f.defaults <==> d in g.defaults && d.0.node in part)
    && (forall v :: v in f.votes <==> v in g.votes && v.0.node in part)
  }

  lemma {:induction false} WalkStaysInside(f: Facts, g: Facts, part: set<Id>, a: VarKey, b: VarKey, k: nat)
    requires FactsCut(f, g, part) && a.node in part && ReachIn(Symmetric(g.links), a, b, k)
    ensures b.node in part && ReachIn(Symmetric(f.links), a, b, k)
    decreases k
  {
    if k == 0 {
    } else {
      var x :| (a, x) in Symmetric(g.links) && ReachIn(Symmetric(g.links), x, b, k - 1);
      assert (a, x) in Symmetric(f.links);
      WalkStaysInside(f, g, part, x, b, k - 1);
    }
  }

  lemma LinkedCut(f: Facts, g: Facts, part: set<Id>, a: VarKey, b: VarKey)
    requires FactsCut(f, g, part) && a.node in part
    ensures Linked(g.links, a, b) <==> Linked(f.links, a, b)
    ensures Linked(g.links, a, b) ==> b.node in part
  {
    if Linked(g.links, a, b) {
      var k: nat :| ReachIn(Symmetric(g.links), a, b, k);
      WalkStaysInside(f, g, part, a, b, k);
    }
    if Linked(f.links, a, b) {
      var k: nat :| ReachIn(Symmetric(f.links), a, b, k);
      Monotone(Symmetric(f.links), Symmetric(g.links), a, b, k);
    }
  }

  /** A variable of the part means the same in the part alone. */
  lemma MeaningCut(f: Facts, g: Facts, part: set<Id>, v: VarKey)
    requires FactsCut(f, g, part) && v.node in part
    ensures Meaning(f, v) == Meaning(g, v)
  {
    forall w ensures (Linked(g.links, v, w) <==> Linked(f.links, v, w)) && (Linked(g.links, v, w) ==> w.node in part) {
      LinkedCut(f, g, part, v, w);
    }
    assert Candidates(f, v) == Candidates(g, v);
    assert Defaults(f, v) == Defaults(g, v);
    forall b ensures BoundsType(f, v, b) <==> BoundsType(g, v, b) {
    }
    assert AdmittedBy(f, v) == AdmittedBy(g, v);
  }

  lemma ConnectionCut(t: ExprTable, u: ExprTable, part: set<Id>, c: Connection)
    requires c.src in part && c.dst in part
    requires forall k: PortKey :: k.node in part ==> (k in t <==> k in u) && (k in t ==> t[k] == u[k])
    ensures IsLink(t, c) <==> IsLink(u, c)
    ensures IsLink(t, c) ==> LinkOf(t, c) == LinkOf(u, c)
    ensures IsVote(t, c) <==> IsVote(u, c)
    ensures IsVote(t, c) ==> VoteOf(t, c) == VoteOf(u, c)
  {
    assert SourceKey(c).node in part && TargetKey(c).node in part;
  }

  /** Tables that agree on the part, one of them on the part only. */
  ghost predicate TableCut(t: ExprTable, u: ExprTable, part: set<Id>) {
    && (forall k :: k in t ==> k.node in part)
    && (forall k: PortKey {:trigger k in t} {:trigger k in u} :: k.node in part ==>
        (k in t <==> k in u) && (k in t ==> t[k] == u[k]))
  }

  lemma FactsOfCut(t: ExprTable, u: ExprTable, part: set<Id>, inside: set<Connection>, all: set<Connection>)
    requires TableCut(t, u, part)
    requires forall c :: c in all ==> (c.src in part <==> c.dst in part)
    requires forall c :: c in inside <==> c in all && c.src in part
    ensures FactsCut(FactsOf(t, inside), FactsOf(u, all), part)
  {
    LinksCut(t, u, part, inside, all);
    VotesCut(t, u, part, inside, all);
    DeclarationsCut(t, u, part);
  }

  lemma DeclarationsCut(t: ExprTable, u: ExprTable, part: set<Id>)
    requires TableCut(t, u, part)
    ensures forall b :: b in DeclaredBounds(t) <==> b in DeclaredBounds(u) && b.0.node in part
    ensures forall d :: d in DeclaredDefaults(t) <==> d in DeclaredDefaults(u) && d.0.node in part
  {
    forall b | b in DeclaredBounds(u) && b.0.node in part ensures b in DeclaredBounds(t) {
      var k :| k in u && !u[k].Concrete? && u[k].allowed != {} && b == (VarOf(k, u[k]), u[k].allowed);
      assert k in t;
    }
    forall d | d in DeclaredDefaults(u) && d.0.node in part ensures d in DeclaredDefaults(t) {
      var k :| k in u && !u[k].Concrete? && DefaultOf(u[k]).Some? && d == (VarOf(k, u[k]), DefaultOf(u[k]).value);
      assert k in t;
    }
  }

  lemma LinksCut(t: ExprTable, u: ExprTable, part: set<Id>, inside: set<Connection>, all: set<Connection>)
    requires TableCut(t, u, part)
    requires forall c :: c in all ==> (c.src in part <==> c.dst in part)
    requires forall c :: c in inside <==> c in all && c.src in part
    ensures forall x, y :: (x, y) in FactsOf(u, all).links ==> (x.node in part <==> y.node in part)
    ensures forall x, y :: (x, y) in FactsOf(t, inside).links <==> (x, y) in FactsOf(u, all).links && x.node in part
  {
    forall x, y | (x, y) in FactsOf(u, all).links
      ensures (x.node in part <==> y.node in part) && (x.node in part ==> (x, y) in FactsOf(t, inside).links)
    {
      var c :| c in all && IsLink(u, c) && LinkOf(u, c) == (x, y);
      if c.src in part {
        ConnectionCut(t, u, part, c);
      }
    }
    forall x, y | (x, y) in FactsOf(t, inside).links ensures (x, y) in FactsOf(u, all).links && x.node in part {
      var c :| c in inside && IsLink(t, c) && LinkOf(t, c) == (x, y);
      ConnectionCut(t, u, part, c);
    }
  }

  lemma VotesCut(t: ExprTable, u: ExprTable, part: set<Id>, inside: set<Connection>, all: set<Connection>)
    requires TableCut(t, u, part)
    requires forall c :: c in all ==> (c.src in part <==> c.dst in part)
    requires forall c :: c in inside <==> c in all && c.src in part
    ensures forall v :: v in FactsOf(t, inside).votes <==> v in FactsOf(u, all).votes && v.0.node in part
  {
    forall v | v in FactsOf(u, all).votes && v.0.node in part ensures v in FactsOf(t, inside).votes {
      var c :| c in all && IsVote(u, c) && VoteOf(u, c) == v;
      ConnectionCut(t, u, part, c);
    }
    forall v | v in FactsOf(t, inside).votes ensures v in FactsOf(u, all).votes && v.0.node in part {
      var c :| c in inside && IsVote(t, c) && VoteOf(t, c) == v;
      ConnectionCut(t, u, part, c);
    }
  }

  lemma TablesCut(g: Graph, h: Graph, part: set<Id>)
    requires WellFormedGraph(g) && WellFormedGraph(h) && Cut(g, h, part)
    ensures TableCut(Expressions(h), Expressions(g), part)
    ensures FactsCut(FactsOf(Expressions(h), h.conns), FactsOf(Expressions(g), g.conns), part)
  {
    forall k: PortKey | k.node in part
      ensures (IsPort(g, k) <==> IsPort(h, k)) && (IsPort(g, k) ==> ExprOf(g, k) == ExprOf(h, k))
    {
      PortsCut(g, h, part, k);
    }
    FactsOfCut(Expressions(h), Expressions(g), part, h.conns, g.conns);
  }

  /** A port of the part has the type it has in the part alone. */
  lemma TypeCut(g: Graph, h: Graph, part: set<Id>, k: PortKey)
    requires WellFormedGraph(g) && WellFormedGraph(h) && Cut(g, h, part) && k.node in part && IsPort(g, k)
    ensures IsPort(h, k) && TypeOf(h, k) == TypeOf(g, k)
  {
    PortsCut(g, h, part, k);
    TablesCut(g, h, part);
    TypeInCut(Expressions(h), Expressions(g), FactsOf(Expressions(h), h.conns), FactsOf(Expressions(g), g.conns), part,
              k);
  }

  lemma TypeInCut(t: ExprTable, u: ExprTable, f: Facts, g: Facts, part: set<Id>, k: PortKey)
    requires k in t && k in u && t[k] == u[k] && k.node in part && FactsCut(f, g, part)
    ensures TypeIn(t, f, k) == TypeIn(u, g, k)
  {
    if !t[k].Concrete? {
      MeaningCut(f, g, part, VarOf(k, t[k]));
    }
  }

  /* ---- cycles and clocks ---- */

  lemma {:induction false} WalkEndsInside(e: Edges, f: Edges, part: set<Id>, a: Id, b: Id, k: nat)
    requires forall p :: p in e ==> (p.0 in part <==> p.1 in part)
    requires forall p :: p in e && p.1 in part ==> p in f
    requires ReachIn(e, a, b, k) && b in part
    ensures a in part && ReachIn(f, a, b, k)
    decreases k
  {
    if k == 0 {
    } else {
      var x :| (a, x) in e && ReachIn(e, x, b, k - 1);
      WalkEndsInside(e, f, part, x, b, k - 1);
    }
  }

  lemma EdgesCut(g: Graph, h: Graph, part: set<Id>)
    requires Cut(g, h, part)
    ensures forall p :: p in EdgesOf(g.conns) ==> (p.0 in part <==> p.1 in part)
    ensures forall p :: p in EdgesOf(g.conns) && p.1 in part ==> p in EdgesOf(h.conns)
    ensures forall p :: p in FeedEdges(g) ==> (p.0 in part <==> p.1 in part)
    ensures forall p :: p in FeedEdges(g) && p.1 in part ==> p in FeedEdges(h)
  {
  }

  lemma TaintCut(g: Graph, h: Graph, part: set<Id>, n: Id)
    requires Cut(g, h, part) && n in part && Tainted(EdgesOf(g.conns), n)
    ensures !Acyclic(EdgesOf(h.conns))
  {
    var e, f := EdgesOf(g.conns), EdgesOf(h.conns);
    EdgesCut(g, h, part);
    var m :| OnCycle(e, m) && Reaches(e, m, n);
    var k: nat :| ReachIn(e, m, n, k);
    WalkEndsInside(e, f, part, m, n, k);
    var j: nat :| j > 0 && ReachIn(e, m, m, j);
    WalkEndsInside(e, f, part, m, m, j);
    assert OnCycle(f, m);
  }

  lemma FeedsCut(g: Graph, h: Graph, part: set<Id>, s: Id, n: Id)
    requires Cut(g, h, part) && n in part && Feeds(g, s, n)
    ensures Feeds(h, s, n)
  {
    EdgesCut(g, h, part);
    var k: nat :| k > 0 && ReachIn(FeedEdges(g), s, n, k);
    WalkEndsInside(FeedEdges(g), FeedEdges(h), part, s, n, k);
  }

  lemma FedTwiceCut(g: Graph, h: Graph, part: set<Id>, n: Id)
    requires Cut(g, h, part) && n in part && FedTwice(g, n)
    ensures FedTwice(h, n)
  {
    var s, t :| s != t && Feeds(g, s, n) && Feeds(g, t, n);
    FeedsCut(g, h, part, s, n);
    FeedsCut(g, h, part, t, n);
  }

  /* ---- no issue strays into a valid part ---- */

  lemma OverdrivenCut(g: Graph, h: Graph, part: set<Id>, n: Id, p: Name)
    requires Cut(g, h, part) && n in part && Overdriven(g.conns, n, p)
    ensures Overdriven(h.conns, n, p)
  {
    var c, d :| c in g.conns && d in g.conns && c != d && c.dst == d.dst == n && c.dstPort == d.dstPort == p;
    assert c in h.conns && d in h.conns;
  }

  lemma MissingCut(g: Graph, h: Graph, part: set<Id>, n: Id, p: Name)
    requires Cut(g, h, part) && n in part && Missing(g, n, p)
    ensures Missing(h, n, p)
  {
    assert ConnectedPorts(g.conns, n) == ConnectedPorts(h.conns, n);
  }

  lemma MisfitCut(g: Graph, h: Graph, part: set<Id>, c: Connection)
    requires WellFormedGraph(g) && WellFormedGraph(h) && Cut(g, h, part) && c in g.conns && c.src in part
    ensures c in h.conns
    ensures Misfit(Expressions(g), FactsOf(Expressions(g), g.conns), c) ==>
            Misfit(Expressions(h), FactsOf(Expressions(h), h.conns), c)
  {
    EndsAreChecked(g, c);
    TypeCut(g, h, part, SourceKey(c));
    TypeCut(g, h, part, TargetKey(c));
  }

  lemma UntypedCut(g: Graph, h: Graph, part: set<Id>, k: PortKey)
    requires WellFormedGraph(g) && WellFormedGraph(h) && Cut(g, h, part) && k.node in part && IsChecked(g, k)
    ensures k in CheckedPorts(h) && k in Expressions(h) && k in Expressions(g)
    ensures TypeIn(Expressions(h), FactsOf(Expressions(h), h.conns), k)
            == TypeIn(Expressions(g), FactsOf(Expressions(g), g.conns), k)
  {
    TypeCut(g, h, part, k);
    PortsCut(g, h, part, k);
  }

  ghost predicate OutsideIssue(g: Graph, part: set<Id>, x: Issue) {
    && NamesNode(x) && x.node !in part
    && (NamesConnection(x) ==> exists c :: c in g.conns && c.id == x.connection && c.src !in part)
  }

  lemma NoTypingIssueInside(g: Graph, h: Graph, part: set<Id>, x: Issue)
    requires WellFormedGraph(g) && WellFormedGraph(h) && Cut(g, h, part)
    ensures WellTyped(Expressions(h), h.conns, CheckedPorts(h)) && TypingIssue(g, x) ==> OutsideIssue(g, part, x)
  {
    var t := Expressions(g);
    var f := FactsOf(t, g.conns);
    if VariableIssue(t, f, CheckedPorts(g), x) {
      var k := VariableIssuePort(t, f, CheckedPorts(g), x);
      if k.node in part { UntypedCut(g, h, part, k); }
    } else if MisfitIssue(t, f, g.conns, x) {
      var c :| c in g.conns && Misfit(t, f, c) && x == IncompatiblePortTypes(c.dst, c.id, c.dstPort);
      if c.src in part { MisfitCut(g, h, part, c); }
    }
  }

  /** The faults of the whole graph at nodes of the part are faults of the part. */
  lemma FaultsCut(g: Graph, h: Graph, part: set<Id>)
    requires Cut(g, h, part)
    ensures forall n, p :: n in part && Overdriven(g.conns, n, p) ==> Overdriven(h.conns, n, p)
    ensures forall n, p :: n in part && Missing(g, n, p) ==> Missing(h, n, p)
    ensures forall n :: n in part && Tainted(EdgesOf(g.conns), n) ==> !Acyclic(EdgesOf(h.conns))
    ensures forall n :: n in part && FedTwice(g, n) ==> FedTwice(h, n)
  {
    forall n, p | n in part && Overdriven(g.conns, n, p) ensures Overdriven(h.conns, n, p) {
      OverdrivenCut(g, h, part, n, p);
    }
    forall n, p | n in part && Missing(g, n, p) ensures Missing(h, n, p) { MissingCut(g, h, part, n, p); }
    forall n | n in part && Tainted(EdgesOf(g.conns), n) ensures !Acyclic(EdgesOf(h.conns)) { TaintCut(g, h, part, n); }
    forall n | n in part && FedTwice(g, n) ensures FedTwice(h, n) { FedTwiceCut(g, h, part, n); }
  }

  lemma NoGraphIssueInside(g: Graph, h: Graph, part: set<Id>, x: Issue)
    requires WellFormedGraph(g) && WellFormedGraph(h) && Cut(g, h, part)
    ensures GraphValid(h) && GraphIssue(g, x) ==> OutsideIssue(g, part, x)
  {
    GraphIssueNamesNode(g, x);
    NoTypingIssueInside(g, h, part, x);
    FaultsCut(g, h, part);
  }

  /* ---- on snapshots ---- */

  function NodesIn(nodes: seq<Node>, part: set<Id>): (r: seq<Node>)
    ensures forall n :: n in r <==> n in nodes && n.id in part
  {
    if nodes == [] then [] else
      assert forall n :: n in nodes <==> n == nodes[0] || n in nodes[1..];
      (if nodes[0].id in part then [nodes[0]] else []) + NodesIn(nodes[1..], part)
  }

  function ConnectionsIn(cs: seq<Connection>, part: set<Id>): (r: seq<Connection>)
    ensures forall c :: c in r <==> c in cs && c.src in part
  {
    if cs == [] then [] else
      assert forall c :: c in cs <==> c == cs[0] || c in cs[1..];
      (if cs[0].src in part then [cs[0]] else []) + ConnectionsIn(cs[1..], part)
  }

  /** The part of the snapshot on the given nodes. */
  function Part(s: Snapshot, part: set<Id>): Snapshot {
    s.(nodes := NodesIn(s.nodes, part), connections := ConnectionsIn(s.connections, part))
  }

  /** No connection joins the part to the rest, and its ids are not used twice. */
  ghost predicate SelfContained(s: Snapshot, part: set<Id>) {
    && part <= NodeIds(s)
    && (forall c :: c in s.connections ==> (c.src in part <==> c.dst in part))
    && (forall i, j :: 0 <= i < j < |s.nodes| && s.nodes[i].id == s.nodes[j].id ==> s.nodes[i].id !in part)
    && (forall i, j :: 0 <= i < j < |s.connections| && s.connections[i].id == s.connections[j].id ==>
          s.connections[i].src !in part && s.connections[j].src !in part)
  }

  /** A self-contained part that is valid and has a type at every port. */
  ghost predicate Sheltered(reg: Registry, s: Snapshot, part: set<Id>)
    requires WellFormedRegistry(reg)
  {
    SelfContained(s, part) && Valid(reg, Part(s, part)) && EveryPortSettled(reg, Part(s, part))
  }

  /** `p` is the part of `s` on the given nodes, as far as its members go. */
  ghost predicate IsPart(s: Snapshot, part: set<Id>, p: Snapshot) {
    && (forall n :: n in p.nodes <==> n in s.nodes && n.id in part)
    && (forall c :: c in p.connections <==> c in s.connections && c.src in part)
  }

  lemma OneNodeInside(s: Snapshot, part: set<Id>, n: Node, m: Node)
    requires SelfContained(s, part) && n in s.nodes && m in s.nodes && n.id == m.id && n.id in part
    ensures n == m
  {
    var i, j :| 0 <= i < |s.nodes| && 0 <= j < |s.nodes| && s.nodes[i] == n && s.nodes[j] == m;
  }

  lemma OneConnectionInside(s: Snapshot, part: set<Id>, c: Connection, d: Connection)
    requires SelfContained(s, part) && c in s.connections && d in s.connections && c.id == d.id && c.src in part
    ensures c == d
  {
    var i, j :| 0 <= i < |s.connections| && 0 <= j < |s.connections| && s.connections[i] == c && s.connections[j] == d;
  }

  /** Nodes, contracts and values of the part are those of the whole. */
  lemma ContractsCut(reg: Registry, s: Snapshot, part: set<Id>, p: Snapshot)
    requires IsPart(s, part, p)
    requires SelfContained(s, part)
    ensures var g, h := GraphOf(reg, s), GraphOf(reg, p);
            && (forall n :: n in h.contracts <==> n in g.contracts && n in part)
            && h.values.Keys == h.contracts.Keys && g.values.Keys == g.contracts.Keys
            && (forall n :: n in h.contracts ==>
                n in h.values && n in g.values && h.contracts[n] == g.contracts[n] && h.values[n] == g.values[n])
  {
    var whole, inside := FirstNodes(s.nodes), FirstNodes(p.nodes);
    forall n ensures n in inside <==> n in whole && n in part {
      if n in inside { assert inside[n] in s.nodes; }
      if n in whole && n in part { assert whole[n] in p.nodes; }
    }
    forall n | n in inside ensures inside[n] == whole[n] {
      OneNodeInside(s, part, inside[n], whole[n]);
    }
  }

  lemma AcceptedCut(s: Snapshot, part: set<Id>, p: Snapshot, whole: map<Id, Contract>, inside: map<Id, Contract>,
                    c: Connection)
    requires IsPart(s, part, p)
    requires SelfContained(s, part)
    requires (forall n :: n in inside <==> n in whole && n in part) && forall n :: n in inside ==> inside[n] == whole[n]
    ensures c in Accepted(inside, p.connections) <==> c in Accepted(whole, s.connections) && c.src in part
  {
    var first, firstIn := FirstConnections(s.connections), FirstConnections(p.connections);
    if c in Accepted(inside, p.connections) {
      assert c in s.connections && c.src in part;
      OneConnectionInside(s, part, c, first[c.id]);
      assert first[c.id] == c && Wired(whole, c);
    }
    if c in Accepted(whole, s.connections) && c.src in part {
      assert c in s.connections && c in p.connections;
      OneConnectionInside(s, part, c, firstIn[c.id]);
      assert firstIn[c.id] == c && Wired(inside, c);
    }
  }

  lemma AllAcceptedCut(s: Snapshot, part: set<Id>, p: Snapshot, whole: map<Id, Contract>, inside: map<Id, Contract>)
    requires IsPart(s, part, p)
    requires SelfContained(s, part)
    requires (forall n :: n in inside <==> n in whole && n in part) && forall n :: n in inside ==> inside[n] == whole[n]
    ensures forall c :: c in Accepted(whole, s.connections) ==> (c.src in part <==> c.dst in part)
    ensures forall c :: c in Accepted(inside, p.connections) <==> c in Accepted(whole, s.connections) && c.src in part
  {
    forall c ensures c in Accepted(inside, p.connections) <==> c in Accepted(whole, s.connections) && c.src in part {
      AcceptedCut(s, part, p, whole, inside, c);
    }
    assert forall c :: c in Accepted(whole, s.connections) ==> c in s.connections;
  }

  lemma PartIsCut(reg: Registry, s: Snapshot, part: set<Id>, p: Snapshot)
    requires IsPart(s, part, p)
    requires SelfContained(s, part)
    ensures Cut(GraphOf(reg, s), GraphOf(reg, p), part)
  {
    ContractsCut(reg, s, part, p);
    AllAcceptedCut(s, part, p, GraphOf(reg, s).contracts, GraphOf(reg, p).contracts);
  }

  /** The issue leaves the part alone: it names neither a node of the part nor a connection in it. */
  ghost predicate Elsewhere(s: Snapshot, part: set<Id>, x: Issue) {
    && (NamesNode(x) ==> x.node !in part)
    && (NamesConnection(x) ==> forall c :: c in s.connections && c.src in part ==> c.id != x.connection)
  }

  lemma FaultsAreElsewhere(reg: Registry, s: Snapshot, part: set<Id>, p: Snapshot, x: Issue)
    requires IsPart(s, part, p)
    requires WellFormedRegistry(reg) && SelfContained(s, part) && Valid(reg, p)
    ensures FaultIn(reg, s, x) ==> Elsewhere(s, part, x)
  {
    GraphOfIsWellFormed(reg, s);
    GraphOfIsWellFormed(reg, p);
    ContractsCut(reg, s, part, p);
    PartIsCut(reg, s, part, p);
    DuplicatesAreElsewhere(s, part, x);
    RejectedAreElsewhere(reg, s, part, p, x);
    UnwiredAreElsewhere(s, part, p, GraphOf(reg, s).contracts, GraphOf(reg, p).contracts, x);
    GraphFaultIsElsewhere(GraphOf(reg, s), GraphOf(reg, p), s, part, x);
  }

  lemma RejectedAreElsewhere(reg: Registry, s: Snapshot, part: set<Id>, p: Snapshot, x: Issue)
    requires IsPart(s, part, p) && forall n :: n in p.nodes ==> NodeAccepted(reg, n)
    ensures DefinitionIssue(reg, FirstNodes(s.nodes), FirstNodes(s.nodes).Keys, x) ==> Elsewhere(s, part, x)
  {
    assert forall n :: n in s.nodes && n.id in part ==> NodeAccepted(reg, n);
  }

  lemma UnwiredAreElsewhere(s: Snapshot, part: set<Id>, p: Snapshot, whole: map<Id, Contract>,
                            inside: map<Id, Contract>, x: Issue)
    requires IsPart(s, part, p) && SelfContained(s, part) && whole.Keys <= NodeIds(s)
    requires (forall n :: n in inside <==> n in whole && n in part) && forall n :: n in inside ==> inside[n] == whole[n]
    requires forall c :: c in p.connections ==> Wired(inside, c)
    ensures var first := FirstConnections(s.connections);
            ConnectionIssue(NodeIds(s), whole, first, first.Keys, x) ==> Elsewhere(s, part, x)
  {
    var first := FirstConnections(s.connections);
    if ConnectionIssue(NodeIds(s), whole, first, first.Keys, x) {
      var i :| i in first && WiringIssue(NodeIds(s), whole, first[i], x);
      WiringFault(NodeIds(s), whole, first[i], x);
      forall d | d in s.connections && d.src in part ensures d.id != x.connection {
        if d.id == i { OneConnectionInside(s, part, d, first[i]); }
      }
    }
  }

  lemma GraphFaultIsElsewhere(g: Graph, h: Graph, s: Snapshot, part: set<Id>, x: Issue)
    requires WellFormedGraph(g) && WellFormedGraph(h) && Cut(g, h, part) && GraphValid(h)
    requires SelfContained(s, part) && forall c :: c in g.conns ==> c in s.connections
    ensures GraphIssue(g, x) ==> Elsewhere(s, part, x)
  {
    NoGraphIssueInside(g, h, part, x);
    if GraphIssue(g, x) && NamesConnection(x) {
      var c :| c in g.conns && c.id == x.connection && c.src !in part;
      forall d | d in s.connections && d.src in part ensures d.id != x.connection {
        if d.id == c.id { OneConnectionInside(s, part, d, c); }
      }
    }
  }

  lemma DuplicatesAreElsewhere(s: Snapshot, part: set<Id>, x: Issue)
    requires SelfContained(s, part)
    ensures DuplicateIssue(s, x) ==> Elsewhere(s, part, x)
  {
    if !DuplicateIssue(s, x) {
      return;
    }
    if x.DuplicateNodeId? {
      var i, j :| 0 <= i < j < |s.nodes| && NodeIdList(s)[i] == NodeIdList(s)[j] == x.node;
      assert s.nodes[i].id == s.nodes[j].id == x.node;
    } else {
      var i, j :| 0 <= i < j < |s.connections| && ConnectionIdList(s)[i] == ConnectionIdList(s)[j] == x.connection;
      assert s.connections[i].id == s.connections[j].id == x.connection;
      forall c | c in s.connections && c.src in part ensures c.id != x.connection {
        if c.id == x.connection {
          OneConnectionInside(s, part, c, s.connections[i]);
        }
      }
    }
  }

  lemma WiringFault(nodes: set<Id>, contracts: map<Id, Contract>, c: Connection, x: Issue)
    requires contracts.Keys <= nodes && WiringIssue(nodes, contracts, c, x)
    ensures !Wired(contracts, c) && NamesConnection(x) && x.connection == c.id
    ensures NamesNode(x) ==> x.node == c.src || x.node == c.dst
  {
  }
}
