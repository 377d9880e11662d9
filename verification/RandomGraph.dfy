/** Randomizing selected nodes of a valid graph (random_graph.py): every graph returned is valid, also
    through the renaming fallback that the source never validates. Random choices are inputs. */
module RandomGraph {
  import opened Common
  import opened PortNames
  import opened NodeContracts
  import opened GraphModel
  import opened Validation
  import opened Analysis
  import opened Renaming

  /** One replacement type and parameters for a node. */
  datatype Pick = Pick(typeId: Name, version: nat, literals: Values)

  /** The choices of one replacement attempt: new node ids, new ids of the connections they touch, and
      a replacement for each selected node. */
  datatype Draw = Draw(ids: map<Id, Id>, connectionIds: map<Id, Id>, picks: map<Id, Pick>)

  function NewId(m: map<Id, Id>, x: Id): Id { if x in m then m[x] else x }

  /* ---- replacing a set of nodes ---- */

  function NewNode(d: Draw, n: Node): Node {
    var picked := if n.id in d.picks
      then Node(n.id, d.picks[n.id].typeId, d.picks[n.id].version, d.picks[n.id].literals) else n;
    picked.(id := NewId(d.ids, n.id))
  }

  function Untouched(nodes: seq<Node>, targets: set<Id>): (r: seq<Node>)
    ensures forall n :: n in r <==> n in nodes && n.id !in targets
  {
    if nodes == [] then [] else
      assert forall n :: n in nodes <==> n == nodes[0] || n in nodes[1..];
      (if nodes[0].id in targets then [] else [nodes[0]]) + Untouched(nodes[1..], targets)
  }

  function Replacements(nodes: seq<Node>, d: Draw): (r: seq<Node>)
    ensures forall m :: m in r <==> exists n :: n in nodes && n.id in d.ids && m == NewNode(d, n)
  {
    if nodes == [] then [] else
      assert forall n :: n in nodes <==> n == nodes[0] || n in nodes[1..];
      (if nodes[0].id in d.ids then [NewNode(d, nodes[0])] else []) + Replacements(nodes[1..], d)
  }

  predicate Touches(ids: map<Id, Id>, c: Connection) { c.src in ids || c.dst in ids }

  function NewConnection(d: Draw, c: Connection): Connection {
    if Touches(d.ids, c)
    then Connection(NewId(d.connectionIds, c.id), NewId(d.ids, c.src), c.srcPort, NewId(d.ids, c.dst), c.dstPort)
    else c
  }

  function Replaced(s: Snapshot, d: Draw): Snapshot {
    s.(nodes := Untouched(s.nodes, d.ids.Keys) + Replacements(s.nodes, d),
       connections := seq(|s.connections|, i requires 0 <= i < |s.connections| => NewConnection(d, s.connections[i])))
  }

  /** Ids as a generator of 128 random bits is taken to yield them: distinct, and none in use. */
  ghost predicate Fresh(s: Snapshot, targets: set<Id>, d: Draw) {
    && d.ids.Keys == targets
    && (forall a, b :: a in d.ids && b in d.ids && d.ids[a] == d.ids[b] ==> a == b)
    && (forall a :: a in d.ids ==> d.ids[a] !in NodeIds(s))
    && (forall c :: c in s.connections ==> (c.id in d.connectionIds <==> Touches(d.ids, c)))
    && (forall a, b :: a in d.connectionIds && b in d.connectionIds && d.connectionIds[a] == d.connectionIds[b] ==>
        a == b)
    && (forall a :: a in d.connectionIds ==> a in ConnectionIds(s) && d.connectionIds[a] !in ConnectionIds(s))
  }

  function Inverted(m: map<Id, Id>): map<Id, Id>
    requires forall a, b :: a in m && b in m && m[a] == m[b] ==> a == b
  {
    map a | a in m :: m[a] := a
  }

  function NamingOf(d: Draw): Naming
    requires forall a, b :: a in d.ids && b in d.ids && d.ids[a] == d.ids[b] ==> a == b
    requires forall a, b :: a in d.connectionIds && b in d.connectionIds && d.connectionIds[a] == d.connectionIds[b] ==>
             a == b
  {
    var back, connBack := Inverted(d.ids), Inverted(d.connectionIds);
    Naming(x => NewId(d.ids, x), x => NewId(back, x), x => NewId(d.connectionIds, x), x => NewId(connBack, x))
  }

  lemma InvertsOld(m: map<Id, Id>, used: set<Id>, x: Id)
    requires forall a, b :: a in m && b in m && m[a] == m[b] ==> a == b
    requires forall a :: a in m ==> m[a] !in used
    requires x in used
    ensures NewId(Inverted(m), NewId(m, x)) == x
  {
    if x in m { assert m[x] in Inverted(m); }
  }

  ghost predicate DistinctNodes(nodes: seq<Node>) { forall i, j :: 0 <= i < j < |nodes| ==> nodes[i].id != nodes[j].id }

  lemma {:induction false} UntouchedDistinct(nodes: seq<Node>, targets: set<Id>)
    requires DistinctNodes(nodes)
    ensures DistinctNodes(Untouched(nodes, targets))
  {
    if nodes == [] {
    } else {
      UntouchedDistinct(nodes[1..], targets);
      var rest := Untouched(nodes[1..], targets);
      forall n | n in rest ensures n.id != nodes[0].id {
        var i :| 0 <= i < |nodes[1..]| && nodes[1..][i] == n;
        assert nodes[i + 1] == n;
      }
    }
  }

  lemma {:induction false} ReplacementsDistinct(nodes: seq<Node>, d: Draw)
    requires DistinctNodes(nodes)
    requires forall a, b :: a in d.ids && b in d.ids && d.ids[a] == d.ids[b] ==> a == b
    ensures DistinctNodes(Replacements(nodes, d))
  {
    if nodes == [] {
    } else {
      ReplacementsDistinct(nodes[1..], d);
      var rest := Replacements(nodes[1..], d);
      if nodes[0].id in d.ids {
        forall m | m in rest ensures m.id != NewNode(d, nodes[0]).id {
          var n :| n in nodes[1..] && n.id in d.ids && m == NewNode(d, n);
          var i :| 0 <= i < |nodes[1..]| && nodes[1..][i] == n;
          assert nodes[i + 1] == n;
        }
      }
    }
  }

  lemma ReplacedNodesDistinct(s: Snapshot, targets: set<Id>, d: Draw)
    requires UniqueIds(s) && Fresh(s, targets, d)
    ensures DistinctNodes(Replaced(s, d).nodes)
  {
    UntouchedDistinct(s.nodes, targets);
    ReplacementsDistinct(s.nodes, d);
    var stays, comes := Untouched(s.nodes, targets), Replacements(s.nodes, d);
    forall a, b | a in stays && b in comes ensures a.id != b.id {
      var n :| n in s.nodes && n.id in d.ids && b == NewNode(d, n);
      assert a.id in NodeIds(s);
    }
  }

  lemma ReplacedConnectionsDistinct(s: Snapshot, targets: set<Id>, d: Draw)
    requires UniqueIds(s) && Fresh(s, targets, d)
    ensures forall i, j :: 0 <= i < j < |s.connections| ==>
            NewConnection(d, s.connections[i]).id != NewConnection(d, s.connections[j]).id
  {
    forall i, j | 0 <= i < j < |s.connections|
      ensures NewConnection(d, s.connections[i]).id != NewConnection(d, s.connections[j]).id
    {
      var a, b := s.connections[i], s.connections[j];
      assert a in s.connections && b in s.connections && a.id in ConnectionIds(s) && b.id in ConnectionIds(s);
    }
  }

  /** The fallback keeps every node's type and parameters: a pure renaming. */
  predicate KeepsTypes(d: Draw) { d.picks == map[] }

  /** All connections run between nodes of the snapshot. */
  ghost predicate NoDangling(s: Snapshot) {
    forall c :: c in s.connections ==> c.src in NodeIds(s) && c.dst in NodeIds(s)
  }

  lemma ListedForward(s: Snapshot, targets: set<Id>, d: Draw)
    requires Fresh(s, targets, d) && NoDangling(s) && KeepsTypes(d)
    ensures ListsRenamed(NamingOf(d), s, Replaced(s, d))
  {
    var m, t := NamingOf(d), Replaced(s, d);
    forall n | n in s.nodes ensures OnNode(m, n) in t.nodes && m.back(m.node(n.id)) == n.id {
      assert n.id in NodeIds(s);
      InvertsOld(d.ids, NodeIds(s), n.id);
      if n.id in d.ids { assert OnNode(m, n) == NewNode(d, n); } else { assert OnNode(m, n) == n; }
    }
    forall c | c in s.connections
      ensures m.OnConnection(c) in t.connections && m.Inverse().OnConnection(m.OnConnection(c)) == c
    {
      ConnectionForward(s, targets, d, c);
    }
  }

  lemma ConnectionForward(s: Snapshot, targets: set<Id>, d: Draw, c: Connection)
    requires Fresh(s, targets, d) && NoDangling(s) && c in s.connections
    ensures NamingOf(d).OnConnection(c) == NewConnection(d, c)
    ensures NewConnection(d, c) in Replaced(s, d).connections
    ensures NamingOf(d).Inverse().OnConnection(NewConnection(d, c)) == c
  {
    var i :| 0 <= i < |s.connections| && s.connections[i] == c;
    assert Replaced(s, d).connections[i] == NewConnection(d, c);
    assert c.id in ConnectionIds(s);
    InvertsOld(d.ids, NodeIds(s), c.src);
    InvertsOld(d.ids, NodeIds(s), c.dst);
    InvertsOld(d.connectionIds, ConnectionIds(s), c.id);
  }

  lemma NodeBackward(s: Snapshot, targets: set<Id>, d: Draw, x: Node)
    requires Fresh(s, targets, d) && KeepsTypes(d) && x in Replaced(s, d).nodes
    ensures var back := NamingOf(d).Inverse(); OnNode(back, x) in s.nodes && back.back(back.node(x.id)) == x.id
  {
    var back := NamingOf(d).Inverse();
    assert exists n :: n in s.nodes && x == NewNode(d, n) by {
      if x in Untouched(s.nodes, d.ids.Keys) { assert x == NewNode(d, x); }
    }
    var n :| n in s.nodes && x == NewNode(d, n);
    assert n.id in NodeIds(s);
    InvertsOld(d.ids, NodeIds(s), n.id);
    assert x == n.(id := NewId(d.ids, n.id));
    assert back.node(x.id) == n.id;
    assert OnNode(back, x) == n;
  }

  lemma ListedBackward(s: Snapshot, targets: set<Id>, d: Draw)
    requires targets <= NodeIds(s) && Fresh(s, targets, d) && NoDangling(s) && KeepsTypes(d)
    ensures ListsRenamed(NamingOf(d).Inverse(), Replaced(s, d), s)
  {
    var m, t := NamingOf(d), Replaced(s, d);
    var back := m.Inverse();
    forall x | x in t.nodes ensures OnNode(back, x) in s.nodes && back.back(back.node(x.id)) == x.id {
      NodeBackward(s, targets, d, x);
    }
    forall e | e in t.connections
      ensures back.OnConnection(e) in s.connections && back.Inverse().OnConnection(back.OnConnection(e)) == e
    {
      var i :| 0 <= i < |s.connections| && e == NewConnection(d, s.connections[i]);
      ConnectionForward(s, targets, d, s.connections[i]);
      assert back.Inverse() == m;
    }
  }

  lemma FallbackRenames(s: Snapshot, targets: set<Id>, d: Draw)
    requires UniqueIds(s) && NoDangling(s) && targets <= NodeIds(s) && Fresh(s, targets, d) && KeepsTypes(d)
    ensures Renames(NamingOf(d), s, Replaced(s, d))
  {
    ListedForward(s, targets, d);
    ListedBackward(s, targets, d);
    ReplacedNodesDistinct(s, targets, d);
    ReplacedConnectionsDistinct(s, targets, d);
  }

  /** The unchecked fallback: a valid graph stays valid when selected nodes only change ids. */
  lemma FallbackIsValid(reg: Registry, s: Snapshot, targets: set<Id>, d: Draw)
    requires WellFormedRegistry(reg) && Valid(reg, s) && targets <= NodeIds(s) && Fresh(s, targets, d) && KeepsTypes(d)
    ensures Valid(reg, Replaced(s, d))
  {
    ValidHasNoDangling(reg, s);
    FallbackRenames(s, targets, d);
    ValidRenamed(reg, NamingOf(d), s, Replaced(s, d));
  }

  lemma ValidHasNoDangling(reg: Registry, s: Snapshot)
    requires WellFormedRegistry(reg) && Valid(reg, s)
    ensures NoDangling(s)
  {
    GraphOfIsWellFormed(reg, s);
  }

  /* ---- what survives around the selection ---- */

  /** Every node outside the selection is still there, unchanged, and so is every connection between two of them. */
  ghost predicate KeepsSurroundings(s: Snapshot, targets: set<Id>, r: Snapshot) {
    && (forall n :: n in s.nodes && n.id !in targets ==> n in r.nodes)
    && (forall c :: c in s.connections && c.src !in targets && c.dst !in targets ==> c in r.connections)
  }

  ghost predicate OutsideIds(s: Snapshot, targets: set<Id>, ids: set<Id>) {
    forall n :: n in s.nodes && n.id !in targets ==> n.id !in ids
  }

  /** In a graph with unique ids the replacements' ids are not those of any node kept. */
  lemma ReplacementIdsAreOutside(s: Snapshot, d: Draw)
    requires UniqueIds(Replaced(s, d)) && d.ids.Keys <= NodeIds(s)
    ensures OutsideIds(s, d.ids.Keys, d.ids.Values)
  {
    forall n, a | n in s.nodes && n.id !in d.ids && a in d.ids ensures d.ids[a] != n.id {
      var selected :| selected in s.nodes && selected.id == a;
      assert NewNode(d, selected) in Replacements(s.nodes, d) && n in Untouched(s.nodes, d.ids.Keys);
      IdsApart(Untouched(s.nodes, d.ids.Keys), Replacements(s.nodes, d), n, NewNode(d, selected));
    }
  }

  lemma IdsApart(stays: seq<Node>, comes: seq<Node>, n: Node, m: Node)
    requires DistinctNodes(stays + comes) && n in stays && m in comes
    ensures n.id != m.id
  {
    var i, j :| 0 <= i < |stays| && 0 <= j < |comes| && stays[i] == n && comes[j] == m;
    assert (stays + comes)[i].id != (stays + comes)[|stays| + j].id;
  }

  /** Replacing exchanges exactly the selected ids for the new ones. */
  lemma ReplacedIds(s: Snapshot, d: Draw)
    requires d.ids.Keys <= NodeIds(s)
    ensures NodeIds(Replaced(s, d)) == (NodeIds(s) - d.ids.Keys) + d.ids.Values
  {
    var r := Replaced(s, d);
    forall x | x in (NodeIds(s) - d.ids.Keys) + d.ids.Values ensures x in NodeIds(r) {
      if x in d.ids.Values {
        var a :| a in d.ids && d.ids[a] == x;
        var n :| n in s.nodes && n.id == a;
        assert NewNode(d, n) in Replacements(s.nodes, d);
        assert NewNode(d, n) in r.nodes;
      } else {
        var n :| n in s.nodes && n.id == x;
        assert n in Untouched(s.nodes, d.ids.Keys) && n in r.nodes;
      }
    }
    forall x | x in NodeIds(r) ensures x in (NodeIds(s) - d.ids.Keys) + d.ids.Values {
      var m :| m in r.nodes && m.id == x;
      assert m in Untouched(s.nodes, d.ids.Keys) || m in Replacements(s.nodes, d);
    }
  }

  /** A node stays as it is unless it is replaced; a replaced one has its new id, and is otherwise what was picked for
      it, or itself if nothing was. A connection keeps its ports and every end that is not replaced; replaced ends get
      their new ids, and the connection one too. */
  lemma WhatReplacingDoes(s: Snapshot, d: Draw, n: Node, i: nat)
    requires n in s.nodes && i < |s.connections|
    ensures n.id !in d.ids ==> n in Replaced(s, d).nodes
    ensures n.id in d.ids && n.id in d.picks ==>
              var p := d.picks[n.id]; Node(d.ids[n.id], p.typeId, p.version, p.literals) in Replaced(s, d).nodes
    ensures n.id in d.ids && n.id !in d.picks ==> n.(id := d.ids[n.id]) in Replaced(s, d).nodes
    ensures |Replaced(s, d).connections| == |s.connections|
    ensures var c, after := s.connections[i], Replaced(s, d).connections[i];
            && after.srcPort == c.srcPort && after.dstPort == c.dstPort
            && after.src == (if c.src in d.ids then d.ids[c.src] else c.src)
            && after.dst == (if c.dst in d.ids then d.ids[c.dst] else c.dst)
            && (c.src !in d.ids && c.dst !in d.ids ==> after == c)
            && ((c.src in d.ids || c.dst in d.ids) && c.id in d.connectionIds ==> after.id == d.connectionIds[c.id])
  {
    if n.id in d.ids { assert NewNode(d, n) in Replacements(s.nodes, d); }
  }

  lemma ReplacingKeepsSurroundings(s: Snapshot, d: Draw)
    ensures KeepsSurroundings(s, d.ids.Keys, Replaced(s, d))
  {
    forall c | c in s.connections && c.src !in d.ids && c.dst !in d.ids ensures c in Replaced(s, d).connections {
      var i :| 0 <= i < |s.connections| && s.connections[i] == c;
      assert Replaced(s, d).connections[i] == c;
    }
  }

  /* ---- the algorithm ---- */

  method IsValid(reg: Registry, s: Snapshot) returns (valid: bool)
    requires WellFormedRegistry(reg)
    ensures valid <==> Valid(reg, s)
  {
    var a := Analyze(reg, s, None);
    valid := a.issues == [];
  }

  function WithLiterals(nodes: seq<Node>, targets: set<Id>, drawn: map<Id, Values>): (r: seq<Node>)
    ensures |r| == |nodes|
    ensures forall i :: 0 <= i < |nodes| ==>
              && r[i].id == nodes[i].id && r[i].typeId == nodes[i].typeId && r[i].version == nodes[i].version
              && (nodes[i].id !in targets || nodes[i].id !in drawn ==> r[i].literals == nodes[i].literals)
              && (nodes[i].id in targets && nodes[i].id in drawn ==> r[i].literals == drawn[nodes[i].id])
  {
    if nodes == [] then [] else
      var n := nodes[0];
      [if n.id in targets && n.id in drawn then n.(literals := drawn[n.id]) else n]
        + WithLiterals(nodes[1..], targets, drawn)
  }

  /** A draw is accepted if it changes something and does not make a valid graph invalid. */
  ghost predicate Accepted(reg: Registry, s: Snapshot, targets: set<Id>, drawn: map<Id, Values>)
    requires WellFormedRegistry(reg)
  {
    var nodes := WithLiterals(s.nodes, targets, drawn);
    nodes != s.nodes && (Valid(reg, s) ==> Valid(reg, s.(nodes := nodes)))
  }

  method IsAccepted(reg: Registry, s: Snapshot, targets: set<Id>, drawn: map<Id, Values>, requireValid: bool)
    returns (accepted: bool)
    requires WellFormedRegistry(reg) && (requireValid <==> Valid(reg, s))
    ensures accepted <==> Accepted(reg, s, targets, drawn)
  {
    var candidate := s.(nodes := WithLiterals(s.nodes, targets, drawn));
    accepted := candidate.nodes != s.nodes;
    if accepted {
      var valid := IsValid(reg, candidate);
      accepted := !requireValid || valid;
    }
  }

  /** None of the first `n` draws is accepted. */
  ghost predicate NoneAccepted(reg: Registry, s: Snapshot, targets: set<Id>, draws: seq<map<Id, Values>>, n: nat)
    requires WellFormedRegistry(reg) && n <= |draws|
  {
    forall j {:trigger Accepted(reg, s, targets, draws[j])} :: 0 <= j < n ==> !Accepted(reg, s, targets, draws[j])
  }

  lemma OneMoreUnaccepted(reg: Registry, s: Snapshot, targets: set<Id>, draws: seq<map<Id, Values>>, n: nat)
    requires WellFormedRegistry(reg) && n < |draws| && NoneAccepted(reg, s, targets, draws, n)
    requires !Accepted(reg, s, targets, draws[n])
    ensures NoneAccepted(reg, s, targets, draws, n + 1)
  {
  }

  /** `_randomize_graph_parameters`: the first accepted draw is taken, and the graph stays as it is if there is none; a
      valid graph is only ever exchanged for a valid one. */
  method RandomizeParameters(reg: Registry, s: Snapshot, targets: set<Id>, draws: seq<map<Id, Values>>)
    returns (r: Snapshot, ghost at: nat)
    requires WellFormedRegistry(reg)
    ensures at <= |draws| && (targets != {} ==> NoneAccepted(reg, s, targets, draws, at))
    ensures if targets == {} || at == |draws| then r == s
            else Accepted(reg, s, targets, draws[at]) && r == s.(nodes := WithLiterals(s.nodes, targets, draws[at]))
    ensures Valid(reg, s) ==> Valid(reg, r)
    ensures KeepsSurroundings(s, targets, r) && r.connections == s.connections && NodeIds(r) == NodeIds(s)
  {
    r, at := s, 0;
    if targets == {} {
      return;
    }
    var requireValid := IsValid(reg, s);
    for i := 0 to |draws|
      invariant at == i && NoneAccepted(reg, s, targets, draws, at)
    {
      var accepted := IsAccepted(reg, s, targets, draws[i], requireValid);
      if accepted {
        LiteralsKeepOthers(s, targets, draws[i]);
        return s.(nodes := WithLiterals(s.nodes, targets, draws[i])), i;
      }
      OneMoreUnaccepted(reg, s, targets, draws, i);
      at := i + 1;
    }
  }

  lemma LiteralsKeepOthers(s: Snapshot, targets: set<Id>, drawn: map<Id, Values>)
    ensures var r := s.(nodes := WithLiterals(s.nodes, targets, drawn));
            KeepsSurroundings(s, targets, r) && NodeIds(r) == NodeIds(s)
  {
    var r := s.(nodes := WithLiterals(s.nodes, targets, drawn));
    SameIds(s, r);
    forall n | n in s.nodes && n.id !in targets ensures n in r.nodes {
      var i :| 0 <= i < |s.nodes| && s.nodes[i] == n;
      assert r.nodes[i] == n;
    }
  }

  lemma SameIds(s: Snapshot, t: Snapshot)
    requires |t.nodes| == |s.nodes| && forall i :: 0 <= i < |s.nodes| ==> t.nodes[i].id == s.nodes[i].id
    ensures NodeIds(t) == NodeIds(s)
  {
    forall n | n in s.nodes ensures n.id in NodeIds(t) {
      var i :| 0 <= i < |s.nodes| && s.nodes[i] == n;
      assert t.nodes[i] in t.nodes;
    }
    forall n | n in t.nodes ensures n.id in NodeIds(s) {
      var i :| 0 <= i < |t.nodes| && t.nodes[i] == n;
      assert s.nodes[i] in s.nodes;
    }
  }

  /** None of the first `n` attempts is valid. */
  ghost predicate NoneValid(reg: Registry, s: Snapshot, draws: seq<Draw>, n: nat)
    requires WellFormedRegistry(reg) && n <= |draws|
  {
    forall j {:trigger draws[j]} :: 0 <= j < n ==> !Valid(reg, Replaced(s, draws[j]))
  }

  lemma OneMoreInvalid(reg: Registry, s: Snapshot, draws: seq<Draw>, n: nat)
    requires WellFormedRegistry(reg) && n < |draws| && NoneValid(reg, s, draws, n) && !Valid(reg, Replaced(s, draws[n]))
    ensures NoneValid(reg, s, draws, n + 1)
  {
  }

  /** `_replace_node_set`: the first valid attempt, or the renaming fallback with the first accepted parameters. */
  method ReplaceNodeSet(reg: Registry, s: Snapshot, targets: set<Id>, draws: seq<Draw>, last: Draw,
                        parameters: seq<map<Id, Values>>)
    returns (r: Snapshot, ids: set<Id>, ghost at: nat)
    requires WellFormedRegistry(reg) && Valid(reg, s) && targets <= NodeIds(s)
    requires forall i :: 0 <= i < |draws| ==> draws[i].ids.Keys == targets
    requires Fresh(s, targets, last) && KeepsTypes(last)
    ensures at <= |draws| && NoneValid(reg, s, draws, at)
    ensures at < |draws| ==> r == Replaced(s, draws[at]) && ids == draws[at].ids.Values
    ensures at == |draws| ==> ids == last.ids.Values && r.connections == Replaced(s, last).connections
    ensures Valid(reg, r) && KeepsSurroundings(s, targets, r) && OutsideIds(s, targets, ids)
    ensures NodeIds(r) == (NodeIds(s) - targets) + ids && (targets != {} ==> ids != {})
  {
    at := 0;
    for i := 0 to |draws|
      invariant at == i && NoneValid(reg, s, draws, at)
    {
      var candidate := Replaced(s, draws[i]);
      var valid := IsValid(reg, candidate);
      if valid {
        ReplacementFits(s, targets, draws[i]);
        return candidate, draws[i].ids.Values, i;
      }
      OneMoreInvalid(reg, s, draws, i);
      at := i + 1;
    }
    r, ids := FallBack(reg, s, targets, last, parameters);
  }

  /** Copies under new ids, with the first accepted parameters. */
  method FallBack(reg: Registry, s: Snapshot, targets: set<Id>, last: Draw, parameters: seq<map<Id, Values>>)
    returns (r: Snapshot, ids: set<Id>)
    requires WellFormedRegistry(reg) && Valid(reg, s) && targets <= NodeIds(s)
    requires Fresh(s, targets, last) && KeepsTypes(last)
    ensures ids == last.ids.Values && r.connections == Replaced(s, last).connections
    ensures Valid(reg, r) && KeepsSurroundings(s, targets, r) && OutsideIds(s, targets, ids)
    ensures NodeIds(r) == (NodeIds(s) - targets) + ids && (targets != {} ==> ids != {})
  {
    FallbackIsValid(reg, s, targets, last);
    ids := last.ids.Values;
    ReplacementFits(s, targets, last);
    ghost var taken;
    r, taken := RandomizeParameters(reg, Replaced(s, last), ids, parameters);
    SurroundingsThroughFallback(s, targets, last, r);
  }

  lemma ReplacementFits(s: Snapshot, targets: set<Id>, d: Draw)
    requires d.ids.Keys == targets <= NodeIds(s) && UniqueIds(Replaced(s, d))
    ensures KeepsSurroundings(s, targets, Replaced(s, d)) && OutsideIds(s, targets, d.ids.Values)
    ensures NodeIds(Replaced(s, d)) == (NodeIds(s) - targets) + d.ids.Values && (targets != {} ==> d.ids.Values != {})
  {
    ReplacedIds(s, d);
    ReplacingKeepsSurroundings(s, d);
    ReplacementIdsAreOutside(s, d);
    if t :| t in targets { assert d.ids[t] in d.ids.Values; }
  }

  lemma SurroundingsThroughFallback(s: Snapshot, targets: set<Id>, d: Draw, r: Snapshot)
    requires d.ids.Keys == targets && OutsideIds(s, targets, d.ids.Values)
             && r.connections == Replaced(s, d).connections
    requires KeepsSurroundings(Replaced(s, d), d.ids.Values, r)
    ensures KeepsSurroundings(s, targets, r)
  {
    ReplacingKeepsSurroundings(s, d);
    forall n | n in s.nodes && n.id !in targets ensures n in r.nodes { assert n in Replaced(s, d).nodes; }
  }

  /** A change around the replaced nodes: a node put into a connection, a node without connections, a node removed,
      or removed with what it reads handed on to its readers. Ids, types and ports are the generator's choice. */
  datatype Edit =
    | Insert(node: Node, cut: Connection, inId: Id, inPort: Name, outId: Id, outPort: Name)
    | AddAlone(node: Node)
    | Remove(id: Id)
    | Bypass(id: Id, bridgeIds: seq<Id>)

  predicate Adds(e: Edit) { e.Insert? || e.AddAlone? }

  function WithoutId(cs: seq<Connection>, id: Id): (r: seq<Connection>)
    ensures forall c :: c in r <==> c in cs && c.id != id
  {
    if cs == [] then [] else
      assert forall c :: c in cs <==> c == cs[0] || c in cs[1..];
      (if cs[0].id == id then [] else [cs[0]]) + WithoutId(cs[1..], id)
  }

  function Detached(cs: seq<Connection>, n: Id): (r: seq<Connection>)
    ensures forall c :: c in r <==> c in cs && c.src != n && c.dst != n
  {
    if cs == [] then [] else
      assert forall c :: c in cs <==> c == cs[0] || c in cs[1..];
      (if cs[0].src == n || cs[0].dst == n then [] else [cs[0]]) + Detached(cs[1..], n)
  }

  function Into(cs: seq<Connection>, n: Id): (r: seq<Connection>)
    ensures forall c :: c in r <==> c in cs && c.dst == n
  {
    if cs == [] then [] else
      assert forall c :: c in cs <==> c == cs[0] || c in cs[1..];
      (if cs[0].dst == n then [cs[0]] else []) + Into(cs[1..], n)
  }

  function OutOf(cs: seq<Connection>, n: Id): (r: seq<Connection>)
    ensures forall c :: c in r <==> c in cs && c.src == n
  {
    if cs == [] then [] else
      assert forall c :: c in cs <==> c == cs[0] || c in cs[1..];
      (if cs[0].src == n then [cs[0]] else []) + OutOf(cs[1..], n)
  }

  /** From what a node reads to each of its readers. */
  function Bridges(from: Connection, readers: seq<Connection>, ids: seq<Id>): seq<Connection>
    requires |ids| == |readers|
  {
    seq(|readers|, i requires 0 <= i < |readers| =>
      Connection(ids[i], from.src, from.srcPort, readers[i].dst, readers[i].dstPort))
  }

  /** What may be proposed: an insertion into a connection of a replaced node; and the removal of a replaced node, never
      the last, that is connected on both sides or on neither, with its readers handed on only if it reads one thing. */
  predicate Eligible(s: Snapshot, e: Edit, replaced: set<Id>) {
    match e
    case Insert(_, cut, _, _, _, _) => cut in s.connections && (cut.src in replaced || cut.dst in replaced)
    case AddAlone(_) => true
    case Remove(id) =>
      id in replaced && |replaced| > 1 && (Into(s.connections, id) == [] <==> OutOf(s.connections, id) == [])
    case Bypass(id, ids) =>
      && id in replaced && |replaced| > 1
      && |Into(s.connections, id)| == 1 && |ids| == |OutOf(s.connections, id)| > 0
  }

  function Edited(s: Snapshot, e: Edit, replaced: set<Id>): Snapshot
    requires Eligible(s, e, replaced)
  {
    match e
    case Insert(node, cut, inId, inPort, outId, outPort) =>
      s.(nodes := s.nodes + [node],
         connections := WithoutId(s.connections, cut.id)
                        + [Connection(inId, cut.src, cut.srcPort, node.id, inPort),
                           Connection(outId, node.id, outPort, cut.dst, cut.dstPort)])
    case AddAlone(node) => s.(nodes := s.nodes + [node])
    case Remove(id) => s.(nodes := Untouched(s.nodes, {id}), connections := Detached(s.connections, id))
    case Bypass(id, ids) =>
      s.(nodes := Untouched(s.nodes, {id}),
         connections := Detached(s.connections, id)
                        + Bridges(Into(s.connections, id)[0], OutOf(s.connections, id), ids))
  }

  function ReplacedAfter(e: Edit, replaced: set<Id>): set<Id> {
    if Adds(e) then replaced + {e.node.id} else replaced - {e.id}
  }

  /** All connections that are not cut, and not those of a removed node, stay. */
  lemma EditKeepsConnections(s: Snapshot, e: Edit, replaced: set<Id>, c: Connection)
    requires Eligible(s, e, replaced) && c in s.connections
    requires if e.Insert? then c.id != e.cut.id else e.AddAlone? || (c.src != e.id && c.dst != e.id)
    ensures c in Edited(s, e, replaced).connections
  {
  }

  ghost predicate HasPath(s: Snapshot, src: Id, srcPort: Name, dst: Id, dstPort: Name) {
    exists c :: c in s.connections && c.src == src && c.srcPort == srcPort && c.dst == dst && c.dstPort == dstPort
  }

  /** Whatever read from node `id` now reads what that read. */
  ghost predicate HandsOn(s: Snapshot, id: Id, after: Snapshot) {
    forall c, d :: c in s.connections && d in s.connections && c.dst == id == d.src ==>
                     HasPath(after, c.src, c.srcPort, d.dst, d.dstPort)
  }

  /** An inserted node reads what the cut connection read and is read where that was; and the readers of a bypassed
      node read what it read. */
  lemma EditReconnects(s: Snapshot, e: Edit, replaced: set<Id>)
    requires Eligible(s, e, replaced)
    ensures var after := Edited(s, e, replaced);
            && (e.Insert? ==> HasPath(after, e.cut.src, e.cut.srcPort, e.node.id, e.inPort)
                              && HasPath(after, e.node.id, e.outPort, e.cut.dst, e.cut.dstPort))
            && (e.Bypass? ==> HandsOn(s, e.id, after))
  {
    var after := Edited(s, e, replaced);
    if e.Insert? {
      assert Connection(e.inId, e.cut.src, e.cut.srcPort, e.node.id, e.inPort) in after.connections;
      assert Connection(e.outId, e.node.id, e.outPort, e.cut.dst, e.cut.dstPort) in after.connections;
    } else if e.Bypass? {
      forall c, d | c in s.connections && d in s.connections && c.dst == e.id == d.src
        ensures HasPath(after, c.src, c.srcPort, d.dst, d.dstPort)
      {
        var into, readers := Into(s.connections, e.id), OutOf(s.connections, e.id);
        assert c in into && into[0] == c;
        assert d in readers;
        var i :| 0 <= i < |readers| && readers[i] == d;
        assert Bridges(c, readers, e.bridgeIds)[i] in after.connections;
      }
    }
  }

  lemma EditKeepsSurroundings(s: Snapshot, targets: set<Id>, current: Snapshot, e: Edit, replaced: set<Id>)
    requires KeepsSurroundings(s, targets, current) && OutsideIds(s, targets, replaced)
    requires NoDangling(s) && UniqueIds(current) && Eligible(current, e, replaced)
             && UniqueIds(Edited(current, e, replaced))
    ensures KeepsSurroundings(s, targets, Edited(current, e, replaced))
    ensures OutsideIds(s, targets, ReplacedAfter(e, replaced))
  {
    var after := Edited(current, e, replaced);
    if Adds(e) {
      assert after.nodes[|current.nodes|] == e.node;
      forall n | n in s.nodes && n.id !in targets ensures n.id != e.node.id {
        var i :| 0 <= i < |current.nodes| && current.nodes[i] == n;
        assert after.nodes[i] == n;
      }
    }
    forall c | c in s.connections && c.src !in targets && c.dst !in targets ensures c in after.connections {
      EndsAreOutside(s, targets, replaced, c);
      if e.Insert? { OtherId(current.connections, c, e.cut); }
      EditKeepsConnections(current, e, replaced, c);
    }
  }

  lemma EndsAreOutside(s: Snapshot, targets: set<Id>, replaced: set<Id>, c: Connection)
    requires OutsideIds(s, targets, replaced) && NoDangling(s)
    requires c in s.connections && c.src !in targets && c.dst !in targets
    ensures c.src !in replaced && c.dst !in replaced
  {
    assert c.src in NodeIds(s) && c.dst in NodeIds(s);
    var n, m :| n in s.nodes && n.id == c.src && m in s.nodes && m.id == c.dst;
  }

  lemma OtherId(cs: seq<Connection>, c: Connection, d: Connection)
    requires forall i, j :: 0 <= i < j < |cs| ==> cs[i].id != cs[j].id
    requires c in cs && d in cs && c != d
    ensures c.id != d.id
  {
    var i, j :| 0 <= i < |cs| && 0 <= j < |cs| && cs[i] == c && cs[j] == d;
  }

  lemma EditKeepsIds(s: Snapshot, targets: set<Id>, current: Snapshot, e: Edit, replaced: set<Id>)
    requires OutsideIds(s, targets, replaced) && Eligible(current, e, replaced)
    requires NodeIds(current) == (NodeIds(s) - targets) + replaced && replaced != {}
    ensures NodeIds(Edited(current, e, replaced)) == (NodeIds(s) - targets) + ReplacedAfter(e, replaced)
            && ReplacedAfter(e, replaced) != {}
  {
    EditedIds(current, e, replaced);
    var others := NodeIds(s) - targets;
    if Adds(e) {
      assert (others + replaced) + {e.node.id} == others + (replaced + {e.node.id});
    } else {
      OneOfManyLeaves(others, replaced, e.id);
    }
  }

  lemma OneOfManyLeaves(others: set<Id>, replaced: set<Id>, id: Id)
    requires id in replaced && |replaced| > 1 && others !! replaced
    ensures (others + replaced) - {id} == others + (replaced - {id}) && replaced - {id} != {}
  {
    assert |replaced - {id}| > 0;
  }

  lemma EditedIds(current: Snapshot, e: Edit, replaced: set<Id>)
    requires Eligible(current, e, replaced)
    ensures NodeIds(Edited(current, e, replaced)) ==
              if Adds(e) then NodeIds(current) + {e.node.id} else NodeIds(current) - {e.id}
  {
    var after := Edited(current, e, replaced);
    if Adds(e) {
      assert forall n :: n in after.nodes <==> n in current.nodes || n == e.node;
    } else {
      assert forall n :: n in after.nodes <==> n in current.nodes && n.id != e.id;
    }
  }

  ghost predicate Acceptable(reg: Registry, s: Snapshot, e: Edit, replaced: set<Id>)
    requires WellFormedRegistry(reg)
  {
    Eligible(s, e, replaced) && Valid(reg, Edited(s, e, replaced))
  }

  method IsAcceptable(reg: Registry, s: Snapshot, e: Edit, replaced: set<Id>) returns (acceptable: bool)
    requires WellFormedRegistry(reg)
    ensures acceptable <==> Acceptable(reg, s, e, replaced)
  {
    acceptable := false;
    if Eligible(s, e, replaced) {
      acceptable := IsValid(reg, Edited(s, e, replaced));
    }
  }

  ghost predicate NoneAcceptable(reg: Registry, s: Snapshot, edits: seq<Edit>, n: nat, replaced: set<Id>)
    requires WellFormedRegistry(reg) && n <= |edits|
  {
    forall j :: 0 <= j < n ==> !Acceptable(reg, s, edits[j], replaced)
  }

  lemma OneMoreUnacceptable(reg: Registry, s: Snapshot, edits: seq<Edit>, n: nat, replaced: set<Id>)
    requires WellFormedRegistry(reg) && n < |edits|
    requires NoneAcceptable(reg, s, edits, n, replaced) && !Acceptable(reg, s, edits[n], replaced)
    ensures NoneAcceptable(reg, s, edits, n + 1, replaced)
  {
  }

  /** The first of the candidates that leaves a valid graph, none exactly if there is no such. */
  method TryEdits(reg: Registry, s: Snapshot, edits: seq<Edit>, replaced: set<Id>)
    returns (found: Option<Edit>, ghost at: nat)
    requires WellFormedRegistry(reg)
    ensures at <= |edits| && NoneAcceptable(reg, s, edits, at, replaced)
    ensures found == if at < |edits| then Some(edits[at]) else None
    ensures found.Some? ==> Acceptable(reg, s, found.value, replaced)
  {
    at, found := 0, None;
    for i := 0 to |edits|
      invariant at == i && NoneAcceptable(reg, s, edits, i, replaced)
    {
      var acceptable := IsAcceptable(reg, s, edits[i], replaced);
      if acceptable {
        return Some(edits[i]), i;
      }
      OneMoreUnacceptable(reg, s, edits, i, replaced);
      at := i + 1;
    }
  }

  datatype Outcome = Done(snapshot: Snapshot, ids: set<Id>) | UnknownNode | InvalidGraph

  /** `randomize_graph_nodes`: it fails exactly on an unknown selection or an invalid graph; otherwise the
      result is a valid graph that consists of exactly the unselected nodes, unchanged, and at least one
      replacement. */
  method RandomizeNodes(reg: Registry, s: Snapshot, targets: set<Id>, draws: seq<Draw>, last: Draw,
                        parameters: seq<map<Id, Values>>, rounds: seq<seq<Edit>>)
    returns (r: Outcome)
    requires WellFormedRegistry(reg)
    requires forall i :: 0 <= i < |draws| ==> draws[i].ids.Keys == targets
    requires Valid(reg, s) && targets <= NodeIds(s) ==> Fresh(s, targets, last) && KeepsTypes(last)
    ensures r.UnknownNode? <==> targets != {} && !(targets <= NodeIds(s))
    ensures r.InvalidGraph? <==> targets != {} && targets <= NodeIds(s) && !Valid(reg, s)
    ensures r.Done? && targets == {} ==> r.snapshot == s
    ensures r.Done? && targets != {} ==> Valid(reg, r.snapshot) && KeepsSurroundings(s, targets, r.snapshot)
    ensures r.Done? && targets != {} ==>
              r.ids != {} && OutsideIds(s, targets, r.ids) && NodeIds(r.snapshot) == (NodeIds(s) - targets) + r.ids
  {
    if targets == {} {
      return Done(s, {});
    }
    if !(targets <= NodeIds(s)) {
      return UnknownNode;
    }
    var valid := IsValid(reg, s);
    if !valid {
      return InvalidGraph;
    }
    var current, replaced, _ := ReplaceNodeSet(reg, s, targets, draws, last, parameters);
    for i := 0 to |rounds|
      invariant Valid(reg, current) && KeepsSurroundings(s, targets, current) && OutsideIds(s, targets, replaced)
      invariant replaced != {} && NodeIds(current) == (NodeIds(s) - targets) + replaced
    {
      var found, _ := TryEdits(reg, current, rounds[i], replaced);
      if found.None? {
        break;
      }
      EditKeepsSurroundings(s, targets, current, found.value, replaced);
      EditKeepsIds(s, targets, current, found.value, replaced);
      current, replaced := Edited(current, found.value, replaced), ReplacedAfter(found.value, replaced);
    }
    r := Done(current, replaced);
  }
}
