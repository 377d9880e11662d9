/** Type resolution over a graph's connections (`_resolve_types`), against its order-free meaning. */
module TypeInference {
  import opened Common
  import opened NodeContracts
  import opened Reach
  import opened TypeGroups
  import opened GraphModel

  type ExprTable = map<PortKey, TypeExpr>

  function VarOf(k: PortKey, e: TypeExpr): VarKey
    requires !e.Concrete?
  {
    VarKey(k.node, e.name)
  }

  /* ---- what the ports declare ---- */

  function DefaultOf(e: TypeExpr): Option<PortType> { if e.Variable? then e.default else None }

  function DeclaredVars(t: ExprTable): set<VarKey> {
    set k | k in t && !t[k].Concrete? :: VarOf(k, t[k])
  }

  function DeclaredBounds(t: ExprTable): set<(VarKey, set<PortType>)> {
    set k | k in t && !t[k].Concrete? && t[k].allowed != {} :: (VarOf(k, t[k]), t[k].allowed)
  }

  function DeclaredDefaults(t: ExprTable): set<(VarKey, PortType)> {
    set k | k in t && !t[k].Concrete? && DefaultOf(t[k]).Some? :: (VarOf(k, t[k]), DefaultOf(t[k]).value)
  }

  /* ---- what the connections say ---- */

  predicate InTable(t: ExprTable, c: Connection) { SourceKey(c) in t && TargetKey(c) in t }

  predicate IsLink(t: ExprTable, c: Connection) {
    InTable(t, c) && !t[SourceKey(c)].Concrete? && !t[TargetKey(c)].Concrete?
  }

  function LinkOf(t: ExprTable, c: Connection): (VarKey, VarKey)
    requires IsLink(t, c)
  {
    (VarOf(SourceKey(c), t[SourceKey(c)]), VarOf(TargetKey(c), t[TargetKey(c)]))
  }

  predicate IsVote(t: ExprTable, c: Connection) {
    InTable(t, c) && (t[SourceKey(c)].Concrete? != t[TargetKey(c)].Concrete?)
  }

  function VoteOf(t: ExprTable, c: Connection): (VarKey, PortType)
    requires IsVote(t, c)
  {
    var s, d := t[SourceKey(c)], t[TargetKey(c)];
    if d.Concrete? then (VarOf(SourceKey(c), s), BaseType(d.portType, s))
    else (VarOf(TargetKey(c), d), BaseType(s.portType, d))
  }

  function FactsOf(t: ExprTable, conns: set<Connection>): Facts {
    Facts(DeclaredVars(t),
          set c | c in conns && IsLink(t, c) :: LinkOf(t, c),
          DeclaredBounds(t),
          DeclaredDefaults(t),
          set c | c in conns && IsVote(t, c) :: VoteOf(t, c))
  }

  /** The type of a port: its own if concrete, otherwise what its variable means. */
  ghost function TypeIn(t: ExprTable, f: Facts, k: PortKey): Option<PortType>
    requires k in t
  {
    match t[k]
    case Concrete(p) => Some(p)
    case Variable(_, _, _) => Meaning(f, VarOf(k, t[k]))
    case ArrayVariable(_, _) =>
      var m := Meaning(f, VarOf(k, t[k]));
      if m.Some? && m.value in ELEMENT_TYPES then Some(ArrayOf(m.value)) else None
  }

  ghost function TypeOf(g: Graph, k: PortKey): Option<PortType>
    requires WellFormedGraph(g) && IsPort(g, k)
  {
    TypeIn(Expressions(g), FactsOf(Expressions(g), g.conns), k)
  }

  ghost predicate BoundedTable(t: ExprTable) { forall k :: k in t ==> ArrayVariableBounded(t[k]) }

  /** A settled array variable has an array type: forming it never fails. */
  lemma SettledArrayHasType(t: ExprTable, conns: set<Connection>, k: PortKey)
    requires BoundedTable(t) && k in t && t[k].ArrayVariable?
    requires Meaning(FactsOf(t, conns), VarOf(k, t[k])).Some?
    ensures Meaning(FactsOf(t, conns), VarOf(k, t[k])).value in ELEMENT_TYPES
  {
    var f := FactsOf(t, conns);
    var v := VarOf(k, t[k]);
    var b := (v, t[k].allowed);
    assert ArrayVariableBounded(t[k]);
    assert b in f.bounds;
    LinkedReflexive(f.links, v);
    SettledTypeIsAllowed(f, v, b);
  }

  /* ---- what the meaning comes to ---- */

  lemma LinkedMeanTheSame(f: Facts, u: VarKey, v: VarKey)
    requires Linked(f.links, u, v)
    ensures Meaning(f, u) == Meaning(f, v)
  {
    forall w ensures Linked(f.links, u, w) <==> Linked(f.links, v, w) {
      LinkedSymmetric(f.links, u, v);
      if Linked(f.links, u, w) { LinkedTransitive(f.links, v, u, w); }
      if Linked(f.links, v, w) { LinkedTransitive(f.links, u, v, w); }
    }
    assert Candidates(f, u) == Candidates(f, v) && Defaults(f, u) == Defaults(f, v);
    forall b ensures BoundsType(f, u, b) <==> BoundsType(f, v, b) { }
    assert AdmittedBy(f, u) == AdmittedBy(f, v);
  }

  /** A variable for which a type was proposed settles to that, or to Float if it was Int, or not at all. */
  lemma ProposedOrWidened(f: Facts, vote: (VarKey, PortType))
    requires vote in f.votes && Meaning(f, vote.0).Some?
    ensures var t := Meaning(f, vote.0).value; t == vote.1 || (t == Float && vote.1 == Int)
  {
    LinkedReflexive(f.links, vote.0);
    assert vote.1 in Candidates(f, vote.0);
    MeaningIs(f, vote.0, Meaning(f, vote.0).value);
  }

  /** The only connection to a node joins `k` and a port of the fixed type `q`. */
  ghost predicate OnlyJoins(t: ExprTable, conns: set<Connection>, c: Connection, k: PortKey, q: PortType) {
    && c in conns && InTable(t, c)
    && ((SourceKey(c) == k && t[TargetKey(c)] == Concrete(q)) || (TargetKey(c) == k && t[SourceKey(c)] == Concrete(q)))
    && forall d :: d in conns && d != c ==> d.src != k.node && d.dst != k.node
  }

  /** A variable to which one connection proposes a type that all its declarations admit settles to that. An array
      variable is proposed the element of an array, or an element, and its port is the array of it. */
  lemma OneProposalSettles(t: ExprTable, conns: set<Connection>, c: Connection, k: PortKey, q: PortType,
                           element: PortType)
    requires k in t && !t[k].Concrete? && OnlyJoins(t, conns, c, k, q)
    requires if t[k].Variable? then element == q
             else (q, element) in {(ScalarArray, Float), (ImageArray, Image), (ChannelArray, Channel), (Float, Float),
                                   (Int, Int), (Image, Image), (Channel, Channel)}
    requires forall j :: j in t && j.node == k.node && !t[j].Concrete? && t[j].name == t[k].name ==>
               t[j].allowed == {} || element in t[j].allowed
    ensures TypeIn(t, FactsOf(t, conns), k) ==
            Some(if t[k].Variable? then q else if q in {Float, Int} then ScalarArray
                 else if q == Image then ImageArray else if q == Channel then ChannelArray else q)
  {
    assert VoteOf(t, c) == (VarOf(k, t[k]), element);
    OnlyVoteDecides(t, conns, c, k, q, element);
  }

  lemma OnlyVoteDecides(t: ExprTable, conns: set<Connection>, c: Connection, k: PortKey, q: PortType,
                        element: PortType)
    requires k in t && !t[k].Concrete? && OnlyJoins(t, conns, c, k, q) && IsVote(t, c)
    requires VoteOf(t, c) == (VarOf(k, t[k]), element)
    requires forall j :: j in t && j.node == k.node && !t[j].Concrete? && t[j].name == t[k].name ==>
               t[j].allowed == {} || element in t[j].allowed
    ensures Meaning(FactsOf(t, conns), VarOf(k, t[k])) == Some(element)
  {
    var f, v := FactsOf(t, conns), VarOf(k, t[k]);
    OnlyVote(t, conns, c, k, q);
    assert Candidates(f, v) == {element};
    assert WithinBounds(f, v);
    MeaningIs(f, v, element);
  }

  lemma OnlyVote(t: ExprTable, conns: set<Connection>, c: Connection, k: PortKey, q: PortType)
    requires k in t && !t[k].Concrete? && OnlyJoins(t, conns, c, k, q) && IsVote(t, c)
    ensures var f, v := FactsOf(t, conns), VarOf(k, t[k]);
            && (forall w :: Linked(f.links, v, w) <==> w == v)
            && (forall p :: p in f.votes && p.0 == v <==> p == VoteOf(t, c))
  {
    var f, v := FactsOf(t, conns), VarOf(k, t[k]);
    forall l | l in f.links ensures l.0 != v && l.1 != v {
      var d :| d in conns && IsLink(t, d) && LinkOf(t, d) == l;
    }
    forall w ensures Linked(f.links, v, w) <==> w == v { LinkedAlone(f.links, v, w); }
    forall p | p in f.votes && p.0 == v ensures p == VoteOf(t, c) {
      var d :| d in conns && IsVote(t, d) && VoteOf(t, d) == p;
    }
    assert VoteOf(t, c) in f.votes;
  }

  /** A variable with one default, which nothing is connected to and whose declarations agree, settles to it. */
  lemma DefaultApplies(t: ExprTable, conns: set<Connection>, k: PortKey, d: PortType)
    requires k in t && t[k].Variable? && t[k].default == Some(d)
    requires forall c :: c in conns ==> c.src != k.node && c.dst != k.node
    requires forall j :: j in t && j.node == k.node && !t[j].Concrete? && t[j].name == t[k].name ==>
               (t[j].allowed == {} || d in t[j].allowed)
                 && (t[j].Variable? && t[j].default.Some? ==> t[j].default == Some(d))
    ensures TypeIn(t, FactsOf(t, conns), k) == Some(d)
  {
    var f, v := FactsOf(t, conns), VarOf(k, t[k]);
    assert forall l :: l in f.links ==> l.0 != v && l.1 != v;
    forall w ensures Linked(f.links, v, w) <==> w == v { LinkedAlone(f.links, v, w); }
    assert Candidates(f, v) == {};
    assert (v, d) in f.defaults;
    assert Defaults(f, v) == {d};
    MeaningIs(f, v, d);
  }

  predicate Fits(source: PortType, destination: PortType) {
    || source == destination
    || (source, destination) in {(Int, Float), (Int, ScalarArray), (Float, ScalarArray), (Image, ImageArray),
                                 (Channel, ChannelArray)}
  }

  /** Whether a connection misfits once both ends have settled. Two fixed types fit or not by the table; into a
      variable a fixed type always fits; out of one into a fixed type it fails only where a Float would have to be read
      as an Int; and an array fits nothing but an array. */
  ghost predicate MisfitsBy(t: ExprTable, f: Facts, c: Connection)
    requires InTable(t, c)
  {
    var source, destination := t[SourceKey(c)], t[TargetKey(c)];
    if source.Concrete? && destination.Concrete? then !Fits(source.portType, destination.portType)
    else if source.Concrete? then false
    else if !destination.Concrete? then source.ArrayVariable? && destination.Variable?
    else if source.Variable? then destination.portType == Int && TypeIn(t, f, SourceKey(c)) == Some(Float)
    else destination.portType !in {ScalarArray, ImageArray, ChannelArray}
  }

  lemma MisfitCases(t: ExprTable, conns: set<Connection>, c: Connection)
    requires BoundedTable(t) && c in conns && InTable(t, c)
    requires TypeIn(t, FactsOf(t, conns), SourceKey(c)).Some? && TypeIn(t, FactsOf(t, conns), TargetKey(c)).Some?
    ensures Misfit(t, FactsOf(t, conns), c) <==> MisfitsBy(t, FactsOf(t, conns), c)
  {
    var f := FactsOf(t, conns);
    if IsLink(t, c) {
      LinkedEndsAgree(t, conns, c);
    } else if IsVote(t, c) {
      assert VoteOf(t, c) in f.votes;
      ProposedOrWidened(f, VoteOf(t, c));
    }
  }

  lemma LinkedEndsAgree(t: ExprTable, conns: set<Connection>, c: Connection)
    requires c in conns && IsLink(t, c)
    ensures var f := FactsOf(t, conns); Meaning(f, LinkOf(t, c).0) == Meaning(f, LinkOf(t, c).1)
  {
    var f := FactsOf(t, conns);
    assert LinkOf(t, c) in f.links;
    LinkedDirectly(f.links, LinkOf(t, c).0, LinkOf(t, c).1);
    LinkedMeanTheSame(f, LinkOf(t, c).0, LinkOf(t, c).1);
  }

  /* ---- the algorithm ---- */

  method DeclareVariables(groups: Groups, t: ExprTable)
    requires groups.Valid() && groups.facts == Facts({}, {}, {}, {}, {})
    modifies groups
    ensures groups.Valid() && groups.facts == FactsOf(t, {})
    ensures forall k :: k in groups.parent ==> groups.parent[k] == k
  {
    var todo := t.Keys;
    ghost var done: ExprTable := map[];
    while todo != {}
      invariant todo <= t.Keys && done.Keys == t.Keys - todo && forall k :: k in done ==> done[k] == t[k]
      invariant groups.Valid() && groups.facts == FactsOf(done, {})
      invariant forall k :: k in groups.parent ==> groups.parent[k] == k
      decreases todo
    {
      var k :| k in todo;
      FactsOfOneMore(done, k, t[k]);
      if !t[k].Concrete? {
        groups.Add(VarOf(k, t[k]), t[k].allowed, DefaultOf(t[k]));
      }
      done := done[k := t[k]];
      todo := todo - {k};
    }
    assert done == t;
  }

  lemma DeclaredVarsGrow(t: ExprTable, k: PortKey, e: TypeExpr)
    requires k !in t
    ensures DeclaredVars(t[k := e]) == DeclaredVars(t) + if e.Concrete? then {} else {VarOf(k, e)}
  {
    var u := t[k := e];
    assert u[k] == e && forall x :: x in t ==> u[x] == t[x];
  }

  lemma DeclaredBoundsGrow(t: ExprTable, k: PortKey, e: TypeExpr)
    requires k !in t
    ensures DeclaredBounds(t[k := e]) ==
            DeclaredBounds(t) + if e.Concrete? || e.allowed == {} then {} else {(VarOf(k, e), e.allowed)}
  {
    var u := t[k := e];
    assert u[k] == e && forall x :: x in t ==> u[x] == t[x];
  }

  lemma DeclaredDefaultsGrow(t: ExprTable, k: PortKey, e: TypeExpr)
    requires k !in t
    ensures DeclaredDefaults(t[k := e]) ==
            DeclaredDefaults(t) + if e.Concrete? || DefaultOf(e).None? then {} else {(VarOf(k, e), DefaultOf(e).value)}
  {
    var u := t[k := e];
    assert u[k] == e && forall x :: x in t ==> u[x] == t[x];
  }

  lemma FactsOfOneMore(t: ExprTable, k: PortKey, e: TypeExpr)
    requires k !in t
    ensures FactsOf(t[k := e], {}) ==
            if e.Concrete? then FactsOf(t, {}) else Declared(FactsOf(t, {}), VarOf(k, e), e.allowed, DefaultOf(e))
  {
    DeclaredVarsGrow(t, k, e);
    DeclaredBoundsGrow(t, k, e);
    DeclaredDefaultsGrow(t, k, e);
  }

  function Prefix(conns: seq<Connection>, n: nat): set<Connection>
    requires n <= |conns|
  {
    set i | 0 <= i < n :: conns[i]
  }

  lemma PrefixGrows(conns: seq<Connection>, n: nat)
    requires n < |conns|
    ensures Prefix(conns, n + 1) == Prefix(conns, n) + {conns[n]}
  {
  }

  lemma FactsOfConnection(t: ExprTable, conns: set<Connection>, c: Connection)
    requires InTable(t, c)
    ensures var f, g := FactsOf(t, conns), FactsOf(t, conns + {c});
            if IsLink(t, c) then g == f.(links := f.links + {LinkOf(t, c)})
            else if IsVote(t, c) then g == f.(votes := f.votes + {VoteOf(t, c)})
            else g == f
  {
    var f, g := FactsOf(t, conns), FactsOf(t, conns + {c});
    assert g.links == if IsLink(t, c) then f.links + {LinkOf(t, c)} else f.links;
    assert g.votes == if IsVote(t, c) then f.votes + {VoteOf(t, c)} else f.votes;
  }

  method ApplyConnections(groups: Groups, t: ExprTable, conns: seq<Connection>)
    requires groups.Valid() && groups.facts == FactsOf(t, {})
    requires forall c :: c in conns ==> InTable(t, c)
    modifies groups
    ensures groups.Valid() && groups.facts == FactsOf(t, AsSet(conns))
  {
    for i := 0 to |conns|
      invariant groups.Valid() && groups.facts == FactsOf(t, Prefix(conns, i))
      invariant groups.parent.Keys == DeclaredVars(t)
    {
      var c := conns[i];
      FactsOfConnection(t, Prefix(conns, i), c);
      PrefixGrows(conns, i);
      if IsLink(t, c) {
        var link := LinkOf(t, c);
        groups.Union(link.0, link.1);
      } else if IsVote(t, c) {
        var vote := VoteOf(t, c);
        groups.Constrain(vote.0, vote.1);
      }
    }
    assert Prefix(conns, |conns|) == AsSet(conns);
  }

  /** An issue raised for the type variable of a checked port. */
  ghost predicate VariableIssue(t: ExprTable, f: Facts, checked: set<PortKey>, x: Issue) {
    exists k ::
      && k in checked && k in t && !t[k].Concrete? && Meaning(f, VarOf(k, t[k])).None?
      && x == if Clash(f, VarOf(k, t[k])) != {} then GenericTypeConflict(k.node, k.port)
              else UnresolvedGenericType(k.node, k.port)
  }

  method SettlePorts(groups: Groups, t: ExprTable, ghost conns: set<Connection>, checked: set<PortKey>)
    returns (resolved: map<PortKey, Option<PortType>>, issues: seq<Issue>)
    requires groups.Valid() && groups.facts == FactsOf(t, conns) && BoundedTable(t)
    modifies groups
    ensures resolved.Keys == t.Keys
    ensures forall k :: k in t ==> resolved[k] == TypeIn(t, FactsOf(t, conns), k)
    ensures forall x :: x in issues <==> VariableIssue(t, FactsOf(t, conns), checked, x)
  {
    ghost var f := FactsOf(t, conns);
    resolved, issues := map[], [];
    var todo := t.Keys;
    while todo != {}
      invariant todo <= t.Keys && resolved.Keys == t.Keys - todo
      invariant groups.Valid() && groups.facts == f && groups.parent.Keys == DeclaredVars(t)
      invariant forall k :: k in resolved ==> resolved[k] == TypeIn(t, f, k)
      invariant forall x :: x in issues <==> VariableIssue(t, f, checked - todo, x)
      decreases todo
    {
      var k :| k in todo;
      ghost var before := checked - todo;
      todo := todo - {k};
      assert forall j :: j in checked - todo <==> j in before || (j == k && k in checked);
      var found: Option<PortType>;
      var raised: seq<Issue> := [];
      if t[k].Concrete? {
        found := Some(t[k].portType);
      } else {
        var v := VarOf(k, t[k]);
        var clash := groups.IncompatibleCandidates(v);
        var value := groups.Resolve(v);
        if clash != {} {
          if value.Some? { SettledTypeIsAllowed(f, v, (v, {})); }
          found := None;
          raised := if k in checked then [GenericTypeConflict(k.node, k.port)] else [];
        } else if value.None? {
          found := None;
          raised := if k in checked then [UnresolvedGenericType(k.node, k.port)] else [];
        } else if t[k].ArrayVariable? {
          SettledArrayHasType(t, conns, k);
          found := Some(ArrayOf(value.value));
        } else {
          found := value;
        }
      }
      resolved := resolved[k := found];
      VariableIssuesGrow(t, f, before, checked - todo, k, raised);
      issues := issues + raised;
    }
    assert checked - todo == checked;
  }

  lemma VariableIssuesGrow(t: ExprTable, f: Facts, before: set<PortKey>, after: set<PortKey>, k: PortKey,
                           raised: seq<Issue>)
    requires k in t && before <= after && forall j :: j in after ==> j in before || j == k
    requires raised ==
             if k in after && !t[k].Concrete? && Meaning(f, VarOf(k, t[k])).None? then
               [if Clash(f, VarOf(k, t[k])) != {} then GenericTypeConflict(k.node, k.port)
                else UnresolvedGenericType(k.node, k.port)]
             else []
    ensures forall x :: VariableIssue(t, f, after, x) <==> VariableIssue(t, f, before, x) || x in raised
  {
    forall x | VariableIssue(t, f, after, x) ensures VariableIssue(t, f, before, x) || x in raised {
      var j :| && j in after && j in t && !t[j].Concrete? && Meaning(f, VarOf(j, t[j])).None?
               && x == if Clash(f, VarOf(j, t[j])) != {} then GenericTypeConflict(j.node, j.port)
                       else UnresolvedGenericType(j.node, j.port);
      assert j in before || j == k;
    }
  }

  /** A connection whose two ends have settled to types that do not fit. */
  ghost predicate MisfitIssue(t: ExprTable, f: Facts, conns: set<Connection>, x: Issue) {
    exists c :: c in conns && Misfit(t, f, c) && x == IncompatiblePortTypes(c.dst, c.id, c.dstPort)
  }

  ghost predicate Misfit(t: ExprTable, f: Facts, c: Connection) {
    && InTable(t, c)
    && var s, d := TypeIn(t, f, SourceKey(c)), TypeIn(t, f, TargetKey(c));
       s.Some? && d.Some? && !TypesCompatible(s.value, d.value)
  }

  method CheckCompatibility(t: ExprTable, ghost f: Facts, conns: seq<Connection>,
                            resolved: map<PortKey, Option<PortType>>)
    returns (issues: seq<Issue>)
    requires forall c :: c in conns ==> InTable(t, c)
    requires resolved.Keys == t.Keys && forall k :: k in t ==> resolved[k] == TypeIn(t, f, k)
    ensures forall x :: x in issues <==> MisfitIssue(t, f, AsSet(conns), x)
  {
    issues := [];
    for i := 0 to |conns|
      invariant forall x :: x in issues <==> MisfitIssue(t, f, Prefix(conns, i), x)
    {
      var c := conns[i];
      assert InTable(t, c);
      PrefixGrows(conns, i);
      var s, d := resolved[SourceKey(c)], resolved[TargetKey(c)];
      ghost var before := issues;
      if s.Some? && d.Some? && !TypesCompatible(s.value, d.value) {
        issues := issues + [IncompatiblePortTypes(c.dst, c.id, c.dstPort)];
      }
      forall x ensures x in issues <==> MisfitIssue(t, f, Prefix(conns, i + 1), x) {
        if MisfitIssue(t, f, Prefix(conns, i + 1), x) && !MisfitIssue(t, f, Prefix(conns, i), x) {
          assert Misfit(t, f, c) && x == IncompatiblePortTypes(c.dst, c.id, c.dstPort);
        }
        if x in issues && x !in before { assert c in Prefix(conns, i + 1) && Misfit(t, f, c); }
      }
    }
    assert Prefix(conns, |conns|) == AsSet(conns);
  }

  /** `_resolve_types`: every port of the table settles to its meaning, exactly the unsettled checked
      ports and the misfitting connections are reported, and neither depends on any processing order. */
  method ResolveTypes(t: ExprTable, conns: seq<Connection>, checked: set<PortKey>)
    returns (resolved: map<PortKey, Option<PortType>>, issues: seq<Issue>)
    requires BoundedTable(t) && forall c :: c in conns ==> InTable(t, c)
    ensures resolved.Keys == t.Keys
    ensures var f := FactsOf(t, AsSet(conns));
            && (forall k :: k in t ==> resolved[k] == TypeIn(t, f, k))
            && (forall x :: x in issues <==> VariableIssue(t, f, checked, x) || MisfitIssue(t, f, AsSet(conns), x))
  {
    ghost var all := AsSet(conns);
    var groups := new Groups();
    DeclareVariables(groups, t);
    ApplyConnections(groups, t, conns);
    var unsettled;
    resolved, unsettled := SettlePorts(groups, t, all, checked);
    var misfits := CheckCompatibility(t, FactsOf(t, all), conns, resolved);
    issues := unsettled + misfits;
  }
}
