/** Union-find over node-local type variables, and the order-free meaning it computes (`_TypeGroups`). */
module TypeGroups {
  import opened Common
  import opened PortNames
  import opened NodeContracts
  import opened Reach

  /** A type variable of one node. */
  datatype VarKey = VarKey(node: Id, name: Name)

  /** The order `(str(node), name)` that decides which of two roots stays a root. */
  predicate KeyLess(a: VarKey, b: VarKey) {
    a.node < b.node || (a.node == b.node && NameLess(a.name, b.name))
  }

  lemma KeyOrder(a: VarKey, b: VarKey)
    ensures !(KeyLess(a, b) && KeyLess(b, a)) && !KeyLess(a, a)
    ensures KeyLess(a, b) || KeyLess(b, a) || a == b
  {
    NameOrderTotal(a.name, b.name);
  }

  lemma KeyOrderTransitive(a: VarKey, b: VarKey, c: VarKey)
    requires KeyLess(a, b) && KeyLess(b, c)
    ensures KeyLess(a, c)
  {
    if a.node == b.node == c.node {
      NameOrderTransitive(a.name, b.name, c.name);
    }
  }

  /* ---- the declarative meaning ---- */

  /** Everything that was ever said about the variables, as sets: no order, no repetition. */
  datatype Facts = Facts(
    vars: set<VarKey>,
    links: set<(VarKey, VarKey)>,
    bounds: set<(VarKey, set<PortType>)>,
    defaults: set<(VarKey, PortType)>,
    votes: set<(VarKey, PortType)>)

  ghost predicate WellScoped(f: Facts) {
    && (forall l :: l in f.links ==> l.0 in f.vars && l.1 in f.vars)
    && (forall b :: b in f.bounds ==> b.0 in f.vars)
    && (forall d :: d in f.defaults ==> d.0 in f.vars)
    && (forall v :: v in f.votes ==> v.0 in f.vars)
  }

  /** The concrete types proposed for any variable linked with `v`. */
  ghost function Candidates(f: Facts, v: VarKey): set<PortType> {
    set p | p in f.votes && Linked(f.links, v, p.0) :: p.1
  }

  ghost function Defaults(f: Facts, v: VarKey): set<PortType> {
    set p | p in f.defaults && Linked(f.links, v, p.0) :: p.1
  }

  ghost predicate BoundsType(f: Facts, v: VarKey, b: (VarKey, set<PortType>)) {
    b in f.bounds && Linked(f.links, v, b.0)
  }

  ghost predicate Admits(f: Facts, v: VarKey, t: PortType) {
    forall b :: BoundsType(f, v, b) ==> t in b.1
  }

  /** The intersection of the allowed sets of the variables linked with `v`, if any of them has one. */
  ghost function Allowed(f: Facts, v: VarKey): Option<set<PortType>> {
    if exists b :: BoundsType(f, v, b)
    then Some(AdmittedBy(f, v))
    else None
  }

  ghost function AdmittedBy(f: Facts, v: VarKey): set<PortType> {
    set t: PortType | Admits(f, v, t)
  }

  /** How a class settles, from its three summaries alone. */
  function Settle(candidates: set<PortType>, allowed: Option<set<PortType>>,
                  defaults: set<PortType>): Option<PortType> {
    if allowed.Some? && !(candidates <= allowed.value) then None
    else if candidates == {} then
      if |defaults| == 1 && (allowed.None? || Only(defaults) in allowed.value) then Some(Only(defaults)) else None
    else if |candidates| == 1 then Some(Only(candidates))
    else if candidates <= {Int, Float} then Some(Float)
    else None
  }

  function Conflict(candidates: set<PortType>, allowed: Option<set<PortType>>): set<PortType> {
    if allowed.Some? && !(candidates <= allowed.value) then candidates - allowed.value
    else if |candidates| <= 1 || candidates <= {Int, Float} then {}
    else candidates
  }

  /** The type of `v`, a function of the facts only. */
  ghost function Meaning(f: Facts, v: VarKey): Option<PortType> {
    Settle(Candidates(f, v), Allowed(f, v), Defaults(f, v))
  }

  ghost function Clash(f: Facts, v: VarKey): set<PortType> {
    Conflict(Candidates(f, v), Allowed(f, v))
  }

  /** Every allowed set of the class admits every type proposed for it. */
  ghost predicate WithinBounds(f: Facts, v: VarKey) {
    forall b, t :: BoundsType(f, v, b) && t in Candidates(f, v) ==> t in b.1
  }

  lemma WithinAllowed(f: Facts, v: VarKey)
    ensures WithinBounds(f, v) <==> Allowed(f, v).None? || Candidates(f, v) <= Allowed(f, v).value
  {
    if Allowed(f, v).Some? && Candidates(f, v) <= Allowed(f, v).value {
      forall b, t | BoundsType(f, v, b) && t in Candidates(f, v) ensures t in b.1 {
        assert t in AdmittedBy(f, v);
      }
    }
    if WithinBounds(f, v) {
      forall t | t in Candidates(f, v) ensures Admits(f, v, t) { }
    }
  }

  /** When a class settles, and to what: the one type proposed; Float if Int and Float both were; the one default, if
      nothing was proposed and every allowed set admits it; and in no other case. */
  lemma MeaningIs(f: Facts, v: VarKey, t: PortType)
    ensures Meaning(f, v) == Some(t) <==>
            && WithinBounds(f, v)
            && (|| Candidates(f, v) == {t}
                || (Candidates(f, v) == {Int, Float} && t == Float)
                || (Candidates(f, v) == {} && Defaults(f, v) == {t} && Admits(f, v, t)))
  {
    var c, d := Candidates(f, v), Defaults(f, v);
    WithinAllowed(f, v);
    SmallSets(c);
    SmallSets(d);
    assert Allowed(f, v).None? ==> Admits(f, v, t);
    assert Allowed(f, v).Some? ==> (t in Allowed(f, v).value <==> Admits(f, v, t));
  }

  lemma SmallSets(s: set<PortType>)
    ensures s == {} <==> |s| == 0
    ensures forall t :: s == {t} <==> |s| == 1 && Only(s) == t
    ensures |s| > 1 && s <= {Int, Float} <==> s == {Int, Float}
  {
    forall t | s == {t} ensures |s| == 1 && Only(s) == t {
      assert Only(s) in s;
    }
    if |s| > 1 && s <= {Int, Float} {
      if Int !in s { SubsetSize(s, {Float}); }
      if Float !in s { SubsetSize(s, {Int}); }
    }
  }

  /** What clashes: the proposed types that some allowed set excludes; if there are none, all of them, when they are
      several and not just Int and Float. */
  lemma ClashIs(f: Facts, v: VarKey, t: PortType)
    ensures t in Clash(f, v) <==>
            && t in Candidates(f, v)
            && if WithinBounds(f, v) then Candidates(f, v) != {t} && Candidates(f, v) != {Int, Float}
               else !Admits(f, v, t)
  {
    var c := Candidates(f, v);
    WithinAllowed(f, v);
    SmallSets(c);
    assert Allowed(f, v).None? ==> Admits(f, v, t);
    assert Allowed(f, v).Some? ==> (t in Allowed(f, v).value <==> Admits(f, v, t));
  }

  /** A settled type lies in every allowed set of the class, widening included, and never clashes. */
  lemma SettledTypeIsAllowed(f: Facts, v: VarKey, b: (VarKey, set<PortType>))
    requires Meaning(f, v).Some?
    ensures Clash(f, v) == {}
    ensures BoundsType(f, v, b) ==> Meaning(f, v).value in b.1
  {
    if BoundsType(f, v, b) {
      var t := Meaning(f, v).value;
      MeaningIs(f, v, t);
    }
  }

  /* ---- the parent forest ---- */

  type Parents = map<VarKey, VarKey>

  /** A parent is never above its child in the key order. */
  ghost predicate Forest(p: Parents) {
    forall k {:trigger ParentBelow(p, k)} :: k in p ==> ParentBelow(p, k)
  }

  ghost predicate ParentBelow(p: Parents, k: VarKey)
    requires k in p
  {
    p[k] in p && (p[k] == k || KeyLess(p[k], k))
  }

  ghost function Rank(p: Parents, k: VarKey): nat {
    |set x | x in p && KeyLess(x, k)|
  }

  lemma RankDrops(p: Parents, a: VarKey, b: VarKey)
    requires a in p && KeyLess(a, b)
    ensures Rank(p, a) < Rank(p, b)
  {
    var below, above := set x | x in p && KeyLess(x, a), set x | x in p && KeyLess(x, b);
    forall x | x in below ensures x in above { KeyOrderTransitive(x, a, b); }
    KeyOrder(a, a);
    assert a in above && a !in below;
    SubsetSize(below, above);
  }

  lemma ParentRankDrops(p: Parents, k: VarKey)
    requires Forest(p) && k in p && p[k] != k
    ensures p[k] in p && Rank(p, p[k]) < Rank(p, k)
  {
    assert ParentBelow(p, k);
    RankDrops(p, p[k], k);
  }

  ghost function Root(p: Parents, k: VarKey): (r: VarKey)
    requires Forest(p) && k in p
    ensures r in p && p[r] == r && (r == k <==> p[k] == k) && (r == k || KeyLess(r, k))
    decreases Rank(p, k)
  {
    if p[k] == k then k else
      ParentRankDrops(p, k);
      assert ParentBelow(p, k);
      var r := Root(p, p[k]);
      KeyOrder(r, k);
      if r != p[k] then KeyOrderTransitive(r, p[k], k); r else r
  }

  ghost predicate SameRoots(p: Parents, q: Parents) {
    && Forest(p) && Forest(q) && p.Keys == q.Keys
    && forall k {:trigger Root(p, k)} {:trigger Root(q, k)} :: k in p ==> Root(p, k) == Root(q, k)
  }

  lemma RedirectedForest(p: Parents, child: VarKey, root: VarKey)
    requires Forest(p) && child in p && root in p && (root == child || KeyLess(root, child))
    ensures Forest(p[child := root])
  {
    var q := p[child := root];
    forall k | k in q ensures ParentBelow(q, k) {
      assert k == child || ParentBelow(p, k);
    }
  }

  lemma {:induction false} CompressedRoot(p: Parents, q: Parents, key: VarKey, k: VarKey)
    requires Forest(p) && Forest(q) && key in p && q == p[key := Root(p, key)] && k in p
    ensures Root(q, k) == Root(p, k)
    decreases Rank(p, k)
  {
    if k != key && p[k] != k {
      ParentRankDrops(p, k);
      CompressedRoot(p, q, key, p[k]);
    }
  }

  /** Path compression moves no key to another root. */
  lemma CompressionKeepsRoots(p: Parents, q: Parents, key: VarKey)
    requires Forest(p) && key in p && q == p[key := Root(p, key)]
    ensures SameRoots(p, q)
  {
    RedirectedForest(p, key, Root(p, key));
    forall k | k in p ensures Root(p, k) == Root(q, k) { CompressedRoot(p, q, key, k); }
  }

  lemma {:induction false} AttachedRoot(p: Parents, root: VarKey, child: VarKey, k: VarKey)
    requires Forest(p) && root in p && child in p && p[root] == root && p[child] == child
    requires KeyLess(root, child) && k in p
    ensures Forest(p[child := root])
    ensures Root(p[child := root], k) == if Root(p, k) == child then root else Root(p, k)
    decreases Rank(p, k)
  {
    KeyOrder(root, child);
    RedirectedForest(p, child, root);
    if k != child && p[k] != k {
      ParentRankDrops(p, k);
      AttachedRoot(p, root, child, p[k]);
    }
  }

  /** Two keys share a root exactly when the recorded links connect them. */
  ghost predicate RootsMatch(p: Parents, links: set<(VarKey, VarKey)>)
    requires Forest(p)
  {
    forall a, b {:trigger Linked(links, a, b)} :: a in p && b in p ==>
      (Root(p, a) == Root(p, b) <==> Linked(links, a, b))
  }

  lemma UnionMatches(p: Parents, links: set<(VarKey, VarKey)>, left: VarKey, right: VarKey, root: VarKey, child: VarKey)
    requires Forest(p) && RootsMatch(p, links) && left in p && right in p
    requires {Root(p, left), Root(p, right)} == {root, child} && KeyLess(root, child)
    ensures Forest(p[child := root]) && RootsMatch(p[child := root], links + {(left, right)})
  {
    AttachedRoot(p, root, child, root);
    var q := p[child := root];
    KeyOrder(root, child);
    forall a, b | a in p && b in p
      ensures Root(q, a) == Root(q, b) <==> Linked(links + {(left, right)}, a, b)
    {
      AttachedRoot(p, root, child, a);
      AttachedRoot(p, root, child, b);
      LinkedAfterJoin(links, left, right, a, b);
    }
  }

  /** Linking two variables of one class changes no class. */
  lemma RedundantLink(p: Parents, links: set<(VarKey, VarKey)>, left: VarKey, right: VarKey)
    requires Forest(p) && RootsMatch(p, links) && left in p && right in p && Root(p, left) == Root(p, right)
    ensures RootsMatch(p, links + {(left, right)})
  {
    forall a, b | a in p && b in p
      ensures Root(p, a) == Root(p, b) <==> Linked(links + {(left, right)}, a, b)
    {
      LinkedAfterJoin(links, left, right, a, b);
    }
  }

  /* ---- summaries at the roots ---- */

  type Table = map<VarKey, set<PortType>>

  function EntryOrEmpty(t: Table, k: VarKey): set<PortType> { if k in t then t[k] else {} }

  function Entry(t: Table, k: VarKey): Option<set<PortType>> { if k in t then Some(t[k]) else None }

  function Meet(a: Option<set<PortType>>, b: Option<set<PortType>>): Option<set<PortType>> {
    if a.None? then b else if b.None? then a else Some(a.value * b.value)
  }

  /** Every root of `p` carries the summaries of its class. */
  ghost predicate RootSummaries(p: Parents, f: Facts, candidates: Table, allowed: Table, defaults: Table) {
    forall k {:trigger SummaryAt(f, k, candidates, allowed, defaults)} ::
      k in p && p[k] == k ==> SummaryAt(f, k, candidates, allowed, defaults)
  }

  /** The representation invariant: a forest over the declared variables whose trees are the classes
      of the links, with the class summaries at the roots. */
  ghost predicate Consistent(p: Parents, f: Facts, candidates: Table, allowed: Table, defaults: Table) {
    && Forest(p) && p.Keys == f.vars && WellScoped(f)
    && RootsMatch(p, f.links)
    && candidates.Keys + allowed.Keys + defaults.Keys <= p.Keys
    && RootSummaries(p, f, candidates, allowed, defaults)
  }

  ghost predicate SummaryAt(f: Facts, k: VarKey, candidates: Table, allowed: Table, defaults: Table) {
    && EntryOrEmpty(candidates, k) == Candidates(f, k)
    && Entry(allowed, k) == Allowed(f, k)
    && EntryOrEmpty(defaults, k) == Defaults(f, k)
  }

  /** Classes with the same members have the same summaries. */
  lemma SameClass(f: Facts, g: Facts, a: VarKey, b: VarKey)
    requires f.votes == g.votes && f.bounds == g.bounds && f.defaults == g.defaults
    requires WellScoped(f)
    requires forall x :: x in f.vars ==> (Linked(f.links, a, x) <==> Linked(g.links, b, x))
    ensures Candidates(f, a) == Candidates(g, b) && Defaults(f, a) == Defaults(g, b) && Allowed(f, a) == Allowed(g, b)
  {
    assert forall p :: BoundsType(f, a, p) <==> BoundsType(g, b, p);
    assert AdmittedBy(f, a) == AdmittedBy(g, b);
  }

  /** A class that is the union of two has their united candidates and defaults and their common allowed types. */
  lemma UnitedClass(f: Facts, g: Facts, a: VarKey, b: VarKey)
    requires f.votes == g.votes && f.bounds == g.bounds && f.defaults == g.defaults
    requires WellScoped(f)
    requires forall x :: x in f.vars ==> (Linked(g.links, a, x) <==> Linked(f.links, a, x) || Linked(f.links, b, x))
    ensures Candidates(g, a) == Candidates(f, a) + Candidates(f, b)
    ensures Defaults(g, a) == Defaults(f, a) + Defaults(f, b)
    ensures Allowed(g, a) == Meet(Allowed(f, a), Allowed(f, b))
  {
    assert forall p :: BoundsType(g, a, p) <==> BoundsType(f, a, p) || BoundsType(f, b, p);
    assert AdmittedBy(g, a) == AdmittedBy(f, a) * AdmittedBy(f, b);
    if Allowed(f, a).None? { assert AdmittedBy(g, a) == AdmittedBy(f, b); }
    if Allowed(f, b).None? { assert AdmittedBy(g, a) == AdmittedBy(f, a); }
  }

  /* ---- declarations ---- */

  /** The facts after `add(key, allowed, default)`. */
  function Declared(f: Facts, key: VarKey, allowed: set<PortType>, default: Option<PortType>): Facts {
    f.(vars := f.vars + {key},
       bounds := f.bounds + (if allowed == {} then {} else {(key, allowed)}),
       defaults := f.defaults + (if default.None? then {} else {(key, default.value)}))
  }

  lemma UnlinkedKey(f: Facts, key: VarKey, b: VarKey)
    requires WellScoped(f) && key !in f.vars
    ensures Linked(f.links, key, b) <==> key == b
    ensures Linked(f.links, b, key) <==> key == b
  {
    LinkedReflexive(f.links, key);
    LinkedSymmetric(f.links, key, b);
    assert forall m :: (key, m) !in Symmetric(f.links);
  }

  lemma {:induction false} ExtendedRoot(p: Parents, key: VarKey, k: VarKey)
    requires Forest(p) && key !in p && k in p
    ensures Forest(p[key := key]) && Root(p[key := key], k) == Root(p, k)
    decreases Rank(p, k)
  {
    var q := p[key := key];
    assert Forest(q) by {
      forall x | x in q ensures ParentBelow(q, x) { assert x == key || ParentBelow(p, x); }
    }
    if p[k] == k {
    } else {
      ParentRankDrops(p, k);
      ExtendedRoot(p, key, p[k]);
    }
  }

  /** A new variable is a class of its own. */
  lemma NewKeyMatches(p: Parents, f: Facts, key: VarKey)
    requires Forest(p) && p.Keys == f.vars && WellScoped(f) && RootsMatch(p, f.links) && key !in p
    ensures Forest(p[key := key]) && RootsMatch(p[key := key], f.links)
  {
    var q := p[key := key];
    assert Forest(q) by {
      forall x | x in q ensures ParentBelow(q, x) { assert x == key || ParentBelow(p, x); }
    }
    forall a, b | a in q && b in q ensures Root(q, a) == Root(q, b) <==> Linked(f.links, a, b) {
      if a == key || b == key {
        UnlinkedKey(f, key, if a == key then b else a);
        if a != key { ExtendedRoot(p, key, a); }
        if b != key { ExtendedRoot(p, key, b); }
      } else {
        ExtendedRoot(p, key, a);
        ExtendedRoot(p, key, b);
      }
    }
  }

  lemma DeclarationSummary(f: Facts, key: VarKey, allowed: set<PortType>, default: Option<PortType>, k: VarKey)
    requires WellScoped(f)
    ensures var g := Declared(f, key, allowed, default);
            var here := Linked(f.links, k, key);
            && Candidates(g, k) == Candidates(f, k)
            && Allowed(g, k) == (if here && allowed != {} then Meet(Allowed(f, k), Some(allowed)) else Allowed(f, k))
            && Defaults(g, k) == (if here && default.Some? then Defaults(f, k) + {default.value} else Defaults(f, k))
  {
    var g := Declared(f, key, allowed, default);
    var here := Linked(f.links, k, key);
    assert forall b :: BoundsType(g, k, b) <==> BoundsType(f, k, b) || (here && allowed != {} && b == (key, allowed));
    if here && allowed != {} {
      assert BoundsType(g, k, (key, allowed));
      assert AdmittedBy(g, k) == AdmittedBy(f, k) * allowed;
      if Allowed(f, k).None? { assert AdmittedBy(g, k) == allowed; }
    } else {
      assert AdmittedBy(g, k) == AdmittedBy(f, k);
    }
    assert Candidates(g, k) == Candidates(f, k);
    if here && default.Some? {
      assert (key, default.value) in g.defaults;
      assert Defaults(g, k) == Defaults(f, k) + {default.value};
    } else {
      assert Defaults(g, k) == Defaults(f, k);
    }
  }

  lemma VoteSummary(f: Facts, key: VarKey, t: PortType, k: VarKey)
    ensures var g := f.(votes := f.votes + {(key, t)});
            && Candidates(g, k) == Candidates(f, k) + (if Linked(f.links, k, key) then {t} else {})
            && Allowed(g, k) == Allowed(f, k) && Defaults(g, k) == Defaults(f, k)
  {
    var g := f.(votes := f.votes + {(key, t)});
    assert (key, t) in g.votes;
    assert forall b :: BoundsType(g, k, b) <==> BoundsType(f, k, b);
    assert AdmittedBy(g, k) == AdmittedBy(f, k);
  }

  function WithBound(t: Table, key: VarKey, allowed: set<PortType>): Table {
    if allowed == {} then t else t[key := if key in t then t[key] * allowed else allowed]
  }

  function WithDefault(t: Table, key: VarKey, default: Option<PortType>): Table {
    if default.None? then t else t[key := EntryOrEmpty(t, key) + {default.value}]
  }

  lemma DeclarationKeepsSummary(f: Facts, key: VarKey, bound: set<PortType>, default: Option<PortType>, k: VarKey,
                                candidates: Table, allowed: Table, defaults: Table)
    requires WellScoped(f) && SummaryAt(f, k, candidates, allowed, defaults) && (Linked(f.links, k, key) <==> k == key)
    ensures SummaryAt(Declared(f, key, bound, default), k, candidates,
                      WithBound(allowed, key, bound), WithDefault(defaults, key, default))
  {
    DeclarationSummary(f, key, bound, default, k);
  }

  lemma DeclarationKeepsConsistency(p: Parents, f: Facts, key: VarKey, bound: set<PortType>, default: Option<PortType>,
                                    candidates: Table, allowed: Table, defaults: Table)
    requires Consistent(p, f, candidates, allowed, defaults) && key in p && p[key] == key
    ensures Consistent(p, Declared(f, key, bound, default), candidates,
                       WithBound(allowed, key, bound), WithDefault(defaults, key, default))
  {
    var g := Declared(f, key, bound, default);
    assert g.vars == f.vars && g.links == f.links;
    forall k | k in p && p[k] == k
      ensures SummaryAt(g, k, candidates, WithBound(allowed, key, bound), WithDefault(defaults, key, default))
    {
      assert SummaryAt(f, k, candidates, allowed, defaults);
      assert Linked(f.links, k, key) <==> k == key;
      DeclarationKeepsSummary(f, key, bound, default, k, candidates, allowed, defaults);
    }
  }

  /** A declaration written at a key that is not a root changes nothing that counts. */
  lemma LostDeclaration(p: Parents, f: Facts, key: VarKey, bound: set<PortType>, default: Option<PortType>,
                        candidates: Table, allowed: Table, defaults: Table)
    requires Consistent(p, f, candidates, allowed, defaults) && key in p && p[key] != key
    ensures Consistent(p, f, candidates, WithBound(allowed, key, bound), WithDefault(defaults, key, default))
  {
    forall k | k in p && p[k] == k
      ensures SummaryAt(f, k, candidates, WithBound(allowed, key, bound), WithDefault(defaults, key, default))
    {
      assert SummaryAt(f, k, candidates, allowed, defaults);
    }
  }

  lemma NewKeyKeepsConsistency(p: Parents, f: Facts, key: VarKey, candidates: Table, allowed: Table, defaults: Table)
    requires Consistent(p, f, candidates, allowed, defaults) && key !in p
    ensures Consistent(p[key := key], f.(vars := f.vars + {key}), candidates, allowed, defaults)
  {
    var g := f.(vars := f.vars + {key});
    var q := p[key := key];
    NewKeyMatches(p, f, key);
    NewKeySummary(f, key, candidates, allowed, defaults);
    forall k | k in q && q[k] == k ensures SummaryAt(g, k, candidates, allowed, defaults) {
      assert SummaryAt(f, k, candidates, allowed, defaults);
      SameClass(f, g, k, k);
    }
  }

  lemma NewKeySummary(f: Facts, key: VarKey, candidates: Table, allowed: Table, defaults: Table)
    requires WellScoped(f) && key !in f.vars && key !in candidates && key !in allowed && key !in defaults
    ensures SummaryAt(f, key, candidates, allowed, defaults)
  {
    forall b ensures Linked(f.links, key, b) <==> key == b { UnlinkedKey(f, key, b); }
    assert forall x :: !BoundsType(f, key, x);
    assert Candidates(f, key) == {} && Defaults(f, key) == {};
  }

  /** Linking within one class leaves nothing to update. */
  lemma RedundantLinkKeepsConsistency(p: Parents, f: Facts, left: VarKey, right: VarKey,
                                      candidates: Table, allowed: Table, defaults: Table)
    requires Consistent(p, f, candidates, allowed, defaults)
    requires left in p && right in p && Root(p, left) == Root(p, right)
    ensures Consistent(p, f.(links := f.links + {(left, right)}), candidates, allowed, defaults)
  {
    var g := f.(links := f.links + {(left, right)});
    RedundantLink(p, f.links, left, right);
    forall k | k in p && p[k] == k ensures SummaryAt(g, k, candidates, allowed, defaults) {
      assert SummaryAt(f, k, candidates, allowed, defaults);
      SameClass(f, g, k, k);
    }
  }

  function MergedSets(t: Table, root: VarKey, child: VarKey): (r: Table)
    ensures r.Keys <= t.Keys + {root}
  {
    (t - {child})[root := EntryOrEmpty(t, root) + EntryOrEmpty(t, child)]
  }

  function MergedDefaults(t: Table, root: VarKey, child: VarKey): (r: Table)
    ensures r.Keys <= t.Keys + {root}
  {
    var united := EntryOrEmpty(t, root) + EntryOrEmpty(t, child);
    var rest := t - {root, child};
    if united == {} then rest else rest[root := united]
  }

  function MergedBounds(t: Table, root: VarKey, child: VarKey): (r: Table)
    ensures r.Keys <= t.Keys + {root}
  {
    var common := Meet(Entry(t, root), Entry(t, child));
    var rest := t - {root, child};
    if common.None? then rest else rest[root := common.value]
  }

  lemma MergedSummary(f: Facts, g: Facts, root: VarKey, child: VarKey, k: VarKey,
                      candidates: Table, allowed: Table, defaults: Table)
    requires WellScoped(f) && f.votes == g.votes && f.bounds == g.bounds && f.defaults == g.defaults
    requires root != child && k != child
    requires SummaryAt(f, k, candidates, allowed, defaults) && SummaryAt(f, child, candidates, allowed, defaults)
    requires forall x :: x in f.vars ==>
                           (Linked(g.links, k, x) <==>
                            Linked(f.links, k, x) || (k == root && Linked(f.links, child, x)))
    ensures SummaryAt(g, k, MergedSets(candidates, root, child), MergedBounds(allowed, root, child),
                      MergedDefaults(defaults, root, child))
  {
    if k == root {
      UnitedClass(f, g, root, child);
    } else {
      SameClass(f, g, k, k);
    }
  }

  lemma MergedSummaries(p: Parents, f: Facts, left: VarKey, right: VarKey, root: VarKey, child: VarKey,
                        candidates: Table, allowed: Table, defaults: Table)
    requires Forest(p) && p.Keys == f.vars && WellScoped(f) && RootsMatch(p, f.links)
    requires left in p && right in p && {Root(p, left), Root(p, right)} == {root, child} && KeyLess(root, child)
    requires RootSummaries(p, f, candidates, allowed, defaults)
    ensures RootSummaries(p[child := root], f.(links := f.links + {(left, right)}), MergedSets(candidates, root, child),
                          MergedBounds(allowed, root, child), MergedDefaults(defaults, root, child))
  {
    var g := f.(links := f.links + {(left, right)});
    KeyOrder(root, child);
    forall k | k in p && k != child && p[k] == k
      ensures SummaryAt(g, k, MergedSets(candidates, root, child), MergedBounds(allowed, root, child),
                        MergedDefaults(defaults, root, child))
    {
      assert SummaryAt(f, k, candidates, allowed, defaults);
      assert SummaryAt(f, child, candidates, allowed, defaults);
      forall x | x in f.vars
        ensures Linked(g.links, k, x) <==> Linked(f.links, k, x) || (k == root && Linked(f.links, child, x))
      {
        LinkedAfterJoin(f.links, left, right, k, x);
        assert Root(p, k) == k;
      }
      MergedSummary(f, g, root, child, k, candidates, allowed, defaults);
    }
  }

  lemma MergeKeepsConsistency(p: Parents, f: Facts, left: VarKey, right: VarKey, root: VarKey, child: VarKey,
                              candidates: Table, allowed: Table, defaults: Table)
    requires Consistent(p, f, candidates, allowed, defaults)
    requires left in p && right in p && {Root(p, left), Root(p, right)} == {root, child} && KeyLess(root, child)
    ensures Consistent(p[child := root], f.(links := f.links + {(left, right)}), MergedSets(candidates, root, child),
                       MergedBounds(allowed, root, child), MergedDefaults(defaults, root, child))
  {
    UnionMatches(p, f.links, left, right, root, child);
    MergedSummaries(p, f, left, right, root, child, candidates, allowed, defaults);
  }

  lemma VoteKeepsConsistency(p: Parents, f: Facts, key: VarKey, t: PortType,
                             candidates: Table, allowed: Table, defaults: Table)
    requires Consistent(p, f, candidates, allowed, defaults) && key in p
    ensures Root(p, key) in p
    ensures Consistent(p, f.(votes := f.votes + {(key, t)}),
                       candidates[Root(p, key) := EntryOrEmpty(candidates, Root(p, key)) + {t}], allowed, defaults)
  {
    var g := f.(votes := f.votes + {(key, t)});
    var voted := candidates[Root(p, key) := EntryOrEmpty(candidates, Root(p, key)) + {t}];
    forall k | k in p && p[k] == k ensures SummaryAt(g, k, voted, allowed, defaults) {
      assert SummaryAt(f, k, candidates, allowed, defaults);
      VoteSummary(f, key, t, k);
      assert Linked(f.links, k, key) <==> Root(p, k) == Root(p, key);
    }
  }

  lemma CompressionKeepsConsistency(p: Parents, q: Parents, f: Facts, candidates: Table, allowed: Table,
                                    defaults: Table)
    requires Consistent(p, f, candidates, allowed, defaults) && SameRoots(p, q)
    ensures Consistent(q, f, candidates, allowed, defaults)
  {
    forall k | k in q && q[k] == k ensures SummaryAt(f, k, candidates, allowed, defaults) {
      assert Root(q, k) == Root(p, k);
      assert p[k] == k;
    }
  }

  /** What a root carries is the summary of every variable under it. */
  lemma RootMeaning(p: Parents, f: Facts, key: VarKey, candidates: Table, allowed: Table, defaults: Table)
    requires Consistent(p, f, candidates, allowed, defaults) && key in p
    ensures Candidates(f, key) == EntryOrEmpty(candidates, Root(p, key))
    ensures Allowed(f, key) == Entry(allowed, Root(p, key))
    ensures Defaults(f, key) == EntryOrEmpty(defaults, Root(p, key))
  {
    var root := Root(p, key);
    forall x | x in f.vars ensures Linked(f.links, key, x) <==> Linked(f.links, root, x) {
      assert Root(p, root) == root;
    }
    SameClass(f, f, key, root);
    assert SummaryAt(f, root, candidates, allowed, defaults);
  }

  /** The mutable structure. `facts` is the ghost record of all that was said to it. */
  class Groups {
    var parent: Parents
    var candidates: Table
    var allowed: Table
    var defaults: Table
    ghost var facts: Facts

    ghost predicate Valid()
      reads this
    {
      Consistent(parent, facts, candidates, allowed, defaults)
    }

    constructor ()
      ensures Valid() && facts == Facts({}, {}, {}, {}, {})
    {
      parent, candidates, allowed, defaults := map[], map[], map[], map[];
      facts := Facts({}, {}, {}, {}, {});
    }

    /** A declaration counts exactly if its variable is new or its own root; written anywhere else, no root
        reads it. */
    method Add(key: VarKey, allowedTypes: set<PortType>, default: Option<PortType>)
      requires Valid()
      modifies this
      ensures Valid()
      ensures facts == if key !in old(parent)
              || old(parent)[key] == key then Declared(old(facts), key, allowedTypes, default) else old(facts)
      ensures parent == if key in old(parent) then old(parent) else old(parent)[key := key]
    {
      ghost var before := facts;
      if key !in parent {
        NewKeyKeepsConsistency(parent, facts, key, candidates, allowed, defaults);
        parent := parent[key := key];
        facts := facts.(vars := facts.vars + {key});
      }
      if parent[key] == key {
        DeclarationKeepsConsistency(parent, facts, key, allowedTypes, default, candidates, allowed, defaults);
        facts := Declared(facts, key, allowedTypes, default);
        assert facts.vars == Declared(before, key, allowedTypes, default).vars;
      } else {
        LostDeclaration(parent, facts, key, allowedTypes, default, candidates, allowed, defaults);
      }
      if allowedTypes != {} {
        allowed := allowed[key := if key in allowed then allowed[key] * allowedTypes else allowedTypes];
      }
      if default.Some? {
        defaults := defaults[key := EntryOrEmpty(defaults, key) + {default.value}];
      }
    }

    /** The root of `key`, with the path to it compressed. */
    method Find(key: VarKey) returns (root: VarKey)
      requires Valid() && key in parent
      modifies this`parent
      ensures Valid() && SameRoots(old(parent), parent) && root == Root(parent, key)
      decreases Rank(parent, key)
    {
      root := parent[key];
      if root != key {
        ParentRankDrops(parent, key);
        root := Find(root);
        ghost var p := parent;
        assert root == Root(p, key);
        parent := parent[key := root];
        CompressionKeepsRoots(p, parent, key);
        CompressionKeepsConsistency(p, parent, facts, candidates, allowed, defaults);
      }
    }

    method Union(left: VarKey, right: VarKey)
      requires Valid() && left in parent && right in parent
      modifies this
      ensures Valid() && facts == old(facts).(links := old(facts).links + {(left, right)})
      ensures parent.Keys == old(parent).Keys
    {
      var leftRoot := Find(left);
      var rightRoot := Find(right);
      assert leftRoot == Root(parent, left);
      if leftRoot == rightRoot {
        RedundantLinkKeepsConsistency(parent, facts, left, right, candidates, allowed, defaults);
      } else {
        KeyOrder(leftRoot, rightRoot);
        var root, child := leftRoot, rightRoot;
        if KeyLess(rightRoot, leftRoot) {
          root, child := rightRoot, leftRoot;
        }
        MergeKeepsConsistency(parent, facts, left, right, root, child, candidates, allowed, defaults);
        parent := parent[child := root];
        candidates := MergedSets(candidates, root, child);
        defaults := MergedDefaults(defaults, root, child);
        allowed := MergedBounds(allowed, root, child);
      }
      facts := facts.(links := facts.links + {(left, right)});
    }

    method Constrain(key: VarKey, t: PortType)
      requires Valid() && key in parent
      modifies this
      ensures Valid() && facts == old(facts).(votes := old(facts).votes + {(key, t)})
      ensures parent.Keys == old(parent).Keys
    {
      var root := Find(key);
      VoteKeepsConsistency(parent, facts, key, t, candidates, allowed, defaults);
      candidates := candidates[root := EntryOrEmpty(candidates, root) + {t}];
      facts := facts.(votes := facts.votes + {(key, t)});
    }

    /** Resolution computes the declarative meaning, whatever the order of the calls before it. */
    method Resolve(key: VarKey) returns (t: Option<PortType>)
      requires Valid() && key in parent
      modifies this`parent
      ensures Valid() && parent.Keys == old(parent).Keys && t == Meaning(facts, key)
    {
      var root := Find(key);
      RootMeaning(parent, facts, key, candidates, allowed, defaults);
      t := Settle(EntryOrEmpty(candidates, root), Entry(allowed, root), EntryOrEmpty(defaults, root));
    }

    method IncompatibleCandidates(key: VarKey) returns (clash: set<PortType>)
      requires Valid() && key in parent
      modifies this`parent
      ensures Valid() && parent.Keys == old(parent).Keys && clash == Clash(facts, key)
    {
      var root := Find(key);
      RootMeaning(parent, facts, key, candidates, allowed, defaults);
      clash := Conflict(EntryOrEmpty(candidates, root), Entry(allowed, root));
    }
  }
}
