/** Tidying a selection into longest-path layers (layout.py, tidy_boxes). */
module Layout {
  import opened Common
  import opened Reach
  import opened GraphModel
  import opened Ordering

  datatype Box = Box(x: real, y: real, width: real, height: real)

  type Place = (real, real)

  datatype Outcome = Placed(at: map<Id, Place>) | TooFewBoxes | CyclicSelection

  /** The selected edges: connections between two selected boxes. */
  function SelectedEdges(nodes: set<Id>, conns: seq<Connection>): Edges {
    set c | c in conns && c.src in nodes && c.dst in nodes :: (c.src, c.dst)
  }

  /* ---- longest paths ---- */

  ghost predicate PathTo(e: Edges, n: Id, k: nat) { exists m: Id :: ReachIn(e, m, n, k) }

  ghost predicate LongestTo(e: Edges, n: Id, k: nat) {
    PathTo(e, n, k) && forall j: nat {:trigger PathTo(e, n, j)} :: PathTo(e, n, j) ==> j <= k
  }

  /** Each level is the length of some path. */
  ghost predicate Reached(nodes: set<Id>, e: Edges, levels: map<Id, nat>) {
    forall n {:trigger PathTo(e, n, levels[n])} :: n in nodes && n in levels ==> PathTo(e, n, levels[n])
  }

  predicate Rises(e: Edges, levels: map<Id, nat>, p: Id, n: Id)
    requires p in levels && n in levels
  {
    (p, n) in e ==> levels[n] >= levels[p] + 1
  }

  /** Each level is at least one more than the level of every taken predecessor. */
  ghost predicate Rising(e: Edges, taken: set<Id>, levels: map<Id, nat>) {
    forall p, n {:trigger Rises(e, levels, p, n)} :: p in taken && p in levels && n in levels ==> Rises(e, levels, p, n)
  }

  ghost predicate Leveled(nodes: set<Id>, e: Edges, taken: set<Id>, levels: map<Id, nat>) {
    levels.Keys == nodes && Reached(nodes, e, levels) && Rising(e, taken, levels)
  }

  /** At first every level is 0, the length of the empty path. */
  method FirstLevels(nodes: set<Id>, ghost e: Edges) returns (levels: map<Id, nat>)
    ensures Leveled(nodes, e, {}, levels)
  {
    levels := map n | n in nodes :: 0;
    forall n | n in nodes ensures PathTo(e, n, 0) {
      assert ReachIn(e, n, n, 0);
    }
  }

  function Raised(levels: map<Id, nat>, d: Id, level: nat): nat
    requires d in levels
  {
    if levels[d] < level then level else levels[d]
  }

  /** Raising the successors of a newly taken node keeps the levels. */
  lemma RaisedLevels(nodes: set<Id>, e: Edges, taken: set<Id>, n: Id, levels: map<Id, nat>, raised: map<Id, nat>)
    requires Leveled(nodes, e, taken, levels) && n in nodes && Succs(e, n) <= nodes && Succs(e, n) !! taken + {n}
    requires raised.Keys == nodes
    requires forall m :: m in nodes ==>
             raised[m] == if m in Succs(e, n) then Raised(levels, m, levels[n] + 1) else levels[m]
    ensures Leveled(nodes, e, taken + {n}, raised)
  {
    forall m | m in nodes ensures PathTo(e, m, raised[m]) {
      if m in Succs(e, n) && levels[m] < levels[n] + 1 {
        assert PathTo(e, n, levels[n]);
        var a :| ReachIn(e, a, n, levels[n]);
        AppendStep(e, a, n, m, levels[n]);
      } else {
        assert raised[m] == levels[m];
      }
    }
    forall p, m | p in taken + {n} && p in raised && m in raised ensures Rises(e, raised, p, m) {
      assert p !in Succs(e, n) && raised[p] == levels[p];
      assert p in taken ==> Rises(e, levels, p, m);
      assert (n, m) in e ==> m in Succs(e, n);
    }
  }

  method RaiseLevels(nodes: set<Id>, ghost e: Edges, ghost taken: set<Id>, n: Id, successors: set<Id>,
                     levels0: map<Id, nat>)
    returns (levels: map<Id, nat>)
    requires Leveled(nodes, e, taken, levels0) && n in nodes && successors == Succs(e, n)
    requires successors <= nodes && successors !! taken + {n}
    ensures Leveled(nodes, e, taken + {n}, levels)
  {
    levels := levels0;
    var rest := successors;
    while rest != {}
      invariant rest <= successors && levels.Keys == nodes
      invariant forall m {:trigger levels[m]} :: m in nodes ==>
                  levels[m] == if m in successors && m !in rest then Raised(levels0, m, levels0[n] + 1) else levels0[m]
      decreases rest
    {
      var d :| d in rest;
      levels := levels[d := Raised(levels, d, levels[n] + 1)];
      rest := rest - {d};
    }
    RaisedLevels(nodes, e, taken, n, levels0, levels);
  }

  /** Once every node has been taken no path is longer than its end's level. */
  lemma {:induction false} LevelsBoundPaths(e: Edges, levels: map<Id, nat>, m: Id, n: Id, k: nat)
    requires Rising(e, levels.Keys, levels) && Within(e, levels.Keys) && n in levels && ReachIn(e, m, n, k)
    ensures k <= levels[n]
    decreases k
  {
    if k == 0 {
    } else {
      var p := LastStep(e, m, n, k);
      LevelsBoundPaths(e, levels, m, p, k - 1);
      assert Rises(e, levels, p, n);
    }
  }

  lemma LevelsAreLongest(nodes: set<Id>, e: Edges, levels: map<Id, nat>)
    requires Leveled(nodes, e, nodes, levels) && Within(e, nodes)
    ensures AllLongest(e, levels)
  {
    forall n | n in nodes ensures LongestTo(e, n, levels[n]) {
      assert PathTo(e, n, levels[n]);
      forall j: nat | PathTo(e, n, j) ensures j <= levels[n] {
        var m :| ReachIn(e, m, n, j);
        LevelsBoundPaths(e, levels, m, n, j);
      }
    }
  }

  /** All nodes are ordered exactly if the selection has no cycle. */
  lemma AllOrderedIffAcyclic(nodes: set<Id>, e: Edges, order: seq<Id>)
    requires GreedyOrder(nodes, e, order) && Within(e, nodes)
    ensures |order| == |nodes| <==> Acyclic(e)
    ensures |order| == |nodes| ==> Taken(order, |order|) == nodes
  {
    forall n | n in nodes ensures n !in order <==> Tainted(e, n) {
      LeftOutIffTainted(nodes, e, order, n);
    }
    AcyclicIffUntainted(nodes, e);
    forall i | 0 <= i < |order| ensures order[i] in nodes {
      assert Available(nodes, e, Taken(order, i), order[i]);
    }
    TakenSize(nodes, e, order, |order|);
    assert forall n :: n in Taken(order, |order|) <==> n in order;
    if |order| == |nodes| {
      FullOrder(nodes, e, order);
    }
    if Acyclic(e) {
      assert Taken(order, |order|) == nodes;
    }
  }

  lemma FinishedLevels(nodes: set<Id>, e: Edges, visited: seq<Id>, counts: map<Id, nat>, levels: map<Id, nat>)
    requires Within(e, nodes) && InProgress(nodes, e, visited, counts, [])
             && Leveled(nodes, e, Taken(visited, |visited|), levels)
    ensures |visited| == |nodes| <==> Acyclic(e)
    ensures |visited| == |nodes| ==> AllLongest(e, levels)
  {
    FinishedIsGreedy(nodes, e, visited, counts);
    AllOrderedIffAcyclic(nodes, e, visited);
    if |visited| == |nodes| {
      LevelsAreLongest(nodes, e, levels);
    }
  }

  ghost predicate AllLongest(e: Edges, levels: map<Id, nat>) {
    forall n {:trigger LongestTo(e, n, levels[n])} :: n in levels ==> LongestTo(e, n, levels[n])
  }

  /** The first half of `tidy_boxes`. */
  method Levels(nodes: set<Id>, conns: seq<Connection>) returns (levels: Option<map<Id, nat>>)
    ensures levels.None? <==> !Acyclic(SelectedEdges(nodes, conns))
    ensures levels.Some? ==> levels.value.Keys == nodes && AllLongest(SelectedEdges(nodes, conns), levels.value)
  {
    ghost var e := SelectedEdges(nodes, conns);
    var outgoing, counts, ready := Start(nodes, conns);
    var at := FirstLevels(nodes, e);
    var visited;
    at, visited, counts := Walk(nodes, e, outgoing, counts, ready, at);
    FinishedLevels(nodes, e, visited, counts, at);
    levels := if |visited| != |nodes| then None else Some(at);
  }

  method Start(nodes: set<Id>, conns: seq<Connection>)
    returns (outgoing: map<Id, set<Id>>, counts: map<Id, nat>, ready: seq<Id>)
    ensures Within(SelectedEdges(nodes, conns), nodes) && Recorded(nodes, SelectedEdges(nodes, conns), outgoing)
    ensures InProgress(nodes, SelectedEdges(nodes, conns), [], counts, ready) && Taken([], 0) == {}
  {
    var inside := Selected(nodes, conns);
    AllPrefixEdges(nodes, inside);
    outgoing, counts := CountEdges(nodes, inside);
    ready := SortIds(set n | n in nodes && counts[n] == 0);
    NothingTaken(nodes, SelectedEdges(nodes, conns), counts, ready);
  }

  /** The main loop: nodes in dependency order, each raising its successors' levels. */
  method Walk(nodes: set<Id>, ghost e: Edges, outgoing: map<Id, set<Id>>, counts0: map<Id, nat>, ready0: seq<Id>,
              at0: map<Id, nat>)
    returns (at: map<Id, nat>, visited: seq<Id>, counts: map<Id, nat>)
    requires Within(e, nodes) && Recorded(nodes, e, outgoing)
    requires InProgress(nodes, e, [], counts0, ready0) && Taken([], 0) == {} && Leveled(nodes, e, {}, at0)
    ensures InProgress(nodes, e, visited, counts, []) && Leveled(nodes, e, Taken(visited, |visited|), at)
  {
    at, counts, visited := at0, counts0, [];
    var ready := ready0;
    ghost var taken: set<Id> := {};
    while ready != []
      invariant taken == Taken(visited, |visited|) && taken <= nodes
      invariant InProgress(nodes, e, visited, counts, ready)
      invariant Leveled(nodes, e, taken, at)
      decreases nodes - taken
    {
      var n := ready[0];
      counts, ready := Advance(nodes, e, outgoing, counts, ready, visited);
      at := RaiseLevels(nodes, e, taken, n, outgoing[n], at);
      visited := visited + [n];
      taken := taken + {n};
    }
  }

  method Selected(nodes: set<Id>, conns: seq<Connection>) returns (inside: seq<Connection>)
    ensures forall c :: c in inside <==> c in conns && c.src in nodes && c.dst in nodes
    ensures EdgesOf(AsSet(inside)) == SelectedEdges(nodes, conns)
  {
    inside := [];
    for i := 0 to |conns|
      invariant forall c :: c in inside <==> c in conns[..i] && c.src in nodes && c.dst in nodes
    {
      assert conns[..i + 1] == conns[..i] + [conns[i]];
      if conns[i].src in nodes && conns[i].dst in nodes {
        inside := inside + [conns[i]];
      }
    }
    assert conns[..|conns|] == conns;
  }

  /* ---- placing a layer ---- */

  /** The order of a layer: by y, then x, then id. */
  predicate Above(boxes: map<Id, Box>, a: Id, b: Id)
    requires a in boxes && b in boxes
  {
    boxes[a].y < boxes[b].y || (boxes[a].y == boxes[b].y &&
      (boxes[a].x < boxes[b].x || (boxes[a].x == boxes[b].x && a < b)))
  }

  ghost predicate LayerOrder(boxes: map<Id, Box>, layer: seq<Id>, members: set<Id>) {
    && (forall n :: n in layer <==> n in members)
    && (forall i :: 0 <= i < |layer| ==> layer[i] in boxes)
    && forall i, j :: 0 <= i < j < |layer| ==> Above(boxes, layer[i], layer[j])
  }

  method Topmost(boxes: map<Id, Box>, members: set<Id>) returns (n: Id)
    requires members != {} && members <= boxes.Keys
    ensures n in members && forall m :: m in members && m != n ==> Above(boxes, n, m)
  {
    n :| n in members;
    var rest := members - {n};
    while rest != {}
      invariant n in members && rest <= members && forall m :: m in members && m != n ==>
                m in rest || Above(boxes, n, m)
      decreases rest
    {
      var m :| m in rest;
      if Above(boxes, m, n) {
        n := m;
      }
      rest := rest - {m};
    }
  }

  method SortLayer(boxes: map<Id, Box>, members: set<Id>) returns (layer: seq<Id>)
    requires members <= boxes.Keys
    ensures LayerOrder(boxes, layer, members)
  {
    layer := [];
    var rest := members;
    while rest != {}
      invariant rest <= members && LayerOrder(boxes, layer, members - rest)
      invariant forall i, m :: 0 <= i < |layer| && m in rest ==> Above(boxes, layer[i], m)
      decreases rest
    {
      var n := Topmost(boxes, rest);
      layer := layer + [n];
      rest := rest - {n};
    }
    assert members - rest == members;
  }

  /** How far down the i-th box of a layer starts. */
  function Drop(boxes: map<Id, Box>, layer: seq<Id>, gap: real, i: nat): real
    requires i <= |layer| && forall n :: n in layer ==> n in boxes
  {
    if i == 0 then 0.0 else Drop(boxes, layer, gap, i - 1) + boxes[layer[i - 1]].height + gap
  }

  predicate Sized(boxes: map<Id, Box>) { forall n :: n in boxes ==> boxes[n].width >= 0.0 && boxes[n].height >= 0.0 }

  lemma {:induction false} DropsApart(boxes: map<Id, Box>, layer: seq<Id>, gap: real, i: nat, j: nat)
    requires Sized(boxes) && gap >= 0.0 && i < j <= |layer| && forall n :: n in layer ==> n in boxes
    ensures Drop(boxes, layer, gap, j) >= Drop(boxes, layer, gap, i) + boxes[layer[i]].height + gap
  {
    if i < j - 1 {
      DropsApart(boxes, layer, gap, i, j - 1);
      assert layer[j - 1] in layer;
    }
  }

  function ColumnAt(origin: Place, column: real, level: nat): real { origin.0 + level as real * column }

  /** Every placed box stands in the column of its level. */
  ghost predicate InColumns(levels: map<Id, nat>, at: map<Id, Place>, origin: Place, column: real) {
    forall n {:trigger at[n]} :: n in at && n in levels ==> at[n].0 == origin.0 + levels[n] as real * column
  }

  predicate Clear(boxes: map<Id, Box>, at: map<Id, Place>, gap: real, n: Id, m: Id)
    requires n in boxes && n in at && m in at
  {
    at[m].1 >= at[n].1 + boxes[n].height + gap
  }

  /** Boxes of one level stand below each other in the old order, at least the gap apart. */
  ghost predicate Stacked(boxes: map<Id, Box>, levels: map<Id, nat>, at: map<Id, Place>, gap: real) {
    forall n, m {:trigger Clear(boxes, at, gap, n, m)} ::
      n in at && m in at && n in boxes && m in boxes && n in levels && m in levels && levels[n] == levels[m]
        && (|| boxes[n].y < boxes[m].y
            || (boxes[n].y == boxes[m].y && boxes[n].x < boxes[m].x)
            || (boxes[n].y == boxes[m].y && boxes[n].x == boxes[m].x && n < m)) ==>
        Clear(boxes, at, gap, n, m)
  }

  /** No box of its level is above `n`. */
  ghost predicate IsTop(boxes: map<Id, Box>, levels: map<Id, nat>, n: Id)
    requires levels.Keys == boxes.Keys && n in boxes
  {
    forall k :: k in boxes && levels[k] == levels[n] ==> !Above(boxes, k, n)
  }

  /** `m` is the next box of its level below `n`. */
  ghost predicate IsNext(boxes: map<Id, Box>, levels: map<Id, nat>, n: Id, m: Id)
    requires levels.Keys == boxes.Keys && n in boxes && m in boxes
  {
    && levels[n] == levels[m] && Above(boxes, n, m)
    && forall k :: k in boxes && levels[k] == levels[n] ==> !(Above(boxes, n, k) && Above(boxes, k, m))
  }

  /** The top box of each level stands at `y`, and every other exactly the gap below the one before it. */
  ghost predicate Stepped(boxes: map<Id, Box>, levels: map<Id, nat>, at: map<Id, Place>, y: real, gap: real)
    requires levels.Keys == boxes.Keys
  {
    && (forall n {:trigger IsTop(boxes, levels, n)} :: n in boxes && n in at && IsTop(boxes, levels, n) ==>
        at[n].1 == y)
    && forall n, m {:trigger IsNext(boxes, levels, n, m)} ::
         n in boxes && n in at && m in boxes && m in at && IsNext(boxes, levels, n, m) ==>
           at[m].1 == at[n].1 + boxes[n].height + gap
  }

  ghost predicate Tidy(boxes: map<Id, Box>, levels: map<Id, nat>, at: map<Id, Place>, origin: Place, column: real,
                       gap: real)
    requires levels.Keys == boxes.Keys
  {
    && InColumns(levels, at, origin, column) && Stepped(boxes, levels, at, origin.1, gap)
    && (Sized(boxes) && gap >= 0.0 ==> Stacked(boxes, levels, at, gap))
  }

  function Layer(levels: map<Id, nat>, level: nat): set<Id> { set n | n in levels.Keys && levels[n] == level }

  /** The layer's members, and they only, are placed from the top down. */
  ghost predicate LayerPlaced(boxes: map<Id, Box>, layer: seq<Id>, x: real, y: real, gap: real, at0: map<Id, Place>,
                              at: map<Id, Place>, i: nat)
    requires i <= |layer| && forall n :: n in layer ==> n in boxes
  {
    && (forall n {:trigger n in at} :: n in at <==> n in at0 || n in layer[..i])
    && (forall n {:trigger at[n]} :: n in at0 && n in at ==> at[n] == at0[n])
    && (forall j {:trigger StandsAt(boxes, layer, x, y, gap, at, j)} :: 0 <= j < i ==>
        StandsAt(boxes, layer, x, y, gap, at, j))
  }

  predicate StandsAt(boxes: map<Id, Box>, layer: seq<Id>, x: real, y: real, gap: real, at: map<Id, Place>, j: nat)
    requires j < |layer| && forall n :: n in layer ==> n in boxes
  {
    layer[j] in at && at[layer[j]] == (x, y + Drop(boxes, layer, gap, j))
  }

  lemma PlaceOne(boxes: map<Id, Box>, layer: seq<Id>, x: real, y: real, gap: real, at0: map<Id, Place>,
                 at: map<Id, Place>, i: nat)
    requires i < |layer| && (forall n :: n in layer ==> n in boxes) && LayerPlaced(boxes, layer, x, y, gap, at0, at, i)
    requires layer[i] !in at0 && forall j :: 0 <= j < i ==> layer[j] != layer[i]
    ensures LayerPlaced(boxes, layer, x, y, gap, at0, at[layer[i] := (x, y + Drop(boxes, layer, gap, i))], i + 1)
  {
    assert layer[..i + 1] == layer[..i] + [layer[i]];
    var x0 := layer[i];
    assert forall n :: n in layer[..i + 1] <==> n in layer[..i] || n == x0;
    var after := at[x0 := (x, y + Drop(boxes, layer, gap, i))];
    forall j | 0 <= j < i + 1 ensures StandsAt(boxes, layer, x, y, gap, after, j) {
      assert j < i ==> StandsAt(boxes, layer, x, y, gap, at, j) && layer[j] != x0;
    }
  }

  method PlaceLayer(boxes: map<Id, Box>, layer: seq<Id>, at0: map<Id, Place>, x: real, y: real, gap: real)
    returns (at: map<Id, Place>)
    requires LayerOrder(boxes, layer, set n | n in layer) && forall n :: n in layer ==> n in boxes && n !in at0
    ensures LayerPlaced(boxes, layer, x, y, gap, at0, at, |layer|)
  {
    at := at0;
    var cursor := y;
    for i := 0 to |layer|
      invariant cursor == y + Drop(boxes, layer, gap, i)
      invariant LayerPlaced(boxes, layer, x, y, gap, at0, at, i)
    {
      assert layer[i] in layer;
      forall j | 0 <= j < i ensures layer[j] != layer[i] {
        assert Above(boxes, layer[j], layer[i]);
      }
      PlaceOne(boxes, layer, x, y, gap, at0, at, i);
      at := at[layer[i] := (x, cursor)];
      cursor := cursor + boxes[layer[i]].height + gap;
    }
  }

  lemma LayerStacked(boxes: map<Id, Box>, layer: seq<Id>, x: real, y: real, gap: real, at0: map<Id, Place>,
                     at: map<Id, Place>, n: Id, m: Id)
    requires (forall n :: n in layer ==> n in boxes) && LayerPlaced(boxes, layer, x, y, gap, at0, at, |layer|)
    requires LayerOrder(boxes, layer, set n | n in layer) && Sized(boxes) && gap >= 0.0
    requires n in layer && m in layer && n in at && m in at && Above(boxes, n, m)
    ensures Clear(boxes, at, gap, n, m)
  {
    var i :| 0 <= i < |layer| && layer[i] == n;
    var j :| 0 <= j < |layer| && layer[j] == m;
    assert j < i ==> Above(boxes, layer[j], layer[i]);
    assert StandsAt(boxes, layer, x, y, gap, at, i) && StandsAt(boxes, layer, x, y, gap, at, j);
    DropsApart(boxes, layer, gap, i, j);
  }

  lemma LayerStepped(boxes: map<Id, Box>, levels: map<Id, nat>, layer: seq<Id>, x: real, y: real, gap: real,
                     at0: map<Id, Place>, at: map<Id, Place>, n: Id, m: Id)
    requires levels.Keys == boxes.Keys && (forall k :: k in layer ==> k in boxes)
    requires LayerOrder(boxes, layer, set k | k in layer) && LayerPlaced(boxes, layer, x, y, gap, at0, at, |layer|)
    requires n in layer && m in layer && n in at && m in at
    requires forall k :: k in layer <==> k in boxes && levels[k] == levels[n]
    ensures IsTop(boxes, levels, n) ==> at[n].1 == y
    ensures IsNext(boxes, levels, n, m) ==> at[m].1 == at[n].1 + boxes[n].height + gap
  {
    var i :| 0 <= i < |layer| && layer[i] == n;
    var j :| 0 <= j < |layer| && layer[j] == m;
    assert StandsAt(boxes, layer, x, y, gap, at, i) && StandsAt(boxes, layer, x, y, gap, at, j);
    assert i > 0 ==> layer[0] in layer && Above(boxes, layer[0], layer[i]);
    assert j < i ==> Above(boxes, layer[j], layer[i]);
    assert i + 1 < j ==>
        layer[i + 1] in layer && Above(boxes, layer[i], layer[i + 1]) && Above(boxes, layer[i + 1], layer[j]);
  }

  /** One more layer of the boxes has been placed below `y`, from `x` on. */
  ghost predicate LayerAdded(boxes: map<Id, Box>, levels: map<Id, nat>, layer: seq<Id>, level: nat, x: real, y: real,
                             gap: real, at0: map<Id, Place>, at: map<Id, Place>) {
    && levels.Keys == boxes.Keys && (forall n :: n in layer <==> n in Layer(levels, level))
    && (forall n :: n in layer ==> n in boxes) && LayerOrder(boxes, layer, set n | n in layer)
    && (forall n :: n in at0 ==> n in levels && levels[n] < level)
    && LayerPlaced(boxes, layer, x, y, gap, at0, at, |layer|)
  }

  lemma LayerMembers(boxes: map<Id, Box>, levels: map<Id, nat>, layer: seq<Id>, level: nat, x: real, y: real,
                     gap: real, at0: map<Id, Place>, at: map<Id, Place>)
    requires LayerAdded(boxes, levels, layer, level, x, y, gap, at0, at)
    ensures at.Keys == at0.Keys + Layer(levels, level)
    ensures forall n :: n in at ==> if n in at0 then at[n] == at0[n] else n in layer && at[n].0 == x
  {
    assert layer[..|layer|] == layer;
    forall n | n in at ensures if n in at0 then at[n] == at0[n] else n in layer && at[n].0 == x {
      if n !in at0 {
        assert n in layer;
        var j :| 0 <= j < |layer| && layer[j] == n;
        assert StandsAt(boxes, layer, x, y, gap, at, j);
      }
    }
  }

  lemma SteppedAfterLayer(boxes: map<Id, Box>, levels: map<Id, nat>, layer: seq<Id>, level: nat, x: real, y: real,
                          gap: real, at0: map<Id, Place>, at: map<Id, Place>)
    requires LayerAdded(boxes, levels, layer, level, x, y, gap, at0, at) && Stepped(boxes, levels, at0, y, gap)
    ensures Stepped(boxes, levels, at, y, gap)
  {
    LayerMembers(boxes, levels, layer, level, x, y, gap, at0, at);
    forall n, m | n in at && m in at && n in boxes && m in boxes && levels[n] == levels[m]
      ensures IsTop(boxes, levels, n) ==> at[n].1 == y
      ensures IsNext(boxes, levels, n, m) ==> at[m].1 == at[n].1 + boxes[n].height + gap
    {
      if n in at0 {
        assert m in at0;
      } else {
        LayerStepped(boxes, levels, layer, x, y, gap, at0, at, n, m);
      }
    }
  }

  lemma StackedAfterLayer(boxes: map<Id, Box>, levels: map<Id, nat>, layer: seq<Id>, level: nat, x: real, y: real,
                          gap: real, at0: map<Id, Place>, at: map<Id, Place>)
    requires LayerAdded(boxes, levels, layer, level, x, y, gap, at0, at) && Stacked(boxes, levels, at0, gap)
    requires Sized(boxes) && gap >= 0.0
    ensures Stacked(boxes, levels, at, gap)
  {
    LayerMembers(boxes, levels, layer, level, x, y, gap, at0, at);
    forall n, m | n in at && m in at && n in boxes && m in boxes && levels[n] == levels[m] && Above(boxes, n, m)
      ensures Clear(boxes, at, gap, n, m)
    {
      if n in at0 {
        assert m in at0 && Clear(boxes, at0, gap, n, m);
      } else {
        LayerStacked(boxes, layer, x, y, gap, at0, at, n, m);
      }
    }
  }

  lemma TidyAfterLayer(boxes: map<Id, Box>, levels: map<Id, nat>, layer: seq<Id>, level: nat, origin: Place,
                       column: real, gap: real, at0: map<Id, Place>, at: map<Id, Place>)
    requires LayerAdded(boxes, levels, layer, level, ColumnAt(origin, column, level), origin.1, gap, at0, at)
    requires Tidy(boxes, levels, at0, origin, column, gap)
    ensures Tidy(boxes, levels, at, origin, column, gap)
    ensures at.Keys == at0.Keys + Layer(levels, level)
  {
    var x := ColumnAt(origin, column, level);
    LayerMembers(boxes, levels, layer, level, x, origin.1, gap, at0, at);
    SteppedAfterLayer(boxes, levels, layer, level, x, origin.1, gap, at0, at);
    if Sized(boxes) && gap >= 0.0 {
      StackedAfterLayer(boxes, levels, layer, level, x, origin.1, gap, at0, at);
    }
  }

  /* ---- the whole layout ---- */

  ghost predicate IsOrigin(boxes: map<Id, Box>, origin: Place) {
    && (forall n :: n in boxes ==> origin.0 <= boxes[n].x && origin.1 <= boxes[n].y)
    && (exists n :: n in boxes && boxes[n].x == origin.0) && (exists n :: n in boxes && boxes[n].y == origin.1)
  }

  ghost predicate IsWidest(boxes: map<Id, Box>, width: real) {
    (forall n :: n in boxes ==> boxes[n].width <= width) && exists n :: n in boxes && boxes[n].width == width
  }

  method Extent(boxes: map<Id, Box>) returns (origin: Place, width: real)
    requires boxes.Keys != {}
    ensures IsOrigin(boxes, origin) && IsWidest(boxes, width)
  {
    var first :| first in boxes.Keys;
    var b := boxes[first];
    var left, top, widest := first, first, first;
    var rest := boxes.Keys - {first};
    while rest != {}
      invariant rest <= boxes.Keys && left in boxes && top in boxes && widest in boxes
      invariant forall n :: n in boxes && n !in rest ==>
                  boxes[left].x <= boxes[n].x && boxes[top].y <= boxes[n].y && boxes[n].width <= boxes[widest].width
      decreases rest
    {
      var n :| n in rest;
      left := if boxes[n].x < boxes[left].x then n else left;
      top := if boxes[n].y < boxes[top].y then n else top;
      widest := if boxes[n].width > boxes[widest].width then n else widest;
      rest := rest - {n};
    }
    origin, width := (boxes[left].x, boxes[top].y), boxes[widest].width;
  }

  method Highest(levels: map<Id, nat>) returns (top: nat)
    ensures forall n :: n in levels ==> levels[n] <= top
  {
    top := 0;
    var rest := levels.Keys;
    while rest != {}
      invariant rest <= levels.Keys && forall n :: n in levels ==> n in rest || levels[n] <= top
      decreases rest
    {
      var n :| n in rest;
      top := if top < levels[n] then levels[n] else top;
      rest := rest - {n};
    }
  }

  /** A layout with every box in the column of its longest selected path. */
  ghost predicate TidyWith(boxes: map<Id, Box>, conns: seq<Connection>, hgap: real, vgap: real, at: map<Id, Place>,
                           levels: map<Id, nat>, origin: Place, width: real) {
    && levels.Keys == boxes.Keys && at.Keys == boxes.Keys
    && IsOrigin(boxes, origin) && IsWidest(boxes, width)
    && AllLongest(SelectedEdges(boxes.Keys, conns), levels)
    && Tidy(boxes, levels, at, origin, width + hgap, vgap)
  }

  ghost predicate TidyLayout(boxes: map<Id, Box>, conns: seq<Connection>, hgap: real, vgap: real, at: map<Id, Place>) {
    exists levels, origin, width :: TidyWith(boxes, conns, hgap, vgap, at, levels, origin, width)
  }

  method PlaceAll(boxes: map<Id, Box>, levels: map<Id, nat>, origin: Place, column: real, gap: real)
    returns (at: map<Id, Place>)
    requires levels.Keys == boxes.Keys
    ensures at.Keys == boxes.Keys && Tidy(boxes, levels, at, origin, column, gap)
  {
    var top := Highest(levels);
    at := map[];
    for level := 0 to top + 1
      invariant Tidy(boxes, levels, at, origin, column, gap)
      invariant forall n :: n in at <==> n in levels && levels[n] < level
    {
      var layer := SortLayer(boxes, Layer(levels, level));
      assert LayerOrder(boxes, layer, set n | n in layer);
      ghost var at0 := at;
      at := PlaceLayer(boxes, layer, at, ColumnAt(origin, column, level), origin.1, gap);
      TidyAfterLayer(boxes, levels, layer, level, origin, column, gap, at0, at);
    }
  }

  predicate GoesRight(boxes: map<Id, Box>, hgap: real, at: map<Id, Place>, c: Connection)
    requires c.src in boxes
  {
    c.src in at && c.dst in at && at[c.dst].0 >= at[c.src].0 + boxes[c.src].width + hgap
  }

  /** Every selected edge goes right by at least the gap beyond its source's box. */
  ghost predicate Rightward(boxes: map<Id, Box>, conns: seq<Connection>, hgap: real, at: map<Id, Place>) {
    forall c :: c in conns && c.src in boxes && c.dst in boxes ==> GoesRight(boxes, hgap, at, c)
  }

  predicate Overlap(p: Place, a: Box, q: Place, b: Box) {
    p.0 < q.0 + b.width && q.0 < p.0 + a.width && p.1 < q.1 + b.height && q.1 < p.1 + a.height
  }

  predicate Apart(boxes: map<Id, Box>, at: map<Id, Place>, n: Id, m: Id)
    requires n in boxes && m in boxes
  {
    n in at && m in at && !Overlap(at[n], boxes[n], at[m], boxes[m])
  }

  ghost predicate Disjoint(boxes: map<Id, Box>, at: map<Id, Place>) {
    forall n, m {:trigger Apart(boxes, at, n, m)} :: n in boxes && m in boxes && n != m ==> Apart(boxes, at, n, m)
  }

  /** `tidy_boxes`: it fails exactly on fewer than two boxes or a cyclic selection. */
  method TidyBoxes(boxes: map<Id, Box>, conns: seq<Connection>, hgap: real, vgap: real) returns (r: Outcome)
    ensures r == TooFewBoxes <==> |boxes| < 2
    ensures r == CyclicSelection <==> |boxes| >= 2 && !Acyclic(SelectedEdges(boxes.Keys, conns))
    ensures r.Placed? ==> TidyLayout(boxes, conns, hgap, vgap, r.at)
    ensures r.Placed? && Sized(boxes) && hgap >= 0.0 ==> Rightward(boxes, conns, hgap, r.at)
    ensures r.Placed? && Sized(boxes) && hgap >= 0.0 && vgap >= 0.0 ==> Disjoint(boxes, r.at)
  {
    if |boxes| < 2 {
      return TooFewBoxes;
    }
    var levels := Levels(boxes.Keys, conns);
    if levels.None? {
      return CyclicSelection;
    }
    assert boxes.Keys != {} by { assert |boxes.Keys| == |boxes|; }
    var origin, width := Extent(boxes);
    var at := PlaceAll(boxes, levels.value, origin, width + hgap, vgap);
    assert TidyWith(boxes, conns, hgap, vgap, at, levels.value, origin, width);
    if Sized(boxes) && hgap >= 0.0 {
      forall c | c in conns && c.src in boxes && c.dst in boxes ensures GoesRight(boxes, hgap, at, c) {
        EdgesGoRight(boxes, conns, hgap, vgap, at, levels.value, origin, width, c);
      }
      if vgap >= 0.0 {
        forall n, m | n in boxes && m in boxes && n != m ensures Apart(boxes, at, n, m) {
          BoxesDoNotOverlap(boxes, conns, hgap, vgap, at, levels.value, origin, width, n, m);
        }
      }
    }
    r := Placed(at);
  }

  lemma LevelsRise(e: Edges, levels: map<Id, nat>, p: Id, n: Id)
    requires AllLongest(e, levels) && (p, n) in e && p in levels && n in levels
    ensures levels[p] < levels[n]
  {
    assert LongestTo(e, p, levels[p]) && LongestTo(e, n, levels[n]);
    var m :| ReachIn(e, m, p, levels[p]);
    AppendStep(e, m, p, n, levels[p]);
    assert PathTo(e, n, levels[p] + 1);
  }

  lemma EdgesGoRight(boxes: map<Id, Box>, conns: seq<Connection>, hgap: real, vgap: real, at: map<Id, Place>,
                     levels: map<Id, nat>, origin: Place, width: real, c: Connection)
    requires TidyWith(boxes, conns, hgap, vgap, at, levels, origin, width) && Sized(boxes) && hgap >= 0.0
    requires c in conns && c.src in boxes && c.dst in boxes
    ensures GoesRight(boxes, hgap, at, c)
  {
    assert (c.src, c.dst) in SelectedEdges(boxes.Keys, conns);
    LevelsRise(SelectedEdges(boxes.Keys, conns), levels, c.src, c.dst);
    HigherGoesRight(boxes, levels, at, origin, width, hgap, c.src, c.dst);
  }

  /** A box of a higher level stands to the right of one of a lower level, beyond its width and the gap. */
  lemma HigherGoesRight(boxes: map<Id, Box>, levels: map<Id, nat>, at: map<Id, Place>, origin: Place, width: real,
                        hgap: real, n: Id, m: Id)
    requires levels.Keys == boxes.Keys == at.Keys && InColumns(levels, at, origin, width + hgap)
    requires IsWidest(boxes, width) && Sized(boxes) && hgap >= 0.0
    requires n in boxes && m in boxes && levels[n] < levels[m]
    ensures at[m].0 >= at[n].0 + boxes[n].width + hgap
  {
    var column := width + hgap;
    assert at[n].0 == ColumnAt(origin, column, levels[n]) && at[m].0 == ColumnAt(origin, column, levels[m]);
    ColumnsApart(origin, levels[n], levels[m], column);
  }

  lemma ColumnsApart(origin: Place, a: nat, b: nat, column: real)
    requires a < b && column >= 0.0
    ensures ColumnAt(origin, column, b) >= ColumnAt(origin, column, a) + column
  {
    var steps := (b - a - 1) as real;
    assert steps * column >= 0.0;
    assert b as real == a as real + 1.0 + steps;
    Distributes(a as real, steps, column);
  }

  lemma Distributes(a: real, b: real, c: real)
    ensures (a + 1.0 + b) * c == a * c + c + b * c
  {
  }

  lemma BoxesDoNotOverlap(boxes: map<Id, Box>, conns: seq<Connection>, hgap: real, vgap: real, at: map<Id, Place>,
                          levels: map<Id, nat>, origin: Place, width: real, n: Id, m: Id)
    requires TidyWith(boxes, conns, hgap, vgap, at, levels, origin, width) && Sized(boxes) && hgap >= 0.0 && vgap >= 0.0
    requires n in boxes && m in boxes && n != m
    ensures Apart(boxes, at, n, m)
  {
    if levels[n] < levels[m] {
      HigherGoesRight(boxes, levels, at, origin, width, hgap, n, m);
    } else if levels[m] < levels[n] {
      HigherGoesRight(boxes, levels, at, origin, width, hgap, m, n);
    } else {
      assert Above(boxes, n, m) ==> Clear(boxes, at, vgap, n, m);
      assert Above(boxes, m, n) ==> Clear(boxes, at, vgap, m, n);
    }
  }
}
