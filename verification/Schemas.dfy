/** The graph schema migrations (schemas.py): each edits a copy in loops, and the chain ends at version 4. */
module Schemas {
  import opened Common
  import opened Literals

  type Fields = map<string, Json>

  const CURRENT := 4
  const APPLICATION_VERSION := "0.1.0"

  /** `dict.get(key)`. */
  function Get(f: Fields, key: string): Json { if key in f then f[key] else Null }

  function SetDefault(f: Fields, key: string, v: Json): Fields { if key in f then f else f[key := v] }

  function ItemsOf(f: Fields, key: string): Option<seq<Json>> {
    if key in f && f[key].List? then Some(f[key].items) else None
  }

  /** `_schema_version`; None stands for the error. */
  function Version(f: Fields): Option<nat> {
    if "schema_version" !in f then Some(0)
    else match f["schema_version"]
         case Int(v) => if v >= 0 then Some(v) else None
         case _ => None
  }

  /* ---- what each migration does to one item ---- */

  function NodeV1(j: Json): Json {
    if !j.Object? then j else
      var n := j.fields;
      var named := if "implementation_version" !in n && "version" in n
                   then (n - {"version"})["implementation_version" := n["version"]] else n;
      var placed := SetDefault(SetDefault(named, "position", List([Number(0.0), Number(0.0)])), "size", Null);
      var stated := SetDefault(SetDefault(placed, "parameters", Object(map[])), "ui_state", Object(map[]));
      Object(SetDefault(SetDefault(stated, "user_label", Null), "collapsed", Truth(false)))
  }

  function ConnectionV2(j: Json): Json {
    if j.Object? then Object(SetDefault(j.fields, "ui_state", Object(map[]))) else j
  }

  predicate HasType(j: Json, typeId: string) {
    j.Object? && Get(j.fields, "type_id") == Text(typeId) && Get(j.fields, "id").Text?
  }

  const STATISTICS := "synmachine.utility.statistics"
  const OPACITY := "synmachine.image.opacity"
  const SEPARATE := "synmachine.image.separate_channels"
  const COMBINE := "synmachine.image.combine_channels"

  /** The text ids of the nodes of one type. */
  function IdsOfType(nodes: seq<Json>, typeId: string): set<Json> {
    set n | n in nodes && HasType(n, typeId) :: Get(n.fields, "id")
  }

  function ConnectionV3(statistics: set<Json>, j: Json): Json {
    if j.Object? && Get(j.fields, "destination_node_id") in statistics
      && Get(j.fields, "destination_port_id") == Text("values")
    then Object(j.fields["destination_port_id" := Text("values_1")]) else j
  }

  /** A connection to a removed node or a retired socket. */
  predicate Retired(opacity: set<Json>, separate: set<Json>, combine: set<Json>, j: Json) {
    && j.Object?
    && var source, destination := Get(j.fields, "source_node_id"), Get(j.fields, "destination_node_id");
       || source in opacity || destination in opacity
       || (destination in combine && Get(j.fields, "destination_port_id") == Text("channel_4"))
       || (source in separate && Get(j.fields, "source_port_id") == Text("channel_4"))
  }

  /* ---- whole migrations ---- */

  function EachNodeV1(items: seq<Json>): seq<Json> { seq(|items|, i requires 0 <= i < |items| => NodeV1(items[i])) }

  function EachConnectionV2(items: seq<Json>): seq<Json> {
    seq(|items|, i requires 0 <= i < |items| => ConnectionV2(items[i]))
  }

  function EachConnectionV3(statistics: set<Json>, items: seq<Json>): seq<Json> {
    seq(|items|, i requires 0 <= i < |items| => ConnectionV3(statistics, items[i]))
  }

  predicate Dropped(opacity: set<Json>, n: Json) { n.Object? && Get(n.fields, "id") in opacity }

  function NodesKept(opacity: set<Json>, items: seq<Json>): seq<Json> {
    if items == [] then [] else
      var front, last := items[..|items| - 1], items[|items| - 1];
      NodesKept(opacity, front) + if Dropped(opacity, last) then [] else [last]
  }

  lemma {:induction false} KeptNodes(opacity: set<Json>, items: seq<Json>, n: Json)
    ensures n in NodesKept(opacity, items) <==> n in items && !Dropped(opacity, n)
  {
    if items == [] {
    } else {
      KeptNodes(opacity, items[..|items| - 1], n);
      assert n in items <==> n in items[..|items| - 1] || n == items[|items| - 1];
    }
  }

  function ConnectionsKept(opacity: set<Json>, separate: set<Json>, combine: set<Json>, items: seq<Json>): seq<Json> {
    if items == [] then [] else
      var front, last := items[..|items| - 1], items[|items| - 1];
      var kept := ConnectionsKept(opacity, separate, combine, front);
      if Retired(opacity, separate, combine, last) then kept else kept + [last]
  }

  lemma {:induction false} KeptConnections(opacity: set<Json>, separate: set<Json>, combine: set<Json>,
                                           items: seq<Json>, c: Json)
    ensures c in ConnectionsKept(opacity, separate, combine, items) <==>
            c in items && !Retired(opacity, separate, combine, c)
  {
    if items == [] {
    } else {
      KeptConnections(opacity, separate, combine, items[..|items| - 1], c);
      assert c in items <==> c in items[..|items| - 1] || c == items[|items| - 1];
    }
  }

  function DocumentV1(data: Fields): Fields {
    var named := SetDefault(data["schema_version" := Int(1)], "application_version", Text(APPLICATION_VERSION));
    var grouped := SetDefault(named, "groups", List([]));
    SetDefault(SetDefault(grouped, "document_settings", Object(map[])), "ui_state", Object(map[]))
  }

  function V1(data: Fields): Fields {
    var d := DocumentV1(data);
    var nodes := ItemsOf(d, "nodes");
    if nodes.None? then d else d["nodes" := List(EachNodeV1(nodes.value))]
  }

  function V2(data: Fields): Fields {
    var d := data["schema_version" := Int(2)];
    var connections := ItemsOf(d, "connections");
    if connections.None? then d else d["connections" := List(EachConnectionV2(connections.value))]
  }

  function StatisticsOf(data: Fields): set<Json> {
    if ItemsOf(data, "nodes").None? then {} else IdsOfType(ItemsOf(data, "nodes").value, STATISTICS)
  }

  function V3(data: Fields): Fields {
    var d := data["schema_version" := Int(3)];
    var connections := ItemsOf(d, "connections");
    if StatisticsOf(d) == {} || connections.None? then d
    else d["connections" := List(EachConnectionV3(StatisticsOf(d), connections.value))]
  }

  function V4(data: Fields): Fields {
    var d := data["schema_version" := Int(4)];
    var nodes, connections := ItemsOf(d, "nodes"), ItemsOf(d, "connections");
    if nodes.None? then d else
      var opacity := IdsOfType(nodes.value, OPACITY);
      var pruned := if opacity == {} then d else d["nodes" := List(NodesKept(opacity, nodes.value))];
      if connections.None? then pruned
      else pruned["connections" := List(ConnectionsKept(opacity, IdsOfType(nodes.value, SEPARATE),
                                                        IdsOfType(nodes.value, COMBINE), connections.value))]
  }

  function Step(version: nat, data: Fields): Fields {
    if version == 0 then V1(data) else if version == 1 then V2(data) else if version == 2 then V3(data) else V4(data)
  }

  /** `migrate_graph_data`; None stands for the error. */
  function Migrated(data: Fields): Option<Fields> {
    var v := Version(data);
    if v.None? || v.value > CURRENT then None else Some(From(v.value, data))
  }

  function From(version: nat, data: Fields): Fields
    decreases CURRENT - version
  {
    if version >= CURRENT then data else From(version + 1, Step(version, data))
  }

  /* ---- what each migration may change, field by field ---- */

  function Entry(f: Fields, key: string): Option<Json> { if key in f then Some(f[key]) else None }

  /** All fields but these are the same, present or missing. */
  ghost predicate SameOutside(before: Fields, after: Fields, keys: set<string>) {
    forall k {:trigger Entry(after, k)} :: k !in keys ==> Entry(after, k) == Entry(before, k)
  }

  const DOCUMENT_DEFAULTS: Fields := map[
    "application_version" := Text(APPLICATION_VERSION), "groups" := List([]),
    "document_settings" := Object(map[]), "ui_state" := Object(map[])]

  const NODE_DEFAULTS: Fields := map[
    "position" := List([Number(0.0), Number(0.0)]), "size" := Null, "parameters" := Object(map[]),
    "ui_state" := Object(map[]), "user_label" := Null, "collapsed" := Truth(false)]

  /** A field that was there stays as it was, a missing one gets its default if it has one. */
  function Filled(before: Fields, defaults: Fields, key: string): Option<Json> {
    if key in before then Some(before[key]) else Entry(defaults, key)
  }

  /** Whether the old version field has to move to its new name. */
  predicate VersionMoves(node: Fields) { "version" in node && "implementation_version" !in node }

  ghost predicate NodeUpgraded(before: Json, after: Json) {
    if !before.Object? then after == before
    else
      && after.Object?
      && forall k {:trigger Entry(after.fields, k)} :: Entry(after.fields, k) ==
           if VersionMoves(before.fields) && k == "version" then None
           else if VersionMoves(before.fields) && k == "implementation_version" then Entry(before.fields, "version")
           else Filled(before.fields, NODE_DEFAULTS, k)
  }

  ghost predicate UpgradedToV1(before: Fields, after: Fields) {
    && Entry(after, "schema_version") == Some(Int(1))
    && (forall k {:trigger Entry(after, k)} :: k !in {"schema_version", "nodes"} ==>
          Entry(after, k) == Filled(before, DOCUMENT_DEFAULTS, k))
    && if ItemsOf(before, "nodes").None? then Entry(after, "nodes") == Entry(before, "nodes")
       else
         var was, now := ItemsOf(before, "nodes").value, ItemsOf(after, "nodes");
         && now.Some? && |now.value| == |was|
         && forall i {:trigger was[i]} :: 0 <= i < |was| ==> NodeUpgraded(was[i], now.value[i])
  }

  /** The connections are a list of the same length before and after, each related to the one it was; or no
      list, and untouched. */
  ghost predicate EachConnection(before: Fields, after: Fields, related: (Json, Json) -> bool) {
    if ItemsOf(before, "connections").None? then Entry(after, "connections") == Entry(before, "connections")
    else
      var was, now := ItemsOf(before, "connections").value, ItemsOf(after, "connections");
      && now.Some? && |now.value| == |was|
      && forall i {:trigger was[i]} :: 0 <= i < |was| ==> related(was[i], now.value[i])
  }

  predicate StateFilled(before: Json, after: Json) {
    if !before.Object? then after == before
    else after.Object? && after.fields == map["ui_state" := Object(map[])] + before.fields
  }

  ghost predicate UpgradedToV2(before: Fields, after: Fields) {
    && Entry(after, "schema_version") == Some(Int(2)) && SameOutside(before, after, {"schema_version", "connections"})
    && EachConnection(before, after, StateFilled)
  }

  /** Some node of the type has this text id. */
  predicate NamesType(data: Fields, typeId: string, id: Json) {
    ItemsOf(data, "nodes").Some?
    && exists n :: n in ItemsOf(data, "nodes").value && HasType(n, typeId) && Get(n.fields, "id") == id
  }

  predicate IntoOldStatistics(data: Fields, c: Json) {
    && c.Object? && Get(c.fields, "destination_port_id") == Text("values")
    && NamesType(data, STATISTICS, Get(c.fields, "destination_node_id"))
  }

  ghost predicate Retargeted(before: Json, after: Json) {
    && before.Object? && after.Object? && Entry(after.fields, "destination_port_id") == Some(Text("values_1"))
    && SameOutside(before.fields, after.fields, {"destination_port_id"})
  }

  ghost predicate UpgradedToV3(before: Fields, after: Fields) {
    && Entry(after, "schema_version") == Some(Int(3)) && SameOutside(before, after, {"schema_version", "connections"})
    && EachConnection(before, after, (b, c) => if IntoOldStatistics(before, b) then Retargeted(b, c) else c == b)
  }

  /** `r` holds exactly the items to keep, in their order. */
  ghost predicate Picked(items: seq<Json>, r: seq<Json>, keep: Json -> bool) {
    exists at :: PickedAt(items, r, keep, at)
  }

  ghost predicate PickedAt(items: seq<Json>, r: seq<Json>, keep: Json -> bool, at: seq<nat>) {
    && |at| == |r| && Increasing(at)
    && (forall k :: 0 <= k < |at| ==> at[k] < |items| && r[k] == items[at[k]])
    && (forall i: nat :: i in at <==> i < |items| && keep(items[i]))
  }

  /** Shares its id with a node of the removed type. */
  predicate RemovedNode(data: Fields, n: Json) { n.Object? && NamesType(data, OPACITY, Get(n.fields, "id")) }

  predicate RemovedConnection(data: Fields, c: Json) {
    && c.Object?
    && var source, destination := Get(c.fields, "source_node_id"), Get(c.fields, "destination_node_id");
       || NamesType(data, OPACITY, source) || NamesType(data, OPACITY, destination)
       || (NamesType(data, COMBINE, destination) && Get(c.fields, "destination_port_id") == Text("channel_4"))
       || (NamesType(data, SEPARATE, source) && Get(c.fields, "source_port_id") == Text("channel_4"))
  }

  ghost predicate UpgradedToV4(before: Fields, after: Fields) {
    && Entry(after, "schema_version") == Some(Int(4))
    && SameOutside(before, after, {"schema_version", "nodes", "connections"})
    && (if ItemsOf(before, "nodes").None? then Entry(after, "nodes") == Entry(before, "nodes")
        else
          && ItemsOf(after, "nodes").Some?
          && Picked(ItemsOf(before, "nodes").value, ItemsOf(after, "nodes").value, n => !RemovedNode(before, n)))
    && (if ItemsOf(before, "connections").None? || ItemsOf(before, "nodes").None?
        then Entry(after, "connections") == Entry(before, "connections")
        else
          && ItemsOf(after, "connections").Some?
          && Picked(ItemsOf(before, "connections").value, ItemsOf(after, "connections").value,
                    c => !RemovedConnection(before, c)))
  }

  /* ---- the migrations change exactly that ---- */

  lemma DefaultFills(f: Fields, key: string, v: Json, k: string)
    ensures Entry(SetDefault(f, key, v), k) == if k == key && k !in f then Some(v) else Entry(f, k)
  {
  }

  lemma NodeUpgrades(j: Json)
    ensures NodeUpgraded(j, NodeV1(j))
  {
    if j.Object? {
      var n := j.fields;
      var named := if VersionMoves(n) then (n - {"version"})["implementation_version" := n["version"]] else n;
      var placed := SetDefault(named, "position", List([Number(0.0), Number(0.0)]));
      var sized := SetDefault(placed, "size", Null);
      var parameters := SetDefault(sized, "parameters", Object(map[]));
      var stated := SetDefault(parameters, "ui_state", Object(map[]));
      var labelled := SetDefault(stated, "user_label", Null);
      var all := SetDefault(labelled, "collapsed", Truth(false));
      assert NodeV1(j) == Object(all);
      forall k ensures Entry(all, k) == Filled(named, NODE_DEFAULTS, k) {
        DefaultFills(named, "position", List([Number(0.0), Number(0.0)]), k);
        DefaultFills(placed, "size", Null, k);
        DefaultFills(sized, "parameters", Object(map[]), k);
        DefaultFills(parameters, "ui_state", Object(map[]), k);
        DefaultFills(stated, "user_label", Null, k);
        DefaultFills(labelled, "collapsed", Truth(false), k);
      }
      NamedFills(n, named, all);
    }
  }

  lemma NamedFills(n: Fields, named: Fields, all: Fields)
    requires named == if VersionMoves(n) then (n - {"version"})["implementation_version" := n["version"]] else n
    requires forall k :: Entry(all, k) == Filled(named, NODE_DEFAULTS, k)
    ensures NodeUpgraded(Object(n), Object(all))
  {
  }

  lemma DocumentFills(data: Fields, k: string)
    ensures Entry(DocumentV1(data), k) ==
            if k == "schema_version" then Some(Int(1)) else Filled(data, DOCUMENT_DEFAULTS, k)
  {
    var f := data["schema_version" := Int(1)];
    var named := SetDefault(f, "application_version", Text(APPLICATION_VERSION));
    var grouped := SetDefault(named, "groups", List([]));
    var settled := SetDefault(grouped, "document_settings", Object(map[]));
    DefaultFills(f, "application_version", Text(APPLICATION_VERSION), k);
    DefaultFills(named, "groups", List([]), k);
    DefaultFills(grouped, "document_settings", Object(map[]), k);
    DefaultFills(settled, "ui_state", Object(map[]), k);
  }

  /** The first step: fields that were there are kept, missing ones filled, a version moved to its new name. */
  lemma V1Upgrades(data: Fields)
    ensures UpgradedToV1(data, V1(data))
  {
    var d, nodes := DocumentV1(data), ItemsOf(data, "nodes");
    forall k ensures Entry(d, k) == if k == "schema_version" then Some(Int(1)) else Filled(data, DOCUMENT_DEFAULTS, k) {
      DocumentFills(data, k);
    }
    assert Entry(d, "nodes") == Entry(data, "nodes") && ItemsOf(d, "nodes") == nodes;
    if nodes.Some? {
      forall i | 0 <= i < |nodes.value| ensures NodeUpgraded(nodes.value[i], EachNodeV1(nodes.value)[i]) {
        NodeUpgrades(nodes.value[i]);
      }
    }
  }

  /** The second step: only connections change, and only by a state where there was none. */
  lemma V2Upgrades(data: Fields)
    ensures UpgradedToV2(data, V2(data))
  {
  }

  lemma ConnectionRetargets(data: Fields, statistics: set<Json>, j: Json)
    requires forall id :: id in statistics <==> NamesType(data, STATISTICS, id)
    ensures if IntoOldStatistics(data, j) then Retargeted(j, ConnectionV3(statistics, j))
            else ConnectionV3(statistics, j) == j
  {
  }

  /** The third step: exactly the connections into the old statistics socket change, and only in that socket. */
  lemma V3Upgrades(data: Fields)
    ensures UpgradedToV3(data, V3(data))
  {
    var d := data["schema_version" := Int(3)];
    var statistics, connections := StatisticsOf(d), ItemsOf(data, "connections");
    assert ItemsOf(d, "nodes") == ItemsOf(data, "nodes") && ItemsOf(d, "connections") == connections;
    assert forall id :: id in statistics <==> NamesType(data, STATISTICS, id);
    if connections.Some? {
      forall i | 0 <= i < |connections.value|
        ensures var b := connections.value[i];
                if IntoOldStatistics(data, b) then Retargeted(b, ConnectionV3(statistics, b))
                  else ConnectionV3(statistics, b) == b
      {
        ConnectionRetargets(data, statistics, connections.value[i]);
      }
    }
  }

  lemma {:induction false} NodesArePicked(data: Fields, opacity: set<Json>, items: seq<Json>)
    requires forall id :: id in opacity <==> NamesType(data, OPACITY, id)
    ensures Picked(items, NodesKept(opacity, items), n => !RemovedNode(data, n))
  {
    var keep := n => !RemovedNode(data, n);
    if items == [] {
      assert PickedAt(items, [], keep, []);
    } else {
      NodesArePicked(data, opacity, items[..|items| - 1]);
      var at :| PickedAt(items[..|items| - 1], NodesKept(opacity, items[..|items| - 1]), keep, at);
      PickedOneMore(items, NodesKept(opacity, items[..|items| - 1]), keep, at);
    }
  }

  lemma PickedOneMore(items: seq<Json>, r: seq<Json>, keep: Json -> bool, at: seq<nat>)
    requires items != [] && PickedAt(items[..|items| - 1], r, keep, at)
    ensures Picked(items, r + if keep(items[|items| - 1]) then [items[|items| - 1]] else [], keep)
  {
    var n := |items| - 1;
    var longer := at + if keep(items[n]) then [n] else [];
    assert forall i: nat :: i in longer <==> i in at || (keep(items[n]) && i == n);
    assert PickedAt(items, r + if keep(items[n]) then [items[n]] else [], keep, longer);
  }

  /** The collected ids of the three node types. */
  ghost predicate Collected(data: Fields, opacity: set<Json>, separate: set<Json>, combine: set<Json>) {
    && (forall id :: id in opacity <==> NamesType(data, OPACITY, id))
    && (forall id :: id in separate <==> NamesType(data, SEPARATE, id))
    && (forall id :: id in combine <==> NamesType(data, COMBINE, id))
  }

  lemma RetiredIffRemoved(data: Fields, opacity: set<Json>, separate: set<Json>, combine: set<Json>, c: Json)
    requires Collected(data, opacity, separate, combine)
    ensures Retired(opacity, separate, combine, c) <==> RemovedConnection(data, c)
  {
  }

  lemma {:induction false} ConnectionsArePicked(data: Fields, opacity: set<Json>, separate: set<Json>,
                                                combine: set<Json>, items: seq<Json>)
    requires Collected(data, opacity, separate, combine)
    ensures Picked(items, ConnectionsKept(opacity, separate, combine, items), c => !RemovedConnection(data, c))
  {
    var keep := c => !RemovedConnection(data, c);
    if items == [] {
      assert PickedAt(items, [], keep, []);
    } else {
      var last := items[|items| - 1];
      var front := ConnectionsKept(opacity, separate, combine, items[..|items| - 1]);
      ConnectionsArePicked(data, opacity, separate, combine, items[..|items| - 1]);
      var at :| PickedAt(items[..|items| - 1], front, keep, at);
      PickedOneMore(items, front, keep, at);
      RetiredIffRemoved(data, opacity, separate, combine, last);
      assert ConnectionsKept(opacity, separate, combine, items) == front + if keep(last) then [last] else [];
    }
  }

  lemma IdsAreCollected(data: Fields)
    requires ItemsOf(data, "nodes").Some?
    ensures var nodes := ItemsOf(data, "nodes").value;
            Collected(data, IdsOfType(nodes, OPACITY), IdsOfType(nodes, SEPARATE), IdsOfType(nodes, COMBINE))
  {
  }

  lemma V4Connections(data: Fields)
    requires ItemsOf(data, "nodes").Some? && ItemsOf(data, "connections").Some?
    ensures var nodes, r := ItemsOf(data, "nodes").value, ItemsOf(V4(data), "connections");
            r == Some(ConnectionsKept(IdsOfType(nodes, OPACITY), IdsOfType(nodes, SEPARATE), IdsOfType(nodes, COMBINE),
                                      ItemsOf(data, "connections").value))
  {
  }

  lemma V4Elsewhere(data: Fields)
    ensures Entry(V4(data), "schema_version") == Some(Int(4))
    ensures SameOutside(data, V4(data), {"schema_version", "nodes", "connections"})
    ensures ItemsOf(data, "nodes").None? ==> SameOutside(data, V4(data), {"schema_version"})
    ensures ItemsOf(data, "connections").None? ==> Entry(V4(data), "connections") == Entry(data, "connections")
  {
  }

  /** The last step: exactly the removed nodes go, and with them exactly the connections to them or to retired
      sockets; the rest keeps its order. */
  lemma V4Upgrades(data: Fields)
    ensures UpgradedToV4(data, V4(data))
  {
    V4Elsewhere(data);
    V4Items(data);
    if ItemsOf(data, "nodes").Some? {
      var nodes := ItemsOf(data, "nodes").value;
      IdsAreCollected(data);
      NodesArePicked(data, IdsOfType(nodes, OPACITY), nodes);
      if ItemsOf(data, "connections").Some? {
        V4Connections(data);
        ConnectionsArePicked(data, IdsOfType(nodes, OPACITY), IdsOfType(nodes, SEPARATE), IdsOfType(nodes, COMBINE),
                             ItemsOf(data, "connections").value);
      }
    }
  }

  lemma {:induction false} NothingRemoved(opacity: set<Json>, items: seq<Json>)
    requires forall id :: id !in opacity
    ensures NodesKept(opacity, items) == items
  {
    if items == [] {
    } else {
      var front, last := items[..|items| - 1], items[|items| - 1];
      NothingRemoved(opacity, front);
      assert items == front + [last];
    }
  }

  /* ---- the migrations as the source runs them ---- */

  method MigrateV0ToV1(data: Fields) returns (migrated: Fields)
    ensures migrated == V1(data)
  {
    migrated := data["schema_version" := Int(1)];
    migrated := SetDefault(SetDefault(migrated, "application_version", Text(APPLICATION_VERSION)), "groups", List([]));
    migrated := SetDefault(SetDefault(migrated, "document_settings", Object(map[])), "ui_state", Object(map[]));
    var nodes := ItemsOf(migrated, "nodes");
    if nodes.Some? {
      var items := nodes.value;
      for i := 0 to |items|
        invariant |items| == |nodes.value|
        invariant forall j :: 0 <= j < |items| ==> items[j] == if j < i then NodeV1(nodes.value[j]) else nodes.value[j]
      {
        items := items[i := NodeV1(items[i])];
      }
      assert items == EachNodeV1(nodes.value);
      migrated := migrated["nodes" := List(items)];
    }
  }

  method MigrateV1ToV2(data: Fields) returns (migrated: Fields)
    ensures migrated == V2(data)
  {
    migrated := data["schema_version" := Int(2)];
    var connections := ItemsOf(migrated, "connections");
    if connections.Some? {
      var items := connections.value;
      for i := 0 to |items|
        invariant |items| == |connections.value|
        invariant forall j :: 0 <= j < |items| ==>
                  items[j] == if j < i then ConnectionV2(connections.value[j]) else connections.value[j]
      {
        items := items[i := ConnectionV2(items[i])];
      }
      assert items == EachConnectionV2(connections.value);
      migrated := migrated["connections" := List(items)];
    }
  }

  method CollectIds(nodes: seq<Json>, typeId: string) returns (ids: set<Json>)
    ensures ids == IdsOfType(nodes, typeId)
  {
    ids := {};
    for i := 0 to |nodes|
      invariant ids == IdsOfType(nodes[..i], typeId)
    {
      assert nodes[..i + 1] == nodes[..i] + [nodes[i]];
      if HasType(nodes[i], typeId) {
        ids := ids + {Get(nodes[i].fields, "id")};
      }
    }
    assert nodes[..|nodes|] == nodes;
  }

  method MigrateV2ToV3(data: Fields) returns (migrated: Fields)
    ensures migrated == V3(data)
  {
    migrated := data["schema_version" := Int(3)];
    var nodes, connections := ItemsOf(migrated, "nodes"), ItemsOf(migrated, "connections");
    var statistics: set<Json> := {};
    if nodes.Some? {
      statistics := CollectIds(nodes.value, STATISTICS);
    }
    if statistics == {} || connections.None? {
      return;
    }
    var items := connections.value;
    for i := 0 to |items|
      invariant |items| == |connections.value|
      invariant forall j :: 0 <= j < |items| ==>
                  items[j] == if j < i then ConnectionV3(statistics, connections.value[j]) else connections.value[j]
    {
      items := items[i := ConnectionV3(statistics, items[i])];
    }
    assert items == EachConnectionV3(statistics, connections.value);
    migrated := migrated["connections" := List(items)];
  }

  method MigrateV3ToV4(data: Fields) returns (migrated: Fields)
    ensures migrated == V4(data)
  {
    migrated := data["schema_version" := Int(4)];
    var nodes, connections := ItemsOf(migrated, "nodes"), ItemsOf(migrated, "connections");
    if nodes.None? {
      return;
    }
    var opacity := CollectIds(nodes.value, OPACITY);
    var separate := CollectIds(nodes.value, SEPARATE);
    var combine := CollectIds(nodes.value, COMBINE);
    if opacity != {} {
      migrated := migrated["nodes" := List(NodesKept(opacity, nodes.value))];
    }
    if connections.None? {
      return;
    }
    var kept: seq<Json> := [];
    for i := 0 to |connections.value|
      invariant kept == ConnectionsKept(opacity, separate, combine, connections.value[..i])
    {
      assert connections.value[..i + 1][..i] == connections.value[..i];
      if !Retired(opacity, separate, combine, connections.value[i]) {
        kept := kept + [connections.value[i]];
      }
    }
    assert connections.value[..|connections.value|] == connections.value;
    migrated := migrated["connections" := List(kept)];
  }

  /** The migration registered for a version. */
  method MigrateStep(version: nat, data: Fields) returns (migrated: Fields)
    requires version < CURRENT
    ensures migrated == Step(version, data)
  {
    if version == 0 {
      migrated := MigrateV0ToV1(data);
    } else if version == 1 {
      migrated := MigrateV1ToV2(data);
    } else if version == 2 {
      migrated := MigrateV2ToV3(data);
    } else {
      migrated := MigrateV3ToV4(data);
    }
  }

  /** The version loop. It has no failing path but the version itself: every registered step exists and
      raises the version by one. */
  method MigrateGraphData(data: Fields) returns (r: Option<Fields>)
    ensures r == Migrated(data)
    ensures r.None? <==> Version(data).None? || Version(data).value > CURRENT
    ensures r.Some? ==> Version(r.value) == Some(CURRENT)
  {
    var v := Version(data);
    if v.None? || v.value > CURRENT {
      return None;
    }
    var migrated, version := data, v.value;
    while version < CURRENT
      invariant version <= CURRENT && Version(migrated) == Some(version)
      invariant From(version, migrated) == From(v.value, data)
    {
      StepRaisesVersion(version, migrated);
      migrated := MigrateStep(version, migrated);
      version := version + 1;
    }
    r := Some(migrated);
  }

  lemma StepRaisesVersion(version: nat, data: Fields)
    requires version < CURRENT
    ensures Version(Step(version, data)) == Some(version + 1)
  {
  }

  /** Current data is left alone. */
  lemma CurrentIsStable(data: Fields)
    requires Version(data) == Some(CURRENT)
    ensures Migrated(data) == Some(data)
  {
  }

  /** The chain of migrations ends at the current version. */
  lemma {:induction false} FromEndsAtCurrent(version: nat, data: Fields)
    requires version <= CURRENT && Version(data) == Some(version)
    ensures Version(From(version, data)) == Some(CURRENT)
    decreases CURRENT - version
  {
    if version == CURRENT {
    } else {
      StepRaisesVersion(version, data);
      FromEndsAtCurrent(version + 1, Step(version, data));
    }
  }

  /* ---- no migration leaves a connection dangling ---- */

  function ObjectIds(nodes: seq<Json>): set<Json> { set n | n in nodes && n.Object? :: Get(n.fields, "id") }

  function NodeIdsIn(data: Fields): set<Json> {
    if ItemsOf(data, "nodes").None? then {} else ObjectIds(ItemsOf(data, "nodes").value)
  }

  /** What an id field is read as later on. An id may have several spellings; the migrations compare them as they
      are written. */
  type Reading = Json -> Option<nat>

  /** Some node object has an id that reads the same. */
  predicate NamesNode(data: Fields, read: Reading, id: Json) {
    read(id).Some? && exists n :: n in NodeIdsIn(data) && read(n) == read(id)
  }

  /** A connection object with an end that names no node object. */
  predicate Dangles(data: Fields, read: Reading, c: Json) {
    && c.Object?
    && !(NamesNode(data, read, Get(c.fields, "source_node_id"))
         && NamesNode(data, read, Get(c.fields, "destination_node_id")))
  }

  predicate HoldsConnection(data: Fields, c: Json) {
    ItemsOf(data, "connections").Some? && c in ItemsOf(data, "connections").value
  }

  predicate IsEnd(data: Fields, id: Json) {
    && ItemsOf(data, "connections").Some?
    && exists c :: c in ItemsOf(data, "connections").value && c.Object?
                   && (id == Get(c.fields, "source_node_id") || id == Get(c.fields, "destination_node_id"))
  }

  /** No connection spells an end otherwise than the nodes it names. */
  ghost predicate OneSpelling(data: Fields, read: Reading) {
    forall n, id {:trigger n in NodeIdsIn(data), IsEnd(data, id)} ::
      n in NodeIdsIn(data) && IsEnd(data, id) && read(id).Some? && read(n) == read(id) ==> n == id
  }

  /** The same connection, but for its state and its destination socket. */
  ghost predicate SameConnection(b: Json, c: Json) {
    b == c || (b.Object? && c.Object? && SameOutside(b.fields, c.fields, {"ui_state", "destination_port_id"}))
  }

  ghost predicate DangledIn(before: Fields, read: Reading, c: Json) {
    exists b :: HoldsConnection(before, b) && Dangles(before, read, b) && SameConnection(b, c)
  }

  /** Every dangling connection afterwards is one that dangled before. */
  ghost predicate NothingElseDangles(before: Fields, read: Reading, after: Fields) {
    forall c {:trigger HoldsConnection(after, c)} :: HoldsConnection(after, c) && Dangles(after, read, c) ==>
      DangledIn(before, read, c)
  }

  lemma SameEnds(b: Json, c: Json)
    requires SameConnection(b, c)
    ensures b.Object? <==> c.Object?
    ensures b.Object? ==>
              && Get(b.fields, "source_node_id") == Get(c.fields, "source_node_id")
              && Get(b.fields, "destination_node_id") == Get(c.fields, "destination_node_id")
  {
    if b != c {
      assert Entry(c.fields, "source_node_id") == Entry(b.fields, "source_node_id");
      assert Entry(c.fields, "destination_node_id") == Entry(b.fields, "destination_node_id");
    }
  }

  /** A step that keeps the node ids and, but for state and socket, the connections. */
  ghost predicate KeepsWiring(before: Fields, after: Fields) {
    && NodeIdsIn(after) == NodeIdsIn(before)
    && (forall c {:trigger HoldsConnection(after, c)} :: HoldsConnection(after, c) ==> Continues(before, c))
  }

  ghost predicate Continues(before: Fields, c: Json) { exists b :: HoldsConnection(before, b) && SameConnection(b, c) }

  lemma WiringKeepsEnds(before: Fields, read: Reading, after: Fields)
    requires KeepsWiring(before, after)
    ensures NothingElseDangles(before, read, after)
    ensures OneSpelling(before, read) ==> OneSpelling(after, read)
  {
    forall c | HoldsConnection(after, c) && Dangles(after, read, c) ensures DangledIn(before, read, c) {
      assert Continues(before, c);
      var b :| HoldsConnection(before, b) && SameConnection(b, c);
      SameEnds(b, c);
      assert Dangles(before, read, b);
    }
    forall id | IsEnd(after, id) ensures IsEnd(before, id) {
      var c :| c in ItemsOf(after, "connections").value && c.Object?
               && (id == Get(c.fields, "source_node_id") || id == Get(c.fields, "destination_node_id"));
      assert HoldsConnection(after, c) && Continues(before, c);
      var b :| HoldsConnection(before, b) && SameConnection(b, c);
      SameEnds(b, c);
    }
  }

  lemma DangledSame(a: Fields, read: Reading, b: Json, c: Json)
    requires DangledIn(a, read, b) && SameConnection(b, c)
    ensures DangledIn(a, read, c)
  {
    var x :| HoldsConnection(a, x) && Dangles(a, read, x) && SameConnection(x, b);
    SameConnectionTransitive(x, b, c);
  }

  lemma DangledBefore(a: Fields, read: Reading, b: Fields, c: Json)
    requires NothingElseDangles(a, read, b) && DangledIn(b, read, c)
    ensures DangledIn(a, read, c)
  {
    var y :| HoldsConnection(b, y) && Dangles(b, read, y) && SameConnection(y, c);
    DangledSame(a, read, y, c);
  }

  lemma SameConnectionTransitive(a: Json, b: Json, c: Json)
    requires SameConnection(a, b) && SameConnection(b, c)
    ensures SameConnection(a, c)
  {
    if a != b && b != c {
      forall k | k !in {"ui_state", "destination_port_id"} ensures Entry(c.fields, k) == Entry(a.fields, k) {
        assert Entry(c.fields, k) == Entry(b.fields, k);
      }
    }
  }

  lemma NodeKeepsId(j: Json)
    ensures NodeV1(j).Object? <==> j.Object?
    ensures j.Object? ==> Get(NodeV1(j).fields, "id") == Get(j.fields, "id")
  {
    NodeUpgrades(j);
    if j.Object? { assert Entry(NodeV1(j).fields, "id") == Filled(j.fields, NODE_DEFAULTS, "id"); }
  }

  lemma EachKeepsIds(nodes: seq<Json>)
    ensures ObjectIds(EachNodeV1(nodes)) == ObjectIds(nodes)
  {
    var each := EachNodeV1(nodes);
    forall n | n in nodes && n.Object? ensures Get(n.fields, "id") in ObjectIds(each) {
      var i :| 0 <= i < |nodes| && nodes[i] == n;
      NodeKeepsId(n);
      assert each[i] in each;
    }
    forall m | m in each && m.Object? ensures Get(m.fields, "id") in ObjectIds(nodes) {
      var i :| 0 <= i < |each| && each[i] == m;
      NodeKeepsId(nodes[i]);
      assert nodes[i] in nodes;
    }
  }

  lemma V1KeepsWiring(data: Fields)
    ensures KeepsWiring(data, V1(data))
  {
    V1Upgrades(data);
    assert Entry(V1(data), "connections") == Filled(data, DOCUMENT_DEFAULTS, "connections");
    DocumentFills(data, "nodes");
    if ItemsOf(data, "nodes").Some? { EachKeepsIds(ItemsOf(data, "nodes").value); }
    forall c | HoldsConnection(V1(data), c) ensures Continues(data, c) {
      assert HoldsConnection(data, c) && SameConnection(c, c);
    }
  }

  lemma V2KeepsWiring(data: Fields)
    ensures KeepsWiring(data, V2(data))
  {
    forall c | HoldsConnection(V2(data), c) ensures Continues(data, c) {
      var connections := ItemsOf(data, "connections").value;
      var i :| 0 <= i < |connections| && c == ConnectionV2(connections[i]);
      assert HoldsConnection(data, connections[i]) && SameConnection(connections[i], c);
    }
  }

  lemma V3KeepsWiring(data: Fields)
    ensures KeepsWiring(data, V3(data))
  {
    V3Upgrades(data);
    assert Entry(V3(data), "nodes") == Entry(data, "nodes");
    forall c | HoldsConnection(V3(data), c) ensures Continues(data, c) {
      var was, now := ItemsOf(data, "connections").value, ItemsOf(V3(data), "connections").value;
      var i :| 0 <= i < |now| && c == now[i];
      assert was[i] in was;
      assert HoldsConnection(data, was[i]) && SameConnection(was[i], c);
    }
  }

  lemma V4Items(data: Fields)
    ensures ItemsOf(V4(data), "nodes").Some? <==> ItemsOf(data, "nodes").Some?
    ensures ItemsOf(data, "nodes").Some? ==>
              ItemsOf(V4(data), "nodes").value ==
              NodesKept(IdsOfType(ItemsOf(data, "nodes").value, OPACITY), ItemsOf(data, "nodes").value)
  {
    var nodes := ItemsOf(data, "nodes");
    if nodes.Some? && IdsOfType(nodes.value, OPACITY) == {} { NothingRemoved({}, nodes.value); }
  }

  lemma V4KeepsIds(data: Fields, id: Json)
    requires id in NodeIdsIn(data)
    ensures id in NodeIdsIn(V4(data)) || id in IdsOfType(ItemsOf(data, "nodes").value, OPACITY)
  {
    var nodes := ItemsOf(data, "nodes").value;
    V4Items(data);
    var n :| n in nodes && n.Object? && Get(n.fields, "id") == id;
    KeptNodes(IdsOfType(nodes, OPACITY), nodes, n);
  }

  lemma V4Connection(data: Fields, c: Json)
    requires HoldsConnection(V4(data), c)
    ensures HoldsConnection(data, c)
    ensures ItemsOf(data, "nodes").Some? ==>
              var nodes := ItemsOf(data, "nodes").value;
              !Retired(IdsOfType(nodes, OPACITY), IdsOfType(nodes, SEPARATE), IdsOfType(nodes, COMBINE), c)
  {
    if ItemsOf(data, "nodes").Some? {
      var nodes := ItemsOf(data, "nodes").value;
      KeptConnections(IdsOfType(nodes, OPACITY), IdsOfType(nodes, SEPARATE), IdsOfType(nodes, COMBINE),
                      ItemsOf(data, "connections").value, c);
    }
  }

  /** The node an end names is kept unless the end is spelled as the id of a removed node. */
  lemma V4KeepsName(data: Fields, read: Reading, id: Json)
    requires OneSpelling(data, read) && IsEnd(data, id) && NamesNode(data, read, id)
    ensures NamesNode(V4(data), read, id) || id in IdsOfType(ItemsOf(data, "nodes").value, OPACITY)
  {
    var n :| n in NodeIdsIn(data) && read(n) == read(id);
    V4KeepsIds(data, n);
  }

  /** Dropping nodes leaves no connection to them. */
  lemma V4KeepsEnds(data: Fields, read: Reading)
    requires OneSpelling(data, read)
    ensures NothingElseDangles(data, read, V4(data))
  {
    forall c | HoldsConnection(V4(data), c) && Dangles(V4(data), read, c) ensures DangledIn(data, read, c) {
      V4Connection(data, c);
      V4Items(data);
      if !Dangles(data, read, c) {
        V4KeepsName(data, read, Get(c.fields, "source_node_id"));
        V4KeepsName(data, read, Get(c.fields, "destination_node_id"));
      }
      assert Dangles(data, read, c) && SameConnection(c, c);
    }
  }

  /** Migration introduces no dangling connection: whatever dangles afterwards did so before, if no connection spells
      the id of a node otherwise than the node does. With older data than version 4 that is a condition on the data
      as they are given. */
  lemma NoNewDangling(data: Fields, read: Reading)
    requires Migrated(data).Some? && OneSpelling(data, read)
    ensures NothingElseDangles(data, read, Migrated(data).value)
  {
    FromKeepsEnds(Version(data).value, data, read);
  }

  lemma StepKeepsEnds(version: nat, data: Fields, read: Reading)
    requires OneSpelling(data, read)
    ensures NothingElseDangles(data, read, Step(version, data))
    ensures version < CURRENT - 1 ==> OneSpelling(Step(version, data), read)
  {
    if version >= CURRENT - 1 {
      V4KeepsEnds(data, read);
    } else {
      if version == 0 { V1KeepsWiring(data); }
      else if version == 1 { V2KeepsWiring(data); }
      else { V3KeepsWiring(data); }
      WiringKeepsEnds(data, read, Step(version, data));
    }
  }

  lemma {:induction false} FromKeepsEnds(version: nat, data: Fields, read: Reading)
    requires version < CURRENT ==> OneSpelling(data, read)
    ensures NothingElseDangles(data, read, From(version, data))
    decreases CURRENT - version
  {
    if version >= CURRENT {
      forall c | HoldsConnection(data, c) && Dangles(data, read, c) ensures DangledIn(data, read, c) {
        assert SameConnection(c, c);
      }
    } else {
      var next := Step(version, data);
      StepKeepsEnds(version, data, read);
      FromKeepsEnds(version + 1, next, read);
      forall c | HoldsConnection(From(version, data), c) && Dangles(From(version, data), read, c)
        ensures DangledIn(data, read, c)
      {
        DangledBefore(data, read, next, c);
      }
    }
  }

  /* ---- an id spelled in two ways ---- */

  const UPPER := Text("AB")
  const LOWER := Text("ab")
  const OTHER := Text("cd")

  /** Letters of either case. */
  const HEX: Reading := j => if j == UPPER || j == LOWER then Some(0xab) else if j == OTHER then Some(0xcd) else None

  const REMOVED := Object(map["id" := UPPER, "type_id" := Text(OPACITY)])
  const STAYING := Object(map["id" := OTHER])
  const LINK := Object(map["source_node_id" := LOWER, "destination_node_id" := OTHER])

  const TWO_SPELLINGS: Fields := map[
    "schema_version" := Int(3), "nodes" := List([REMOVED, STAYING]), "connections" := List([LINK])]

  lemma TypesOfThese()
    ensures HasType(REMOVED, OPACITY) && !HasType(REMOVED, SEPARATE) && !HasType(REMOVED, COMBINE)
    ensures forall typeId :: !HasType(STAYING, typeId)
    ensures Get(REMOVED.fields, "id") == UPPER && Get(STAYING.fields, "id") == OTHER
    ensures UPPER != LOWER && UPPER != OTHER && LOWER != OTHER
  {
    assert |OPACITY| != |SEPARATE| && |OPACITY| != |COMBINE|;
    assert "AB"[0] != "ab"[0] && "AB"[0] != "cd"[0] && "ab"[0] != "cd"[0];
  }

  lemma OneIsRemoved(nodes: seq<Json>, removed: Json, staying: Json)
    requires nodes == [removed, staying] && removed.Object? && staying.Object?
    requires HasType(removed, OPACITY) && !HasType(staying, OPACITY)
    requires Get(removed.fields, "id") != Get(staying.fields, "id")
    ensures IdsOfType(nodes, OPACITY) == {Get(removed.fields, "id")}
    ensures NodesKept({Get(removed.fields, "id")}, nodes) == [staying]
    ensures ObjectIds([staying]) == {Get(staying.fields, "id")}
    ensures ObjectIds(nodes) == {Get(removed.fields, "id"), Get(staying.fields, "id")}
  {
    assert nodes[0] in nodes && nodes[1] in nodes && [staying][0] in [staying];
    var front := nodes[..1];
    assert front == [removed] && front[..0] == [];
    assert NodesKept({Get(removed.fields, "id")}, front) == [];
  }

  lemma LinkIsKept(separate: set<Json>, combine: set<Json>)
    requires separate == combine == {}
    ensures ConnectionsKept({UPPER}, separate, combine, [LINK]) == [LINK]
  {
    TypesOfThese();
    assert [LINK][..0] == [];
    assert !Retired({UPPER}, separate, combine, LINK);
  }

  lemma NoneOfType(typeId: string)
    requires !HasType(REMOVED, typeId) && !HasType(STAYING, typeId)
    ensures IdsOfType([REMOVED, STAYING], typeId) == {}
  {
  }

  lemma AfterTheLastStep(data: Fields)
    requires ItemsOf(data, "nodes") == Some([REMOVED, STAYING]) && ItemsOf(data, "connections") == Some([LINK])
    ensures HoldsConnection(V4(data), LINK) && NodeIdsIn(V4(data)) == {OTHER} && NodeIdsIn(data) == {UPPER, OTHER}
  {
    TypesOfThese();
    OneIsRemoved([REMOVED, STAYING], REMOVED, STAYING);
    NoneOfType(SEPARATE);
    NoneOfType(COMBINE);
    LinkIsKept({}, {});
    V4Items(data);
    V4Connections(data);
    assert [LINK][0] in [LINK];
  }

  lemma LinkDangles(data: Fields)
    requires NodeIdsIn(data) == {OTHER} || NodeIdsIn(data) == {UPPER, OTHER}
    ensures Dangles(data, HEX, LINK) <==> NodeIdsIn(data) == {OTHER}
  {
    TypesOfThese();
    assert Get(LINK.fields, "source_node_id") == LOWER && Get(LINK.fields, "destination_node_id") == OTHER;
    assert UPPER in NodeIdsIn(data) ==> NamesNode(data, HEX, LOWER);
    assert NamesNode(data, HEX, OTHER);
  }

  lemma LastStepAlone(data: Fields)
    requires Version(data) == Some(3)
    ensures Migrated(data) == Some(V4(data))
  {
  }

  lemma LinkTurns(data: Fields)
    requires ItemsOf(data, "nodes") == Some([REMOVED, STAYING]) && ItemsOf(data, "connections") == Some([LINK])
    ensures !OneSpelling(data, HEX) && HoldsConnection(data, LINK) && !Dangles(data, HEX, LINK)
    ensures HoldsConnection(V4(data), LINK) && Dangles(V4(data), HEX, LINK)
  {
    TypesOfThese();
    AfterTheLastStep(data);
    LinkDangles(data);
    LinkDangles(V4(data));
    assert [LINK][0] in [LINK];
    assert UPPER in NodeIdsIn(data) && IsEnd(data, LOWER);
  }

  /** The removed node is spelled in upper case and the connection to it in lower case: the connection did not dangle,
      is kept, and dangles. */
  lemma OtherSpellingDangles()
    ensures !OneSpelling(TWO_SPELLINGS, HEX) && Migrated(TWO_SPELLINGS).Some?
    ensures HoldsConnection(TWO_SPELLINGS, LINK) && !Dangles(TWO_SPELLINGS, HEX, LINK)
    ensures HoldsConnection(Migrated(TWO_SPELLINGS).value, LINK) && Dangles(Migrated(TWO_SPELLINGS).value, HEX, LINK)
  {
    LastStepAlone(TWO_SPELLINGS);
    LinkTurns(TWO_SPELLINGS);
  }

  /* ---- what the last step retired is gone ---- */

  /** No node object of the removed type with a text id is left, and no connection uses a retired socket of a
      node that is there. */
  ghost predicate NothingRetired(data: Fields) {
    && (ItemsOf(data, "nodes").Some? ==> forall n :: n in ItemsOf(data, "nodes").value ==> !HasType(n, OPACITY))
    && forall c {:trigger HoldsConnection(data, c)} :: HoldsConnection(data, c) ==> !RemovedConnection(data, c)
  }

  lemma V4Node(data: Fields, n: Json)
    requires ItemsOf(data, "nodes").Some? && n in ItemsOf(V4(data), "nodes").value
    ensures n in ItemsOf(data, "nodes").value && !HasType(n, OPACITY)
  {
    var nodes := ItemsOf(data, "nodes").value;
    V4Items(data);
    KeptNodes(IdsOfType(nodes, OPACITY), nodes, n);
    assert n in nodes && HasType(n, OPACITY) ==> Dropped(IdsOfType(nodes, OPACITY), n);
  }

  lemma RetiredGo(data: Fields)
    ensures NothingRetired(V4(data))
  {
    V4Items(data);
    if ItemsOf(data, "nodes").Some? {
      var nodes := ItemsOf(data, "nodes").value;
      forall n | n in ItemsOf(V4(data), "nodes").value ensures n in nodes && !HasType(n, OPACITY) { V4Node(data, n); }
      forall typeId, id | NamesType(V4(data), typeId, id) ensures id in IdsOfType(nodes, typeId) { }
      forall c | HoldsConnection(V4(data), c) ensures !RemovedConnection(V4(data), c) { V4Connection(data, c); }
    }
  }

  lemma {:induction false} LastStepIsV4(version: nat, data: Fields) returns (third: Fields)
    requires version < CURRENT
    ensures From(version, data) == V4(third)
    decreases CURRENT - version
  {
    if version == CURRENT - 1 { third := data; } else { third := LastStepIsV4(version + 1, Step(version, data)); }
  }

  /** Whatever older version the data came from. */
  lemma RetiredAreGone(data: Fields)
    requires Migrated(data).Some? && Version(data) != Some(CURRENT)
    ensures NothingRetired(Migrated(data).value)
  {
    var third := LastStepIsV4(Version(data).value, data);
    RetiredGo(third);
  }
}
