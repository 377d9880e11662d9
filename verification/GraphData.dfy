/** Documents as data and back (graph_io.py): every storable document is read back as it was, sorted by id
    and with revision 0. None stands for the error a reader raises. */
module GraphData {
  import opened Common
  import opened PortNames
  import opened Literals
  import opened Schemas
  import opened Sorting

  type Point = (real, real)

  datatype NodeRecord = NodeRecord(
    id: Id, typeId: string, version: nat, parameters: map<string, Literal>, position: Point, size: Option<Point>,
    caption: Option<string>, collapsed: bool, uiState: map<string, Literal>)

  datatype LinkRecord = LinkRecord(id: Id, src: Id, srcPort: string, dst: Id, dstPort: string,
                                   uiState: map<string, Literal>)

  datatype GroupKind = Frame | Comment

  datatype GroupRecord = GroupRecord(id: Id, kind: GroupKind, title: string, text: string, position: Point, size: Point,
                                     color: string)

  datatype Document = Document(
    id: Id, revision: nat, nodes: seq<NodeRecord>, links: seq<LinkRecord>, settings: map<string, Literal>,
      groups: seq<GroupRecord>)

  /** A definition's current version and its node migrations. */
  datatype Definition = Definition(version: nat, migrations: map<nat, Fields -> Option<Fields>>)

  type Definitions = map<string, Definition>

  /* ---- ids, points and labels ---- */

  /** A UUID's text: one spelling per id. */
  function IdText(id: Id): Json { Text(Decimal(id + 1)) }

  function IdOf(j: Json): Option<Id> {
    if j.Text? && IsNumeral(j.text) && NumeralValue(j.text) > 0 then Some(NumeralValue(j.text) - 1) else None
  }

  lemma IdRoundTrip(id: Id)
    ensures IdOf(IdText(id)) == Some(id)
  {
    DecimalValue(id + 1);
  }

  function PointData(p: Point): Json { List([Number(p.0), Number(p.1)]) }

  function PointOf(j: Json): Option<Point> {
    if j.List? && |j.items| == 2 && NumberOf(j.items[0]).Some? && NumberOf(j.items[1]).Some?
    then Some((NumberOf(j.items[0]).value, NumberOf(j.items[1]).value)) else None
  }

  function SizeData(size: Option<Point>): Json { if size.None? then Null else PointData(size.value) }

  function SizeOf(j: Json): Option<Option<Point>> {
    if j == Null then Some(None) else if PointOf(j).Some? then Some(Some(PointOf(j).value)) else None
  }

  function LabelData(caption: Option<string>): Json { if caption.None? then Null else Text(caption.value) }

  function LabelOf(j: Json): Option<Option<string>> {
    if j == Null then Some(None) else if j.Text? then Some(Some(j.text)) else None
  }

  function KindName(k: GroupKind): string { if k == Frame then "GROUP" else "COMMENT" }

  function KindOf(j: Json): Option<GroupKind> {
    if j == Text("GROUP") then Some(Frame) else if j == Text("COMMENT") then Some(Comment) else None
  }

  predicate IsHex(c: char) { IsDigit(c) || 'a' <= c <= 'f' || 'A' <= c <= 'F' }

  predicate IsColor(s: string) { |s| == 7 && s[0] == '#' && forall i :: 1 <= i < 7 ==> IsHex(s[i]) }

  /* ---- writing ---- */

  const NODE_KEYS := {"id", "type_id", "implementation_version", "position", "size", "parameters", "ui_state",
                      "user_label", "collapsed"}
  const LINK_KEYS := {"id", "source_node_id", "source_port_id", "destination_node_id", "destination_port_id",
                      "ui_state"}
  const GROUP_KEYS := {"id", "kind", "title", "text", "position", "size", "color"}
  const DOCUMENT_KEYS := {"schema_version", "application_version", "document_id", "nodes", "connections", "groups",
                          "document_settings", "ui_state"}

  function NodeData(n: NodeRecord): Json {
    Object(map["id" := IdText(n.id), "type_id" := Text(n.typeId), "implementation_version" := Int(n.version),
               "position" := PointData(n.position), "size" := SizeData(n.size),
                 "parameters" := MappingData(n.parameters),
               "ui_state" := MappingData(n.uiState), "user_label" := LabelData(n.caption),
                 "collapsed" := Truth(n.collapsed)])
  }

  function LinkData(c: LinkRecord): Json {
    Object(map["id" := IdText(c.id), "source_node_id" := IdText(c.src), "source_port_id" := Text(c.srcPort),
               "destination_node_id" := IdText(c.dst), "destination_port_id" := Text(c.dstPort),
                 "ui_state" := MappingData(c.uiState)])
  }

  function GroupData(g: GroupRecord): Json {
    Object(map["id" := IdText(g.id), "kind" := Text(KindName(g.kind)), "title" := Text(g.title), "text" := Text(g.text),
               "position" := PointData(g.position), "size" := PointData(g.size), "color" := Text(g.color)])
  }

  /** Where the parts of a record are found in its data. */
  lemma LinkFields(c: LinkRecord)
    ensures LinkData(c).Object? && LinkData(c).fields.Keys == LINK_KEYS
    ensures var f := LinkData(c).fields;
            && IdOf(f["id"]) == Some(c.id) && MappingData(c.uiState) == f["ui_state"]
            && IdOf(f["source_node_id"]) == Some(c.src) && f["source_port_id"] == Text(c.srcPort)
            && IdOf(f["destination_node_id"]) == Some(c.dst) && f["destination_port_id"] == Text(c.dstPort)
  {
    IdRoundTrip(c.id);
    IdRoundTrip(c.src);
    IdRoundTrip(c.dst);
  }

  lemma NodeFields(n: NodeRecord)
    ensures NodeData(n).Object? && NodeData(n).fields.Keys == NODE_KEYS
    ensures var f := NodeData(n).fields;
            && IdOf(f["id"]) == Some(n.id) && f["type_id"] == Text(n.typeId)
            && f["implementation_version"] == Int(n.version) && f["collapsed"] == Truth(n.collapsed)
            && f["position"] == List([Number(n.position.0), Number(n.position.1)])
            && f["size"] == (if n.size.None? then Null else List([Number(n.size.value.0), Number(n.size.value.1)]))
            && f["user_label"] == (if n.caption.None? then Null else Text(n.caption.value))
            && f["parameters"] == MappingData(n.parameters) && f["ui_state"] == MappingData(n.uiState)
  {
    IdRoundTrip(n.id);
  }

  lemma GroupFields(g: GroupRecord)
    ensures GroupData(g).Object? && GroupData(g).fields.Keys == GROUP_KEYS
    ensures var f := GroupData(g).fields;
            && IdOf(f["id"]) == Some(g.id) && f["title"] == Text(g.title) && f["text"] == Text(g.text)
            && f["kind"] == (match g.kind case Frame => Text("GROUP") case Comment => Text("COMMENT"))
            && f["position"] == List([Number(g.position.0), Number(g.position.1)])
            && f["size"] == List([Number(g.size.0), Number(g.size.1)]) && f["color"] == Text(g.color)
  {
    IdRoundTrip(g.id);
  }

  function NodesData(nodes: seq<NodeRecord>): seq<Json> {
    if nodes == [] then [] else [NodeData(nodes[0])] + NodesData(nodes[1..])
  }

  function LinksData(links: seq<LinkRecord>): seq<Json> {
    if links == [] then [] else [LinkData(links[0])] + LinksData(links[1..])
  }

  function GroupsData(groups: seq<GroupRecord>): seq<Json> {
    if groups == [] then [] else [GroupData(groups[0])] + GroupsData(groups[1..])
  }

  function NodeKey(n: NodeRecord): Id { n.id }
  function LinkKey(c: LinkRecord): Id { c.id }
  function GroupKey(g: GroupRecord): Id { g.id }

  /** The data of the records as they stand. */
  function OrderedData(d: Document): Fields {
    map["schema_version" := Int(CURRENT), "application_version" := Text(APPLICATION_VERSION),
        "document_id" := IdText(d.id),
        "nodes" := List(NodesData(d.nodes)), "connections" := List(LinksData(d.links)),
          "groups" := List(GroupsData(d.groups)),
        "document_settings" := MappingData(d.settings), "ui_state" := Object(map[])]
  }

  /** `graph_to_data`. */
  function ToData(d: Document): Fields {
    OrderedData(d.(nodes := SortedBy(d.nodes, NodeKey), links := SortedBy(d.links, LinkKey),
                   groups := SortedBy(d.groups, GroupKey)))
  }

  /* ---- reading ---- */

  /** `_implementation_version` of a saved node. */
  function NodeVersion(f: Fields): Option<nat> {
    match Get(f, "implementation_version")
    case Int(v) => if v >= 0 then Some(v) else None
    case _ => None
  }

  /** `migrate_node_data`: each step raises the version by one and keeps id and type. */
  function NodeMigrated(d: Definition, f: Fields, version: nat): Option<Fields>
    decreases d.version - version
  {
    if version >= d.version then Some(f)
    else if version !in d.migrations then None
    else
      var next := d.migrations[version](f);
      if next.None? || NodeVersion(next.value) != Some(version + 1)
         || Get(next.value, "id") != Get(f, "id") || Get(next.value, "type_id") != Get(f, "type_id") then None
      else NodeMigrated(d, next.value, version + 1)
  }

  /** Saved nodes one version apart: the definition migrates each to the next, which has the next version, the same id
      and the same type. */
  ghost predicate IsMigration(d: Definition, steps: seq<Fields>, version: nat) {
    steps != [] && forall i {:trigger IsNodeStep(d, steps, version, i)} ::
                     0 <= i < |steps| - 1 ==> IsNodeStep(d, steps, version, i)
  }

  ghost predicate IsNodeStep(d: Definition, steps: seq<Fields>, version: nat, i: nat)
    requires i + 1 < |steps|
  {
    && version + i in d.migrations && d.migrations[version + i](steps[i]) == Some(steps[i + 1])
    && NodeVersion(steps[i + 1]) == Some(version + i + 1)
    && Get(steps[i + 1], "id") == Get(steps[i], "id") && Get(steps[i + 1], "type_id") == Get(steps[i], "type_id")
  }

  /** An older node is read by migrating it version by version, and only so. */
  lemma {:induction false} OldNodeIsMigrated(d: Definition, version: nat, steps: seq<Fields>)
    requires IsMigration(d, steps, version) && version + |steps| - 1 == d.version
    ensures NodeMigrated(d, steps[0], version) == Some(steps[|steps| - 1])
    decreases |steps|
  {
    if |steps| == 1 {
    } else {
      var rest, next := steps[1..], version + 1;
      assert IsNodeStep(d, steps, version, 0);
      forall i: nat | i + 1 < |rest| ensures IsNodeStep(d, rest, next, i) {
        assert IsNodeStep(d, steps, version, i + 1);
      }
      OldNodeIsMigrated(d, next, rest);
    }
  }

  lemma {:induction false} MigratedNodeIsOld(d: Definition, f: Fields, version: nat) returns (steps: seq<Fields>)
    requires version <= d.version && NodeMigrated(d, f, version).Some?
    ensures IsMigration(d, steps, version) && version + |steps| - 1 == d.version
    ensures steps[0] == f && NodeMigrated(d, f, version) == Some(steps[|steps| - 1])
    decreases d.version - version
  {
    if version == d.version {
      steps := [f];
    } else {
      var next := d.migrations[version](f).value;
      var rest := MigratedNodeIsOld(d, next, version + 1);
      steps := [f] + rest;
      forall i | 0 <= i < |steps| - 1 ensures IsNodeStep(d, steps, version, i) {
        assert i > 0 ==> IsNodeStep(d, rest, version + 1, i - 1);
      }
    }
  }

  function NodeOf(defs: Definitions, j: Json): Option<NodeRecord> {
    if !j.Object? || !Get(j.fields, "type_id").Text? || Get(j.fields, "type_id").text !in defs
      || NodeVersion(j.fields).None? then None
    else
      var typeId := Get(j.fields, "type_id").text;
      var migrated := NodeMigrated(defs[typeId], j.fields, NodeVersion(j.fields).value);
      if migrated.None? then None else CurrentNodeOf(typeId, defs[typeId].version, migrated.value)
  }

  function CurrentNodeOf(typeId: string, current: nat, f: Fields): Option<NodeRecord> {
    if f.Keys != NODE_KEYS || current < 1 || f["implementation_version"] != Int(current) then None
    else
      var id, position, size, caption :=
        IdOf(f["id"]), PointOf(f["position"]), SizeOf(f["size"]), LabelOf(f["user_label"]);
      var parameters, uiState := MappingOf(f["parameters"]), MappingOf(f["ui_state"]);
      if id.None? || position.None? || size.None? || caption.None? || parameters.None? || uiState.None?
        || !f["collapsed"].Truth? then None
      else Some(NodeRecord(id.value, typeId, current, parameters.value, position.value, size.value, caption.value,
                           f["collapsed"].truth, uiState.value))
  }

  function LinkOf(j: Json): Option<LinkRecord> {
    if !j.Object? || j.fields.Keys != LINK_KEYS then None
    else
      var f := j.fields;
      var id, src, dst, uiState :=
        IdOf(f["id"]), IdOf(f["source_node_id"]), IdOf(f["destination_node_id"]), MappingOf(f["ui_state"]);
      if id.None? || src.None? || dst.None? || uiState.None? || !f["source_port_id"].Text?
        || !f["destination_port_id"].Text? then None
      else Some(LinkRecord(id.value, src.value, f["source_port_id"].text, dst.value, f["destination_port_id"].text,
                           uiState.value))
  }

  function GroupOf(j: Json): Option<GroupRecord> {
    if !j.Object? || j.fields.Keys != GROUP_KEYS then None
    else
      var f := j.fields;
      var id, kind, position, size := IdOf(f["id"]), KindOf(f["kind"]), PointOf(f["position"]), PointOf(f["size"]);
      if id.None? || kind.None? || position.None? || size.None? || !f["title"].Text? || !f["text"].Text?
        || !f["color"].Text? then None
      else
        var g := GroupRecord(id.value, kind.value, f["title"].text, f["text"].text, position.value, size.value,
                             f["color"].text);
        if GroupOk(g) then Some(g) else None
  }

  function NodesOf(defs: Definitions, items: seq<Json>): Option<seq<NodeRecord>> {
    if items == [] then Some([]) else
      var rest := NodesOf(defs, items[1..]);
      if NodeOf(defs, items[0]).Some? && rest.Some? then Some([NodeOf(defs, items[0]).value] + rest.value) else None
  }

  function LinksOf(items: seq<Json>): Option<seq<LinkRecord>> {
    if items == [] then Some([]) else
      var rest := LinksOf(items[1..]);
      if LinkOf(items[0]).Some? && rest.Some? then Some([LinkOf(items[0]).value] + rest.value) else None
  }

  function GroupsOf(items: seq<Json>): Option<seq<GroupRecord>> {
    if items == [] then Some([]) else
      var rest := GroupsOf(items[1..]);
      if GroupOf(items[0]).Some? && rest.Some? then Some([GroupOf(items[0]).value] + rest.value) else None
  }

  predicate AtMost(f: Fields, key: string, limit: nat) { ItemsOf(f, key).Some? ==> |ItemsOf(f, key).value| <= limit }

  predicate WithinLimits(f: Fields) {
    AtMost(f, "nodes", 10_000) && AtMost(f, "connections", 50_000) && AtMost(f, "groups", 5_000)
  }

  predicate Unique<T>(items: seq<T>, key: T -> Id) {
    forall i, j :: 0 <= i < j < |items| ==> key(items[i]) != key(items[j])
  }

  predicate NoDangling(nodes: seq<NodeRecord>, links: seq<LinkRecord>) {
    forall c :: c in links ==> HasNode(nodes, c.src) && HasNode(nodes, c.dst)
  }

  predicate HasNode(nodes: seq<NodeRecord>, id: Id) { exists n :: n in nodes && n.id == id }

  /** `graph_from_data`. */
  function FromData(defs: Definitions, data: Fields): Option<Document> {
    if !WithinLimits(data) || Migrated(data).None? then None
    else
      var f := Migrated(data).value;
      if !WithinLimits(f) || f.Keys != DOCUMENT_KEYS then None else DocumentOf(defs, f)
  }

  function DocumentOf(defs: Definitions, f: Fields): Option<Document>
    requires f.Keys == DOCUMENT_KEYS
  {
    var id, settings := IdOf(f["document_id"]), MappingOf(f["document_settings"]);
    if !f["application_version"].Text? || id.None? || settings.None? || f["ui_state"] != Object(map[])
       || !f["groups"].List? || !f["nodes"].List? || !f["connections"].List? then None
    else
      var groups, nodes, links := GroupsOf(f["groups"].items), NodesOf(defs, f["nodes"].items),
        LinksOf(f["connections"].items);
      if groups.None? || nodes.None? || links.None?
         || !Unique(groups.value, GroupKey) || !Unique(nodes.value, NodeKey) || !Unique(links.value, LinkKey)
         || !NoDangling(nodes.value, links.value) then None
      else Some(Document(id.value, 0, SortedBy(nodes.value, NodeKey), SortedBy(links.value, LinkKey), settings.value,
                         SortedBy(groups.value, GroupKey)))
  }

  /* ---- sorting by id ---- */

  function ById<T>(key: T -> Id): (T, T) -> bool { (a, b) => key(a) <= key(b) }

  function SortedBy<T>(s: seq<T>, key: T -> Id): seq<T> { Sort(s, ById(key)) }

  ghost predicate InOrder<T>(s: seq<T>, key: T -> Id) { Sorted(s, ById(key)) }

  lemma SortedElements<T(!new)>(s: seq<T>, key: T -> Id)
    ensures |SortedBy(s, key)| == |s| && multiset(SortedBy(s, key)) == multiset(s) && InOrder(SortedBy(s, key), key)
    ensures forall x :: x in SortedBy(s, key) <==> x in s
  {
    SortIsSorted(s, ById(key));
    SortElements(s, ById(key));
  }

  /** Sorting keeps ids unique or not. */
  lemma SortedUnique<T(!new)>(s: seq<T>, key: T -> Id)
    ensures Unique(SortedBy(s, key), key) <==> Unique(s, key)
  {
    SortedElements(s, key);
    UniqueIffMultiplicities(s, key);
    UniqueIffMultiplicities(SortedBy(s, key), key);
  }

  /** Ids are unique iff no element occurs twice and no two elements share an id. */
  lemma UniqueIffMultiplicities<T>(s: seq<T>, key: T -> Id)
    ensures Unique(s, key) <==>
              && (forall x :: x in multiset(s) ==> multiset(s)[x] == 1)
              && forall x, y :: x in multiset(s) && y in multiset(s) && key(x) == key(y) ==> x == y
  {
    if Unique(s, key) {
      forall x | x in multiset(s) ensures multiset(s)[x] == 1 {
        var i :| 0 <= i < |s| && s[i] == x;
        OnlyAt(s, key, i);
      }
    } else {
      var i, j :| 0 <= i < j < |s| && key(s[i]) == key(s[j]);
      assert s[i] in multiset(s) && s[j] in multiset(s);
      if s[i] == s[j] {
        TwiceAt(s, i, j);
      }
    }
  }

  lemma OnlyAt<T>(s: seq<T>, key: T -> Id, i: nat)
    requires Unique(s, key) && i < |s|
    ensures multiset(s)[s[i]] == 1
  {
    assert s == s[..i] + [s[i]] + s[i + 1..];
    assert s[i] !in s[..i] && s[i] !in s[i + 1..];
    assert s[i] !in multiset(s[..i]) && s[i] !in multiset(s[i + 1..]);
  }

  lemma TwiceAt<T>(s: seq<T>, i: nat, j: nat)
    requires i < j < |s| && s[i] == s[j]
    ensures multiset(s)[s[i]] >= 2
  {
    assert s == s[..i] + [s[i]] + s[i + 1..j] + [s[j]] + s[j + 1..];
  }

  /* ---- round trip ---- */

  /** What the record classes enforce, for nodes at the current version of a known type. */
  predicate NodeOk(defs: Definitions, n: NodeRecord) {
    n.typeId in defs && n.version == defs[n.typeId].version && n.version >= 1 && MappingOk(n.parameters)
      && MappingOk(n.uiState)
  }

  predicate LinkOk(c: LinkRecord) { MappingOk(c.uiState) }

  predicate GroupOk(g: GroupRecord) { g.size.0 > 0.0 && g.size.1 > 0.0 && IsColor(g.color) }

  lemma FieldsRoundTrip(n: NodeRecord)
    ensures PointOf(PointData(n.position)) == Some(n.position)
    ensures SizeOf(SizeData(n.size)) == Some(n.size) && LabelOf(LabelData(n.caption)) == Some(n.caption)
  {
  }

  lemma NodeFieldsRoundTrip(n: NodeRecord, f: Fields)
    requires n.version >= 1 && MappingOk(n.parameters) && MappingOk(n.uiState) && NodeData(n) == Object(f)
    ensures f.Keys == NODE_KEYS && CurrentNodeOf(n.typeId, n.version, f) == Some(n)
  {
    IdRoundTrip(n.id);
    FieldsRoundTrip(n);
    MappingRoundTrip(n.parameters);
    MappingRoundTrip(n.uiState);
    assert f.Keys == NODE_KEYS;
    assert f["parameters"] == MappingData(n.parameters) && f["ui_state"] == MappingData(n.uiState);
    assert f["id"] == IdText(n.id) && f["position"] == PointData(n.position) && f["size"] == SizeData(n.size);
    assert f["user_label"] == LabelData(n.caption) && f["collapsed"] == Truth(n.collapsed);
  }

  lemma NodeRoundTrip(defs: Definitions, n: NodeRecord)
    requires NodeOk(defs, n)
    ensures NodeOf(defs, NodeData(n)) == Some(n)
  {
    var f := NodeData(n).fields;
    NodeFieldsRoundTrip(n, f);
    assert Get(f, "type_id") == Text(n.typeId) && NodeVersion(f) == Some(n.version);
    assert NodeMigrated(defs[n.typeId], f, n.version) == Some(f);
  }

  lemma LinkRoundTrip(c: LinkRecord)
    requires LinkOk(c)
    ensures LinkOf(LinkData(c)) == Some(c)
  {
    IdRoundTrip(c.id);
    IdRoundTrip(c.src);
    IdRoundTrip(c.dst);
    MappingRoundTrip(c.uiState);
    assert LinkData(c).fields.Keys == LINK_KEYS;
  }

  lemma GroupRoundTrip(g: GroupRecord)
    requires GroupOk(g)
    ensures GroupOf(GroupData(g)) == Some(g)
  {
    IdRoundTrip(g.id);
    assert GroupData(g).fields.Keys == GROUP_KEYS;
  }

  lemma {:induction false} NodesRoundTrip(defs: Definitions, nodes: seq<NodeRecord>)
    requires forall n :: n in nodes ==> NodeOk(defs, n)
    ensures NodesOf(defs, NodesData(nodes)) == Some(nodes) && |NodesData(nodes)| == |nodes|
  {
    if nodes == [] {
    } else {
      NodeRoundTrip(defs, nodes[0]);
      NodesRoundTrip(defs, nodes[1..]);
      assert NodesData(nodes)[1..] == NodesData(nodes[1..]);
      assert [nodes[0]] + nodes[1..] == nodes;
    }
  }

  lemma {:induction false} LinksRoundTrip(links: seq<LinkRecord>)
    requires forall c :: c in links ==> LinkOk(c)
    ensures LinksOf(LinksData(links)) == Some(links) && |LinksData(links)| == |links|
  {
    if links == [] {
    } else {
      LinkRoundTrip(links[0]);
      LinksRoundTrip(links[1..]);
      assert LinksData(links)[1..] == LinksData(links[1..]);
      assert [links[0]] + links[1..] == links;
    }
  }

  lemma {:induction false} GroupsRoundTrip(groups: seq<GroupRecord>)
    requires forall g :: g in groups ==> GroupOk(g)
    ensures GroupsOf(GroupsData(groups)) == Some(groups) && |GroupsData(groups)| == |groups|
  {
    if groups == [] {
    } else {
      GroupRoundTrip(groups[0]);
      GroupsRoundTrip(groups[1..]);
      assert GroupsData(groups)[1..] == GroupsData(groups[1..]);
      assert [groups[0]] + groups[1..] == groups;
    }
  }

  predicate RecordsOk(defs: Definitions, d: Document) {
    && (forall n :: n in d.nodes ==> NodeOk(defs, n)) && (forall c :: c in d.links ==> LinkOk(c))
    && (forall g :: g in d.groups ==> GroupOk(g)) && MappingOk(d.settings)
  }

  /** Unique ids, no dangling connection, and within the limits. */
  predicate Storable(d: Document) {
    && Unique(d.nodes, NodeKey) && Unique(d.links, LinkKey) && Unique(d.groups, GroupKey)
       && NoDangling(d.nodes, d.links)
    && |d.nodes| <= 10_000 && |d.links| <= 50_000 && |d.groups| <= 5_000
  }

  function InIdOrder(d: Document): Document {
    d.(revision := 0, nodes := SortedBy(d.nodes, NodeKey), links := SortedBy(d.links, LinkKey),
       groups := SortedBy(d.groups, GroupKey))
  }

  /** Sorting affects neither what is stored nor whether it can be. */
  lemma SortingKeepsStorable(d: Document)
    ensures Storable(InIdOrder(d)) <==> Storable(d)
    ensures InIdOrder(InIdOrder(d)) == InIdOrder(d)
  {
    var nodes, links, groups := SortedBy(d.nodes, NodeKey), SortedBy(d.links, LinkKey), SortedBy(d.groups, GroupKey);
    SortedElements(d.nodes, NodeKey);
    SortedElements(d.links, LinkKey);
    SortedElements(d.groups, GroupKey);
    SortedUnique(d.nodes, NodeKey);
    SortedUnique(d.links, LinkKey);
    SortedUnique(d.groups, GroupKey);
    SortedStays(nodes, ById(NodeKey));
    SortedStays(links, ById(LinkKey));
    SortedStays(groups, ById(GroupKey));
    SortingKeepsEnds(d.nodes, d.links, nodes, links);
  }

  lemma SortingKeepsEnds(nodes: seq<NodeRecord>, links: seq<LinkRecord>, sortedNodes: seq<NodeRecord>,
                         sortedLinks: seq<LinkRecord>)
    requires (forall n :: n in nodes <==> n in sortedNodes) && (forall c :: c in links <==> c in sortedLinks)
    ensures NoDangling(nodes, links) <==> NoDangling(sortedNodes, sortedLinks)
  {
    assert forall id :: HasNode(nodes, id) <==> HasNode(sortedNodes, id);
  }

  /** The fields are those of the document. */
  ghost predicate Holds(f: Fields, d: Document) {
    && f.Keys == DOCUMENT_KEYS && Version(f) == Some(CURRENT) && f["ui_state"] == Object(map[])
    && f["application_version"].Text? && f["document_id"] == IdText(d.id)
       && f["document_settings"] == MappingData(d.settings)
    && f["nodes"] == List(NodesData(d.nodes)) && f["connections"] == List(LinksData(d.links))
       && f["groups"] == List(GroupsData(d.groups))
  }

  lemma OrderedDataFields(d: Document)
    ensures Holds(OrderedData(d), d)
  {
  }

  lemma HeldDocument(defs: Definitions, f: Fields, d: Document)
    requires RecordsOk(defs, d) && Holds(f, d)
    ensures DocumentOf(defs, f) ==
              if Unique(d.nodes, NodeKey) && Unique(d.links, LinkKey) && Unique(d.groups, GroupKey)
                && NoDangling(d.nodes, d.links)
              then Some(InIdOrder(d)) else None
  {
    NodesRoundTrip(defs, d.nodes);
    LinksRoundTrip(d.links);
    GroupsRoundTrip(d.groups);
    MappingRoundTrip(d.settings);
    IdRoundTrip(d.id);
  }

  lemma HeldLimits(defs: Definitions, f: Fields, d: Document)
    requires RecordsOk(defs, d) && Holds(f, d)
    ensures WithinLimits(f) <==> |d.nodes| <= 10_000 && |d.links| <= 50_000 && |d.groups| <= 5_000
  {
    NodesRoundTrip(defs, d.nodes);
    LinksRoundTrip(d.links);
    GroupsRoundTrip(d.groups);
  }

  lemma OrderedRoundTrip(defs: Definitions, d: Document)
    requires RecordsOk(defs, d)
    ensures FromData(defs, OrderedData(d)) == if Storable(d) then Some(InIdOrder(d)) else None
  {
    var f := OrderedData(d);
    OrderedDataFields(d);
    CurrentIsStable(f);
    HeldDocument(defs, f, d);
    HeldLimits(defs, f, d);
  }

  /** Reading written data gives the document back, sorted by id and with revision 0, exactly if the
      document is storable; otherwise reading fails. */
  lemma RoundTrip(defs: Definitions, d: Document)
    requires RecordsOk(defs, d)
    ensures FromData(defs, ToData(d)) == if Storable(d) then Some(InIdOrder(d)) else None
  {
    SortedElements(d.nodes, NodeKey);
    SortedElements(d.links, LinkKey);
    SortedElements(d.groups, GroupKey);
    SortingKeepsStorable(d);
    OrderedRoundTrip(defs, InIdOrder(d));
  }

  /* ---- reading first ---- */

  lemma ReadNodeIsOk(defs: Definitions, j: Json)
    ensures NodeOf(defs, j).Some? ==> NodeOk(defs, NodeOf(defs, j).value)
  {
    if NodeOf(defs, j).Some? {
      var typeId := Get(j.fields, "type_id").text;
      var f := NodeMigrated(defs[typeId], j.fields, NodeVersion(j.fields).value).value;
      DecodedMappingIsOk(f["parameters"]);
      DecodedMappingIsOk(f["ui_state"]);
    }
  }

  lemma ReadLinkIsOk(j: Json)
    ensures LinkOf(j).Some? ==> LinkOk(LinkOf(j).value)
  {
    if LinkOf(j).Some? { DecodedMappingIsOk(j.fields["ui_state"]); }
  }

  lemma {:induction false} ReadNodesAreOk(defs: Definitions, items: seq<Json>)
    requires NodesOf(defs, items).Some?
    ensures var nodes := NodesOf(defs, items).value; |nodes| == |items| && forall n :: n in nodes ==> NodeOk(defs, n)
  {
    if items == [] {
    } else {
      ReadNodeIsOk(defs, items[0]);
      ReadNodesAreOk(defs, items[1..]);
    }
  }

  lemma {:induction false} ReadLinksAreOk(items: seq<Json>)
    requires LinksOf(items).Some?
    ensures var links := LinksOf(items).value; |links| == |items| && forall c :: c in links ==> LinkOk(c)
  {
    if items == [] {
    } else {
      ReadLinkIsOk(items[0]);
      ReadLinksAreOk(items[1..]);
    }
  }

  lemma {:induction false} ReadGroupsAreOk(items: seq<Json>)
    requires GroupsOf(items).Some?
    ensures var groups := GroupsOf(items).value; |groups| == |items| && forall g :: g in groups ==> GroupOk(g)
  {
    if items == [] {
    } else {
      ReadGroupsAreOk(items[1..]);
    }
  }

  /** The records before they are sorted. */
  lemma ReadDocument(defs: Definitions, f: Fields) returns (d: Document)
    requires f.Keys == DOCUMENT_KEYS && WithinLimits(f) && DocumentOf(defs, f).Some?
    ensures DocumentOf(defs, f) == Some(InIdOrder(d)) && RecordsOk(defs, d) && Storable(d)
  {
    var groups, nodes, links := f["groups"].items, f["nodes"].items, f["connections"].items;
    ReadGroupsAreOk(groups);
    ReadNodesAreOk(defs, nodes);
    ReadLinksAreOk(links);
    DecodedMappingIsOk(f["document_settings"]);
    d := Document(IdOf(f["document_id"]).value, 0, NodesOf(defs, nodes).value, LinksOf(links).value,
                  MappingOf(f["document_settings"]).value, GroupsOf(groups).value);
  }

  lemma SortingKeepsRecords(defs: Definitions, d: Document)
    requires RecordsOk(defs, d)
    ensures RecordsOk(defs, InIdOrder(d))
  {
    SortedElements(d.nodes, NodeKey);
    SortedElements(d.links, LinkKey);
    SortedElements(d.groups, GroupKey);
  }

  /** Whatever is read, of any version, is storable; writing it and reading that again gives it back. */
  lemma ReadRoundTrip(defs: Definitions, data: Fields)
    requires FromData(defs, data).Some?
    ensures var d := FromData(defs, data).value;
            && RecordsOk(defs, d) && Storable(d) && InIdOrder(d) == d
            && FromData(defs, ToData(d)) == Some(d)
  {
    var read := ReadDocument(defs, Migrated(data).value);
    SortingKeepsRecords(defs, read);
    SortingKeepsStorable(read);
    RoundTrip(defs, InIdOrder(read));
  }

  /** Older data within the limits is read as what it is migrated to; data that cannot be migrated is not read. */
  lemma OldDataIsMigrated(defs: Definitions, data: Fields)
    ensures Migrated(data).None? ==> FromData(defs, data).None?
    ensures Migrated(data).Some? && WithinLimits(data) ==> FromData(defs, data) == FromData(defs, Migrated(data).value)
  {
    if Migrated(data).Some? {
      FromEndsAtCurrent(Version(data).value, data);
      CurrentIsStable(Migrated(data).value);
    }
  }

  /** Nothing is read that lacks a field or has one more than it should, once migrated. */
  lemma ReadsExactKeys(defs: Definitions, data: Fields, j: Json)
    ensures FromData(defs, data).Some? ==> Migrated(data).Some? && Migrated(data).value.Keys == DOCUMENT_KEYS
    ensures LinkOf(j).Some? ==> j.Object? && j.fields.Keys == LINK_KEYS
    ensures GroupOf(j).Some? ==> j.Object? && j.fields.Keys == GROUP_KEYS
    ensures NodeOf(defs, j).Some? ==>
              && j.Object? && Get(j.fields, "type_id").Text? && Get(j.fields, "type_id").text in defs
              && NodeVersion(j.fields).Some?
              && var typeId := Get(j.fields, "type_id").text;
                 var migrated := NodeMigrated(defs[typeId], j.fields, NodeVersion(j.fields).value);
                 migrated.Some? && migrated.value.Keys == NODE_KEYS
  {
  }
}
