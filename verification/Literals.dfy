/** JSON values and the literal codec (literals.py). */
module Literals {
  import opened Common

  /** JSON as the codec sees it; floats are reals, or not finite. */
  datatype Json =
    | Null
    | Truth(truth: bool)
    | Int(whole: int)
    | Number(number: real)
    | NotFinite
    | Text(text: string)
    | List(items: seq<Json>)
    | Object(fields: map<string, Json>)

  datatype Literal =
    | Nothing
    | Flag(flag: bool)
    | Whole(value: int)
    | Real(amount: real)
    | Words(words: string)
    | Color(r: real, g: real, b: real, a: real)
    | Matrix(rows: seq<seq<real>>)

  predicate Unit(x: real) { 0.0 <= x <= 1.0 }

  /** What the literal classes enforce: normalized colours, and rectangular matrices with an entry. */
  predicate LiteralOk(l: Literal) {
    match l
    case Color(r, g, b, a) => Unit(r) && Unit(g) && Unit(b) && Unit(a)
    case Matrix(rows) => Rectangular(rows)
    case _ => true
  }

  predicate Rectangular(rows: seq<seq<real>>) {
    rows != [] && rows[0] != [] && forall i :: 0 <= i < |rows| ==> |rows[i]| == |rows[0]|
  }

  /* ---- decoding ---- */

  const TWO_TO_256: int := 0x1_0000000000000000_0000000000000000_0000000000000000_0000000000000000

  /** The integers from here on are too large for a float: 2^1024 less half a unit in the last place. */
  const FLOAT_LIMIT: int :=
    TWO_TO_256 * TWO_TO_256 * TWO_TO_256 * (TWO_TO_256 - 0x4_0000000000000000_0000000000000000_0000000000000000_00)

  function NumberOf(j: Json): Option<real> {
    match j
    case Int(i) => if -FLOAT_LIMIT < i < FLOAT_LIMIT then Some(i as real) else None
    case Number(x) => Some(x)
    case _ => None
  }

  function RowOf(items: seq<Json>): Option<seq<real>> {
    if items == [] then Some([]) else
      var rest := RowOf(items[1..]);
      if NumberOf(items[0]).Some? && rest.Some? then Some([NumberOf(items[0]).value] + rest.value) else None
  }

  function RowsOf(items: seq<Json>): Option<seq<seq<real>>> {
    if items == [] then Some([]) else
      var row := if items[0].List? then RowOf(items[0].items) else None;
      var rest := RowsOf(items[1..]);
      if row.Some? && rest.Some? then Some([row.value] + rest.value) else None
  }

  const COLOR_KEYS := {"$type", "r", "g", "b", "a"}

  function ColorOf(f: map<string, Json>): Option<Literal> {
    if f.Keys != COLOR_KEYS || f["$type"] != Text("COLOR") then None
    else
      var r, g, b, a := NumberOf(f["r"]), NumberOf(f["g"]), NumberOf(f["b"]), NumberOf(f["a"]);
      if r.Some? && g.Some? && b.Some? && a.Some? && LiteralOk(Color(r.value, g.value, b.value, a.value))
      then Some(Color(r.value, g.value, b.value, a.value)) else None
  }

  /** `literal_value`; None stands for the decode error. */
  function LiteralOf(j: Json): Option<Literal> {
    match j
    case Null => Some(Nothing)
    case Truth(t) => Some(Flag(t))
    case Int(i) => Some(Whole(i))
    case Number(x) => Some(Real(x))
    case NotFinite => None
    case Text(s) => Some(Words(s))
    case List(items) =>
      var rows := RowsOf(items);
      if rows.Some? && Rectangular(rows.value) then Some(Matrix(rows.value)) else None
    case Object(fields) => ColorOf(fields)
  }

  /* ---- encoding ---- */

  function RowData(row: seq<real>): seq<Json> { if row == [] then [] else [Number(row[0])] + RowData(row[1..]) }

  function RowsData(rows: seq<seq<real>>): seq<Json> {
    if rows == [] then [] else [List(RowData(rows[0]))] + RowsData(rows[1..])
  }

  /** `literal_to_data`. */
  function LiteralData(l: Literal): Json {
    match l
    case Nothing => Null
    case Flag(t) => Truth(t)
    case Whole(i) => Int(i)
    case Real(x) => Number(x)
    case Words(s) => Text(s)
    case Color(r, g, b, a) => Object(map["$type" := Text("COLOR"), "r" := Number(r), "g" := Number(g), "b" := Number(b),
                                         "a" := Number(a)])
    case Matrix(rows) => List(RowsData(rows))
  }

  lemma {:induction false} RowRoundTrip(row: seq<real>)
    ensures RowOf(RowData(row)) == Some(row)
  {
    if row == [] {
    } else {
      RowRoundTrip(row[1..]);
      assert RowData(row)[1..] == RowData(row[1..]);
      assert [row[0]] + row[1..] == row;
    }
  }

  lemma {:induction false} RowsRoundTrip(rows: seq<seq<real>>)
    ensures RowsOf(RowsData(rows)) == Some(rows)
  {
    if rows == [] {
    } else {
      RowRoundTrip(rows[0]);
      RowsRoundTrip(rows[1..]);
      assert RowsData(rows)[1..] == RowsData(rows[1..]);
      assert [rows[0]] + rows[1..] == rows;
    }
  }

  /** Decoding an encoded literal gives it back. */
  lemma LiteralRoundTrip(l: Literal)
    requires LiteralOk(l)
    ensures LiteralOf(LiteralData(l)) == Some(l)
  {
    match l
    case Color(r, g, b, a) => assert LiteralData(l).fields.Keys == COLOR_KEYS;
    case Matrix(rows) => RowsRoundTrip(rows);
    case _ =>
  }

  /** Whatever decodes is a literal its class accepts. */
  lemma DecodedLiteralIsOk(j: Json)
    requires LiteralOf(j).Some?
    ensures LiteralOk(LiteralOf(j).value)
  {
  }

  /* ---- mappings ---- */

  predicate MappingOk(m: map<string, Literal>) { forall k :: k in m ==> LiteralOk(m[k]) }

  function MappingData(m: map<string, Literal>): Json { Object(map k | k in m :: LiteralData(m[k])) }

  function MappingOf(j: Json): Option<map<string, Literal>> {
    if j.Object? && forall k :: k in j.fields ==> LiteralOf(j.fields[k]).Some?
    then Some(map k | k in j.fields :: LiteralOf(j.fields[k]).value) else None
  }

  lemma DecodedMappingIsOk(j: Json)
    ensures MappingOf(j).Some? ==> MappingOk(MappingOf(j).value)
  {
    if MappingOf(j).Some? {
      forall k | k in j.fields ensures LiteralOk(LiteralOf(j.fields[k]).value) { DecodedLiteralIsOk(j.fields[k]); }
    }
  }

  lemma MappingRoundTrip(m: map<string, Literal>)
    requires MappingOk(m)
    ensures MappingOf(MappingData(m)) == Some(m)
  {
    forall k | k in m ensures LiteralOf(MappingData(m).fields[k]) == Some(m[k]) {
      LiteralRoundTrip(m[k]);
    }
    assert MappingOf(MappingData(m)).value == m;
  }

  /* ---- what a literal is read from ---- */

  /** A colour has exactly its type and its four numbers, each under its own name. */
  lemma ColorRead(f: map<string, Json>, r: real, g: real, b: real, a: real)
    requires LiteralOf(Object(f)) == Some(Color(r, g, b, a))
    ensures f.Keys == {"$type", "r", "g", "b", "a"} && f["$type"] == Text("COLOR")
    ensures NumberOf(f["r"]) == Some(r) && NumberOf(f["g"]) == Some(g) && NumberOf(f["b"]) == Some(b)
    ensures NumberOf(f["a"]) == Some(a)
  {
  }

  lemma {:induction false} RowRead(items: seq<Json>)
    requires RowOf(items).Some?
    ensures |RowOf(items).value| == |items|
    ensures forall j :: 0 <= j < |items| ==> NumberOf(items[j]) == Some(RowOf(items).value[j])
  {
    if items == [] {
    } else {
      RowRead(items[1..]);
    }
  }

  /** A matrix is a list of its rows, each a list of its numbers. */
  lemma {:induction false} MatrixRead(items: seq<Json>)
    requires RowsOf(items).Some?
    ensures |RowsOf(items).value| == |items|
    ensures forall i :: 0 <= i < |items| ==> IsRow(items[i], RowsOf(items).value[i])
  {
    if items == [] {
    } else {
      RowRead(items[0].items);
      MatrixRead(items[1..]);
    }
  }

  predicate IsRow(j: Json, row: seq<real>) {
    j.List? && |j.items| == |row| && forall k :: 0 <= k < |row| ==> NumberOf(j.items[k]) == Some(row[k])
  }
}
