/** What the compiler reads from a node type: ports, type expressions, parameters (nodes/base.py). */
module NodeContracts {
  import opened Common
  import opened PortNames

  datatype PortType =
    | Image | Channel | Float | Int | Bool | Color | Matrix | MidiState | String
    | ScalarArray | ImageArray | ChannelArray

  /** A port's declared type: fixed, a node-local type variable `T`, or its array counterpart `T[]`. */
  datatype TypeExpr =
    | Concrete(portType: PortType)
    | Variable(name: Name, allowed: set<PortType>, default: Option<PortType>)
    | ArrayVariable(name: Name, allowed: set<PortType>)

  datatype Kind = Source | Stateless | Stateful | Sink | Visualizer
  datatype CachePolicy = Auto | Never | Static

  datatype Literal = Number(real) | Whole(int) | Flag(bool) | Text(string)
  type Values = map<Name, Literal>

  datatype PortSpec = PortSpec(id: Name, valueType: TypeExpr, required: bool)
  datatype Family = Family(prefix: Name, valueType: TypeExpr, minimum: nat)
  datatype ParameterSpec = ParameterSpec(id: Name, connectable: bool, socket: Option<PortType>)
  datatype Evaluation = Evaluation(values: Values, errors: seq<string>)

  /** One registered node type. Its callables are total functions of what the source passes them. */
  datatype Contract = Contract(
    version: nat,
    kind: Kind,
    cache: CachePolicy,
    inputs: seq<PortSpec>,
    variadic: Option<Family>,
    outputs: seq<PortSpec>,
    parameters: seq<ParameterSpec>,
    evaluate: Values -> Evaluation,
    typeResolver: Option<(Name, bool, Values) -> TypeExpr>,
    requiredResolver: Option<Values -> set<Name>>)

  /** Element types that have an array counterpart. */
  const ELEMENT_TYPES: set<PortType> := {Float, Int, Image, Channel}

  predicate ArrayVariableBounded(e: TypeExpr) {
    e.ArrayVariable? ==> e.allowed != {} && e.allowed <= ELEMENT_TYPES
  }

  function Ids(ports: seq<PortSpec>): set<Name> {
    set i | 0 <= i < |ports| :: ports[i].id
  }

  /** The parameters that are also input sockets. */
  function ParameterSockets(c: Contract): set<Name> {
    set i | 0 <= i < |c.parameters| && c.parameters[i].connectable :: c.parameters[i].id
  }

  predicate InFamily(c: Contract, p: Name) {
    c.variadic.Some? && MemberIndex(c.variadic.value.prefix, p).Some?
  }

  /** What construction of a contract enforces, plus the registry's rule on array variables. */
  ghost predicate WellFormed(c: Contract) {
    && (forall i, j :: 0 <= i < j < |c.inputs| ==> c.inputs[i].id != c.inputs[j].id)
    && (forall i, j :: 0 <= i < j < |c.outputs| ==> c.outputs[i].id != c.outputs[j].id)
    && (forall i, j :: 0 <= i < j < |c.parameters| ==> c.parameters[i].id != c.parameters[j].id)
    && (forall i :: 0 <= i < |c.parameters| ==>
          && c.parameters[i].id !in Ids(c.inputs)
          && !InFamily(c, c.parameters[i].id)
          && (c.parameters[i].connectable ==> c.parameters[i].socket.Some?))
    && (forall i :: 0 <= i < |c.inputs| ==> !InFamily(c, c.inputs[i].id) && ArrayVariableBounded(c.inputs[i].valueType))
    && (forall i :: 0 <= i < |c.outputs| ==> ArrayVariableBounded(c.outputs[i].valueType))
    && (c.variadic.Some? ==> c.variadic.value.minimum >= 1 && ArrayVariableBounded(c.variadic.value.valueType))
    && (c.typeResolver.Some? ==> forall p, out, v :: ArrayVariableBounded(c.typeResolver.value(p, out, v)))
  }

  /** `input(p) is not None`. */
  predicate HasInput(c: Contract, p: Name) { p in Ids(c.inputs) || InFamily(c, p) }

  predicate HasOutput(c: Contract, p: Name) { p in Ids(c.outputs) }

  /** A destination port accepted by connection validation. */
  predicate AcceptsConnection(c: Contract, p: Name) { HasInput(c, p) || p in ParameterSockets(c) }

  /** The least index from `i` on that is not taken. */
  function NextFree(taken: set<nat>, i: nat): (r: nat)
    ensures i <= r && r !in taken
    ensures forall j {:trigger j in taken} :: i <= j < r ==> j in taken
    decreases |taken|
  {
    if i !in taken then i else
      var rest := taken - {i};
      var r := NextFree(rest, i + 1);
      assert r !in taken by { assert r != i; }
      forall j | i <= j < r ensures j in taken { assert j == i || j in rest; }
      r
  }

  function FirstIndexes(n: nat): (r: set<nat>)
    ensures forall i: nat :: i in r <==> 1 <= i <= n
  {
    if n == 0 then {} else FirstIndexes(n - 1) + {n}
  }

  function MemberIndexes(f: Family, connected: set<Name>, withNext: bool): set<nat> {
    var used := set p | p in connected && MemberIndex(f.prefix, p).Some? :: MemberIndex(f.prefix, p).value;
    var indexes := FirstIndexes(f.minimum) + used;
    if withNext && indexes <= used then indexes + {NextFree(used, 1)} else indexes
  }

  /** `input_ports`: the fixed inputs, the family's minimum sockets, every connected member, and on
      request the next free one when all of these are taken. */
  function InputPorts(c: Contract, connected: set<Name>, withNext: bool): set<Name> {
    Ids(c.inputs) +
    if c.variadic.None? then {} else
      var f := c.variadic.value;
      set i | i in MemberIndexes(f, connected, withNext) && i > 0 :: MemberName(f.prefix, i)
  }

  /** Every connected input socket is among the node's effective input ports. */
  lemma ConnectedInputsAreListed(c: Contract, connected: set<Name>, withNext: bool, p: Name)
    requires p in connected && HasInput(c, p)
    ensures p in InputPorts(c, connected, withNext)
  {
    if p !in Ids(c.inputs) {
      var f := c.variadic.value;
      MemberOfIndex(f.prefix, p);
      assert MemberIndex(f.prefix, p).value in MemberIndexes(f, connected, withNext);
    }
  }

  /** Effective input ports are input ports, and asking for the next one only adds. */
  lemma ListedInputsExist(c: Contract, connected: set<Name>, withNext: bool, p: Name)
    requires p in InputPorts(c, connected, withNext)
    ensures HasInput(c, p)
    ensures p in InputPorts(c, connected, true)
  {
    if p !in Ids(c.inputs) {
      var f := c.variadic.value;
      var i :| i in MemberIndexes(f, connected, withNext) && i > 0 && p == MemberName(f.prefix, i);
      IndexOfMember(f.prefix, i);
      assert i in MemberIndexes(f, connected, true);
    }
  }

  /** The sockets of a family that are always there: the first ones, up to its minimum, and the connected ones. */
  predicate IsMember(f: Family, connected: set<Name>, i: nat) {
    1 <= i && (i <= f.minimum || MemberName(f.prefix, i) in connected)
  }

  /** The spare socket is at the first index that is not connected, and only there once the minimum is connected. */
  ghost predicate IsSpare(f: Family, connected: set<Name>, i: nat) {
    && f.minimum < i && MemberName(f.prefix, i) !in connected
    && forall j :: 1 <= j < i ==> MemberName(f.prefix, j) in connected
  }

  lemma EffectiveInputs(c: Contract, connected: set<Name>, withNext: bool, p: Name)
    ensures p in InputPorts(c, connected, withNext) <==>
            || p in Ids(c.inputs)
            || (c.variadic.Some? && exists i: nat ::
                  && i > 0 && p == MemberName(c.variadic.value.prefix, i)
                  && (IsMember(c.variadic.value, connected, i)
                      || (withNext && IsSpare(c.variadic.value, connected, i))))
  {
    if c.variadic.Some? {
      var f := c.variadic.value;
      forall i: nat | i > 0
        ensures i in MemberIndexes(f, connected, withNext) <==>
                IsMember(f, connected, i) || (withNext && IsSpare(f, connected, i))
      {
        EffectiveIndexes(f, connected, withNext, i);
      }
    }
  }

  lemma EffectiveIndexes(f: Family, connected: set<Name>, withNext: bool, i: nat)
    requires i > 0
    ensures i in MemberIndexes(f, connected, withNext) <==>
            IsMember(f, connected, i) || (withNext && IsSpare(f, connected, i))
  {
    var used := set p | p in connected && MemberIndex(f.prefix, p).Some? :: MemberIndex(f.prefix, p).value;
    forall j: nat | j > 0 ensures j in used <==> MemberName(f.prefix, j) in connected {
      IndexOfMember(f.prefix, j);
      if j in used {
        var p :| p in connected && MemberIndex(f.prefix, p) == Some(j);
        MemberOfIndex(f.prefix, p);
      }
    }
    var next := NextFree(used, 1);
    assert FirstIndexes(f.minimum) + used <= used <==> forall j :: 1 <= j <= f.minimum ==> j in used;
  }

  function Lookup(ports: seq<PortSpec>, p: Name): (spec: PortSpec)
    requires p in Ids(ports)
    ensures spec in ports && spec.id == p
  {
    if ports[0].id == p then ports[0] else
      assert p in Ids(ports[1..]) by {
        var i :| 0 <= i < |ports| && ports[i].id == p;
        assert ports[1..][i - 1].id == p;
      }
      Lookup(ports[1..], p)
  }

  /** `port_type` of a declared port. */
  function PortTypeOf(c: Contract, p: Name, isOutput: bool, values: Values): TypeExpr
    requires if isOutput then HasOutput(c, p) else HasInput(c, p)
  {
    if c.typeResolver.Some? then c.typeResolver.value(p, isOutput, values)
    else if isOutput then Lookup(c.outputs, p).valueType
    else if p in Ids(c.inputs) then Lookup(c.inputs, p).valueType
    else c.variadic.value.valueType
  }

  /** Without a resolver every port has the type it is declared with, and a member of a family that of the family. */
  lemma PortTypeIsDeclared(c: Contract, i: nat, values: Values)
    requires WellFormed(c) && c.typeResolver.None?
    ensures i < |c.inputs| ==> PortTypeOf(c, c.inputs[i].id, false, values) == c.inputs[i].valueType
    ensures i < |c.outputs| ==> PortTypeOf(c, c.outputs[i].id, true, values) == c.outputs[i].valueType
    ensures forall p :: InFamily(c, p) ==> PortTypeOf(c, p, false, values) == c.variadic.value.valueType
  {
    if i < |c.inputs| { LookupFinds(c.inputs, i); }
    if i < |c.outputs| { LookupFinds(c.outputs, i); }
    forall p | InFamily(c, p) ensures p !in Ids(c.inputs) { }
  }

  lemma PortTypeIsResolved(c: Contract, p: Name, isOutput: bool, values: Values)
    requires c.typeResolver.Some? && if isOutput then HasOutput(c, p) else HasInput(c, p)
    ensures PortTypeOf(c, p, isOutput, values) == c.typeResolver.value(p, isOutput, values)
  {
  }

  lemma LookupFinds(ports: seq<PortSpec>, i: nat)
    requires i < |ports| && forall j, k :: 0 <= j < k < |ports| ==> ports[j].id != ports[k].id
    ensures Lookup(ports, ports[i].id) == ports[i]
  {
    var found := Lookup(ports, ports[i].id);
    var j :| 0 <= j < |ports| && ports[j] == found;
  }

  function SocketTypeOf(c: Contract, p: Name): PortType
    requires p in ParameterSockets(c) && WellFormed(c)
  {
    var i :| 0 <= i < |c.parameters| && c.parameters[i].connectable && c.parameters[i].id == p;
    c.parameters[i].socket.value
  }

  lemma SocketTypeIsDeclared(c: Contract, i: nat)
    requires WellFormed(c) && i < |c.parameters| && c.parameters[i].connectable
    ensures c.parameters[i].id in ParameterSockets(c)
    ensures Some(SocketTypeOf(c, c.parameters[i].id)) == c.parameters[i].socket
  {
  }

  /** `required_inputs`; the family's bare prefix stands for its minimum count. */
  function RequiredInputs(c: Contract, values: Values): set<Name> {
    (if c.requiredResolver.Some? then c.requiredResolver.value(values)
     else set i | 0 <= i < |c.inputs| && c.inputs[i].required :: c.inputs[i].id)
    + if c.variadic.Some? then {c.variadic.value.prefix} else {}
  }

  /* ---- type compatibility (graph/compiler.py) ---- */

  predicate TypesCompatible(source: PortType, destination: PortType) {
    || source == destination
    || (source == Int && destination == Float)
    || (destination == ScalarArray && source in {Float, Int})
    || (destination == ImageArray && source == Image)
    || (destination == ChannelArray && source == Channel)
  }

  function ArrayOf(t: PortType): PortType
    requires t in ELEMENT_TYPES
  {
    if t in {Float, Int} then ScalarArray else if t == Image then ImageArray else ChannelArray
  }

  /** The element type a concrete port contributes to the variable on the other end. */
  function BaseType(t: PortType, e: TypeExpr): PortType {
    if !e.ArrayVariable? then t
    else match t
      case ScalarArray => Float
      case ImageArray => Image
      case ChannelArray => Channel
      case _ => t
  }
}
