/** Conversions between XML-RPC parameter values and SDK parameter values. */
module ParameterConversion {
  import opened Wrappers

  const MAX_PARAM_DEPTH := 128

  type Int32 = x: int | -0x8000_0000 <= x < 0x8000_0000
  type Int64 = x: int | -0x8000_0000_0000_0000 <= x < 0x8000_0000_0000_0000

  /** XmlRpc::XmlRpcValue; `Invalid` is the default-constructed value. */
  datatype RosValue =
    | Invalid
    | RosBool(b: bool)
    | RosInt(i: Int32)
    | RosDouble(d: real)
    | RosString(s: string)
    | RosDateTime
    | RosBase64
    | RosArray(elements: seq<RosValue>)
    | RosStruct(members: map<string, RosValue>)

  /** foxglove::ParameterValue. */
  datatype Value =
    | Bool(b: bool)
    | Int(n: Int64)
    | Double(d: real)
    | Str(s: string)
    | Array(elements: seq<Value>)
    | Dict(members: map<string, Value>)

  datatype ParameterType = NoType | ByteArray | Float64 | Float64Array

  datatype Parameter = Parameter(name: string, hint: ParameterType, value: Option<Value>)

  /** valueFromRosParam; None stands for its exceptions. */
  function FromValue(v: RosValue, depth: nat): Option<Value>
    decreases v
  {
    if depth > MAX_PARAM_DEPTH then None
    else match v
      case RosBool(b) => Some(Bool(b))
      case RosInt(i) => Some(Int(i))
      case RosDouble(d) => Some(Double(d))
      case RosString(s) => Some(Str(s))
      case RosArray(es) =>
        if forall i :: 0 <= i < |es| ==> FromValue(es[i], depth + 1).Some?
        then Some(Array(seq(|es|, i requires 0 <= i < |es| => FromValue(es[i], depth + 1).value)))
        else None
      case RosStruct(ms) =>
        if forall k :: k in ms ==> FromValue(ms[k], depth + 1).Some?
        then Some(Dict(map k | k in ms :: FromValue(ms[k], depth + 1).value))
        else None
      case _ => None
  }

  /** fromRosParam: scalars directly, anything else as a nested value that starts at depth 1. */
  function FromRosParam(name: string, v: RosValue): Option<Parameter> {
    match v
    case RosBool(b) => Some(Parameter(name, NoType, Some(Bool(b))))
    case RosInt(i) => Some(Parameter(name, NoType, Some(Int(i))))
    case RosDouble(d) => Some(Parameter(name, Float64, Some(Double(d))))
    case RosString(s) => Some(Parameter(name, NoType, Some(Str(s))))
    case _ =>
      var converted := FromValue(v, 1);
      if converted.Some? then Some(Parameter(name, NoType, Some(converted.value))) else None
  }

  /** static_cast<int> of an int64: the low 32 bits, read as two's complement. */
  function Narrow(n: Int64): Int32 {
    (n + 0x8000_0000) % 0x1_0000_0000 - 0x8000_0000
  }

  /** toRosParam. Assigning to elements of a default-constructed value turns it into a container. */
  function ToRosParam(v: Value, hint: ParameterType, depth: nat): Option<RosValue>
    decreases v
  {
    if depth > MAX_PARAM_DEPTH then None
    else match v
      case Bool(b) => Some(RosBool(b))
      case Int(n) => if hint.Float64? then Some(RosDouble(n as real)) else Some(RosInt(Narrow(n)))
      case Double(d) => Some(RosDouble(d))
      case Str(s) => Some(RosString(s))
      case Array(es) =>
        if forall i :: 0 <= i < |es| ==> ToRosParam(es[i], NoType, depth + 1).Some? then
          Some(if es == [] then Invalid
               else RosArray(seq(|es|, i requires 0 <= i < |es| => ToRosParam(es[i], NoType, depth + 1).value)))
        else None
      case Dict(ms) =>
        if forall k :: k in ms ==> ToRosParam(ms[k], NoType, depth + 1).Some? then
          Some(if ms == map[] then Invalid
               else RosStruct(map k | k in ms :: ToRosParam(ms[k], NoType, depth + 1).value))
        else None
  }

  // ---------------------------------------------------------------- from the master and back

  /** Nothing in the tree is of a type that the conversion rejects. */
  predicate Supported(v: RosValue) {
    match v
    case RosArray(es) => forall i :: 0 <= i < |es| ==> Supported(es[i])
    case RosStruct(ms) => forall k :: k in ms ==> Supported(ms[k])
    case _ => !v.Invalid? && !v.RosDateTime? && !v.RosBase64?
  }

  /** At most h containers lie around any leaf of v (an empty container is a leaf). */
  predicate HeightAtMost(v: RosValue, h: int) {
    match v
    case RosArray(es) => h >= 0 && forall i :: 0 <= i < |es| ==> HeightAtMost(es[i], h - 1)
    case RosStruct(ms) => h >= 0 && forall k :: k in ms ==> HeightAtMost(ms[k], h - 1)
    case _ => h >= 0
  }

  predicate NoEmpty(v: RosValue) {
    match v
    case RosArray(es) => es != [] && forall i :: 0 <= i < |es| ==> NoEmpty(es[i])
    case RosStruct(ms) => ms != map[] && forall k :: k in ms ==> NoEmpty(ms[k])
    case _ => true
  }

  predicate Compound(v: RosValue) {
    v.RosArray? || v.RosStruct?
  }

  /** How a client writes doubles: as they are, or whole ones without a fraction, as integers. */
  datatype Client = Exact | WholeAsInteger

  predicate Whole(d: real) {
    d == d.Floor as real && -0x8000_0000_0000_0000 <= d.Floor < 0x8000_0000_0000_0000
  }

  /** The value that arrives when a client sends v. */
  function AsSent(v: Value, c: Client): Value {
    match v
    case Double(d) => if c.WholeAsInteger? && Whole(d) then Int(d.Floor) else v
    case Array(es) => Array(seq(|es|, i requires 0 <= i < |es| => AsSent(es[i], c)))
    case Dict(ms) => Dict(map k | k in ms :: AsSent(ms[k], c))
    case _ => v
  }

  lemma {:induction false} ExactAsSent(v: Value)
    ensures AsSent(v, Exact) == v
  {
    match v {
      case Array(es) =>
        forall i | 0 <= i < |es| { ExactAsSent(es[i]); }
        assert AsSent(v, Exact).elements == es;
      case Dict(ms) =>
        forall k | k in ms { ExactAsSent(ms[k]); }
        assert AsSent(v, Exact).members == ms;
      case _ =>
    }
  }

  /**
   What comes back of a nested value: every empty container has become the default-constructed
   value, and every whole double that was written as an integer has become one.
   */
  function Normal(v: RosValue, c: Client): RosValue {
    match v
    case RosDouble(d) => if c.WholeAsInteger? && Whole(d) then RosInt(Narrow(d.Floor)) else v
    case RosArray(es) =>
      if es == [] then Invalid else RosArray(seq(|es|, i requires 0 <= i < |es| => Normal(es[i], c)))
    case RosStruct(ms) => if ms == map[] then Invalid else RosStruct(map k | k in ms :: Normal(ms[k], c))
    case _ => v
  }

  predicate NoWholeDouble(v: RosValue) {
    match v
    case RosDouble(d) => !Whole(d)
    case RosArray(es) => forall i :: 0 <= i < |es| ==> NoWholeDouble(es[i])
    case RosStruct(ms) => forall k :: k in ms ==> NoWholeDouble(ms[k])
    case _ => true
  }

  lemma {:induction false} FromValueIff(v: RosValue, depth: nat)
    ensures FromValue(v, depth).Some? <==> Supported(v) && HeightAtMost(v, MAX_PARAM_DEPTH - depth)
  {
    match v {
      case RosArray(es) =>
        forall i | 0 <= i < |es| { FromValueIff(es[i], depth + 1); }
      case RosStruct(ms) =>
        forall k | k in ms { FromValueIff(ms[k], depth + 1); }
      case _ =>
    }
  }

  lemma {:induction false} BackAgain(v: RosValue, depth: nat, back: nat, c: Client)
    requires FromValue(v, depth).Some? && back <= depth
    ensures ToRosParam(AsSent(FromValue(v, depth).value, c), NoType, back) == Some(Normal(v, c))
  {
    match v {
      case RosInt(i) => assert Narrow(i) == i;
      case RosArray(es) =>
        forall i | 0 <= i < |es| { BackAgain(es[i], depth + 1, back + 1, c); }
        BackArray(es, FromValue(v, depth).value.elements, back, c);
      case RosStruct(ms) =>
        forall k | k in ms { BackAgain(ms[k], depth + 1, back + 1, c); }
        BackStruct(ms, FromValue(v, depth).value.members, back, c);
      case _ =>
    }
  }

  lemma BackArray(es: seq<RosValue>, read: seq<Value>, back: nat, c: Client)
    requires back <= MAX_PARAM_DEPTH && |read| == |es|
    requires forall i :: 0 <= i < |es| ==> ToRosParam(AsSent(read[i], c), NoType, back + 1) == Some(Normal(es[i], c))
    ensures ToRosParam(AsSent(Array(read), c), NoType, back) == Some(Normal(RosArray(es), c))
  {
    var sent := AsSent(Array(read), c).elements;
    assert forall i :: 0 <= i < |es| ==> sent[i] == AsSent(read[i], c);
    var r := ToRosParam(Array(sent), NoType, back);
    assert es != [] ==> r.value.elements == Normal(RosArray(es), c).elements;
  }

  lemma BackStruct(ms: map<string, RosValue>, read: map<string, Value>, back: nat, c: Client)
    requires back <= MAX_PARAM_DEPTH && read.Keys == ms.Keys
    requires forall k :: k in ms ==> ToRosParam(AsSent(read[k], c), NoType, back + 1) == Some(Normal(ms[k], c))
    ensures ToRosParam(AsSent(Dict(read), c), NoType, back) == Some(Normal(RosStruct(ms), c))
  {
    var sent := map k | k in read :: AsSent(read[k], c);
    assert AsSent(Dict(read), c) == Dict(sent);
    StructBack(ms, sent, back, c);
  }

  lemma StructBack(ms: map<string, RosValue>, sent: map<string, Value>, back: nat, c: Client)
    requires back <= MAX_PARAM_DEPTH && sent.Keys == ms.Keys
    requires forall k :: k in ms ==> ToRosParam(sent[k], NoType, back + 1) == Some(Normal(ms[k], c))
    ensures ToRosParam(Dict(sent), NoType, back) == Some(Normal(RosStruct(ms), c))
  {
    assert ms == map[] <==> ms.Keys == {};
    assert sent == map[] <==> sent.Keys == {};
    var r := ToRosParam(Dict(sent), NoType, back);
    assert ms != map[] ==> r.value.members == Normal(RosStruct(ms), c).members;
  }

  lemma {:induction false} NormalIff(v: RosValue, c: Client)
    requires Supported(v)
    ensures Normal(v, c) == v <==> NoEmpty(v) && (c.WholeAsInteger? ==> NoWholeDouble(v))
  {
    match v {
      case RosArray(es) =>
        forall i | 0 <= i < |es| { NormalIff(es[i], c); }
        if es != [] && Normal(v, c) == v {
          forall i | 0 <= i < |es| ensures Normal(es[i], c) == es[i] {
            assert Normal(v, c).elements[i] == Normal(es[i], c);
          }
        }
      case RosStruct(ms) =>
        forall k | k in ms { NormalIff(ms[k], c); }
        if ms != map[] && Normal(v, c) == v {
          forall k | k in ms ensures Normal(ms[k], c) == ms[k] {
            assert Normal(v, c).members[k] == Normal(ms[k], c);
          }
        }
      case _ =>
    }
  }

  /** Sends a converted parameter back with its hint, as a client does that sets what it has read. */
  function SendBack(p: Parameter, c: Client): Option<RosValue>
    requires p.value.Some?
  {
    ToRosParam(AsSent(p.value.value, c), p.hint, 0)
  }

  /** Reading succeeds exactly on supported trees; a container may be nested 127 deep, not 128. */
  lemma FromRosParamIff(name: string, v: RosValue)
    ensures FromRosParam(name, v).Some? <==> Supported(v) && (Compound(v) ==> HeightAtMost(v, 127))
  {
    FromValueIff(v, 1);
  }

  /**
   Setting what was read always succeeds. It restores the parameter exactly if the tree has no
   empty array or struct and, should the client write whole doubles as integers, no whole double
   inside a container: only at the top does the hint restore it.
   */
  lemma RoundTripIff(name: string, v: RosValue, c: Client)
    requires FromRosParam(name, v).Some?
    ensures var p := FromRosParam(name, v).value;
            && p.value.Some? && SendBack(p, c) == Some(if Compound(v) then Normal(v, c) else v)
            && (SendBack(p, c) == Some(v) <==> NoEmpty(v) && (Compound(v) && c.WholeAsInteger? ==> NoWholeDouble(v)))
  {
    FromRosParamIff(name, v);
    NormalIff(v, c);
    if Compound(v) {
      BackAgain(v, 1, 0, c);
    } else if v.RosInt? {
      assert Narrow(v.i) == v.i;
    }
  }

  /** A client that writes doubles as they are sends the very value that was read. */
  lemma ExactRoundTripIff(name: string, v: RosValue)
    ensures (FromRosParam(name, v).Some?
             && FromRosParam(name, v).value.value.Some?
             && ToRosParam(FromRosParam(name, v).value.value.value, FromRosParam(name, v).value.hint, 0) == Some(v))
        <==> (Supported(v) && NoEmpty(v) && (Compound(v) ==> HeightAtMost(v, 127)))
  {
    FromRosParamIff(name, v);
    if FromRosParam(name, v).Some? {
      RoundTripIff(name, v, Exact);
      ExactAsSent(FromRosParam(name, v).value.value.value);
    }
  }

  // ---------------------------------------------------------------- what is shown, and what is stored

  /** u shows v: scalars as they are, containers element by element. */
  predicate Shows(v: RosValue, u: Value) {
    match v
    case RosBool(b) => u == Bool(b)
    case RosInt(i) => u == Int(i)
    case RosDouble(d) => u == Double(d)
    case RosString(s) => u == Str(s)
    case RosArray(es) => u.Array? && |u.elements| == |es| && forall i :: 0 <= i < |es| ==> Shows(es[i], u.elements[i])
    case RosStruct(ms) => u.Dict? && u.members.Keys == ms.Keys && forall k :: k in ms ==> Shows(ms[k], u.members[k])
    case _ => false
  }

  /**
   x stores u: scalars as they are, integers by their low 32 bits or, if the hint says so, as
   doubles, containers element by element, and an empty container as the default-constructed value.
   */
  predicate Stores(x: RosValue, u: Value, hint: ParameterType)
    decreases u
  {
    match u
    case Bool(b) => x == RosBool(b)
    case Int(n) => if hint.Float64? then x == RosDouble(n as real) else x.RosInt? && (n - x.i) % 0x1_0000_0000 == 0
    case Double(d) => x == RosDouble(d)
    case Str(s) => x == RosString(s)
    case Array(es) =>
      if es == [] then x == Invalid
      else x.RosArray? && |x.elements| == |es| && forall i :: 0 <= i < |es| ==> Stores(x.elements[i], es[i], NoType)
    case Dict(ms) =>
      if ms == map[] then x == Invalid
      else x.RosStruct? && x.members.Keys == ms.Keys && forall k :: k in ms ==> Stores(x.members[k], ms[k], NoType)
  }

  lemma {:induction false} FromValueShows(v: RosValue, depth: nat)
    requires FromValue(v, depth).Some?
    ensures Shows(v, FromValue(v, depth).value)
  {
    match v {
      case RosArray(es) =>
        forall i | 0 <= i < |es| { FromValueShows(es[i], depth + 1); }
      case RosStruct(ms) =>
        forall k | k in ms { FromValueShows(ms[k], depth + 1); }
      case _ =>
    }
  }

  /** A parameter that is read has its name, shows its value, and has a hint exactly if it is a double. */
  lemma FromRosParamShows(name: string, v: RosValue)
    requires FromRosParam(name, v).Some?
    ensures var p := FromRosParam(name, v).value;
            && p.name == name && p.hint == (if v.RosDouble? then Float64 else NoType)
            && p.value.Some? && Shows(v, p.value.value)
  {
    if FromValue(v, 1).Some? {
      FromValueShows(v, 1);
    }
  }

  lemma {:induction false} ToRosParamStores(u: Value, hint: ParameterType, depth: nat)
    requires ToRosParam(u, hint, depth).Some?
    ensures Stores(ToRosParam(u, hint, depth).value, u, hint)
  {
    match u {
      case Array(es) =>
        forall i | 0 <= i < |es| { ToRosParamStores(es[i], NoType, depth + 1); }
      case Dict(ms) =>
        forall k | k in ms { ToRosParamStores(ms[k], NoType, depth + 1); }
        assert ms == map[] <==> ms.Keys == {};
      case _ =>
    }
  }

  // ---------------------------------------------------------------- from a client and back

  predicate FitsInt32(v: Value) {
    match v
    case Int(n) => -0x8000_0000 <= n < 0x8000_0000
    case Array(es) => forall i :: 0 <= i < |es| ==> FitsInt32(es[i])
    case Dict(ms) => forall k :: k in ms ==> FitsInt32(ms[k])
    case _ => true
  }

  predicate ValueHeightAtMost(v: Value, h: int) {
    match v
    case Array(es) => h >= 0 && forall i :: 0 <= i < |es| ==> ValueHeightAtMost(es[i], h - 1)
    case Dict(ms) => h >= 0 && forall k :: k in ms ==> ValueHeightAtMost(ms[k], h - 1)
    case _ => h >= 0
  }

  predicate NoEmptyValue(v: Value) {
    match v
    case Array(es) => es != [] && forall i :: 0 <= i < |es| ==> NoEmptyValue(es[i])
    case Dict(ms) => ms != map[] && forall k :: k in ms ==> NoEmptyValue(ms[k])
    case _ => true
  }

  lemma {:induction false} ToRosParamIff(v: Value, hint: ParameterType, depth: nat)
    ensures ToRosParam(v, hint, depth).Some? <==> ValueHeightAtMost(v, MAX_PARAM_DEPTH - depth)
  {
    match v {
      case Array(es) =>
        forall i | 0 <= i < |es| { ToRosParamIff(es[i], NoType, depth + 1); }
      case Dict(ms) =>
        forall k | k in ms { ToRosParamIff(ms[k], NoType, depth + 1); }
      case _ =>
    }
  }

  lemma {:induction false} ReadAgain(v: Value, depth: nat, back: nat)
    requires ToRosParam(v, NoType, depth).Some?
    ensures FromValue(ToRosParam(v, NoType, depth).value, back) == Some(v)
        <==> (FitsInt32(v) && NoEmptyValue(v) && ValueHeightAtMost(v, MAX_PARAM_DEPTH - back))
  {
    var r := ToRosParam(v, NoType, depth).value;
    match v {
      case Array(es) =>
        forall i | 0 <= i < |es| { ReadAgain(es[i], depth + 1, back + 1); }
        if es != [] {
          ReadAgainArray(es, r.elements, depth, back);
        }
      case Dict(ms) =>
        forall k | k in ms { ReadAgain(ms[k], depth + 1, back + 1); }
        if ms != map[] {
          var k0 :| k0 in ms;
          assert k0 in r.members;
          ReadAgainDict(ms, r.members, depth, back);
        }
      case _ =>
    }
  }

  lemma ReadAgainArray(es: seq<Value>, rs: seq<RosValue>, depth: nat, back: nat)
    requires |rs| == |es|
    requires forall i :: 0 <= i < |es| ==> ToRosParam(es[i], NoType, depth + 1) == Some(rs[i])
    ensures FromValue(RosArray(rs), back) == Some(Array(es))
        <==> (back <= MAX_PARAM_DEPTH && forall i :: 0 <= i < |es| ==> FromValue(rs[i], back + 1) == Some(es[i]))
  {
    if FromValue(RosArray(rs), back) == Some(Array(es)) {
      forall i | 0 <= i < |es| ensures FromValue(rs[i], back + 1) == Some(es[i]) {
        assert FromValue(RosArray(rs), back).value.elements[i] == es[i];
      }
    }
    if back <= MAX_PARAM_DEPTH && forall i :: 0 <= i < |es| ==> FromValue(rs[i], back + 1) == Some(es[i]) {
      assert seq(|rs|, i requires 0 <= i < |rs| => FromValue(rs[i], back + 1).value) == es;
    }
  }

  lemma ReadAgainDict(ms: map<string, Value>, rs: map<string, RosValue>, depth: nat, back: nat)
    requires ms != map[] && rs.Keys == ms.Keys
    requires forall k :: k in ms ==> ToRosParam(ms[k], NoType, depth + 1) == Some(rs[k])
    ensures FromValue(RosStruct(rs), back) == Some(Dict(ms))
        <==> (back <= MAX_PARAM_DEPTH && forall k :: k in ms ==> FromValue(rs[k], back + 1) == Some(ms[k]))
  {
    if FromValue(RosStruct(rs), back) == Some(Dict(ms)) {
      forall k | k in ms ensures FromValue(rs[k], back + 1) == Some(ms[k]) {
        assert FromValue(RosStruct(rs), back).value.members[k] == ms[k];
      }
    }
    if back <= MAX_PARAM_DEPTH && forall k :: k in ms ==> FromValue(rs[k], back + 1) == Some(ms[k]) {
      var read := map k | k in rs :: FromValue(rs[k], back + 1).value;
      assert FromValue(RosStruct(rs), back) == Some(Dict(read));
      forall k | k in ms ensures read[k] == ms[k] {}
      assert read == ms;
    }
  }

  /** Inside the message that carries it, a value has less room. */
  lemma {:induction false} HeightGrows(v: Value, h: int, room: int)
    requires ValueHeightAtMost(v, h) && h <= room
    ensures ValueHeightAtMost(v, room)
  {
    match v {
      case Array(es) =>
        forall i | 0 <= i < |es| { HeightGrows(es[i], h - 1, room - 1); }
      case Dict(ms) =>
        forall k | k in ms { HeightGrows(ms[k], h - 1, room - 1); }
      case _ =>
    }
  }

  /** An integer that comes with the hint of a double. */
  predicate MeantAsDouble(v: Value, hint: ParameterType) {
    v.Int? && hint.Float64?
  }

  /**
   As a function on values, toRosParam accepts up to 128 containers around a leaf. What was set
   reads back as the same value exactly if its integers fit 32 bits, it has no empty container, it
   is at most 127 containers high, and it is not an integer meant as a double, which reads back as
   that double.
   */
  lemma ClientRoundTripIff(name: string, v: Value, hint: ParameterType)
    ensures ToRosParam(v, hint, 0).Some? <==> ValueHeightAtMost(v, 128)
    ensures ToRosParam(v, hint, 0).Some? ==>
              var p := FromRosParam(name, ToRosParam(v, hint, 0).value);
              && ((p.Some? && p.value.value == Some(v))
                  <==> (FitsInt32(v) && NoEmptyValue(v) && !MeantAsDouble(v, hint)
                        && (v.Array? || v.Dict? ==> ValueHeightAtMost(v, 127))))
              && (MeantAsDouble(v, hint) ==> p == Some(Parameter(name, Float64, Some(Double(v.n as real)))))
  {
    ToRosParamIff(v, hint, 0);
    if v.Array? || v.Dict? {
      if ToRosParam(v, hint, 0).Some? {
        ContainerStays(v, 0);
        CompoundReadAgain(name, v, ToRosParam(v, NoType, 0).value, 0);
      }
    } else {
      ScalarReadAgain(name, v, hint);
    }
  }

  /**
   A value arrives inside a message, and the parser limits the whole message to 128 nested
   containers. So every value that arrives is accepted, and the depth limit of reading never
   stands in the way of reading it back.
   */
  lemma ReceivedRoundTripIff(name: string, v: Value, hint: ParameterType, around: nat)
    requires around >= 1 && ValueHeightAtMost(v, 128 - around)
    ensures ToRosParam(v, hint, 0).Some?
    ensures var p := FromRosParam(name, ToRosParam(v, hint, 0).value);
            (p.Some? && p.value.value == Some(v)) <==> (FitsInt32(v) && NoEmptyValue(v) && !MeantAsDouble(v, hint))
  {
    HeightGrows(v, 128 - around, 128);
    HeightGrows(v, 128 - around, 127);
    ClientRoundTripIff(name, v, hint);
  }

  lemma CompoundReadAgain(name: string, v: Value, r: RosValue, depth: nat)
    requires depth == 0 && ToRosParam(v, NoType, depth) == Some(r) && (r.RosArray? || r.RosStruct? || r.Invalid?)
    ensures var p := FromRosParam(name, r);
            (p.Some? && p.value.value == Some(v))
            <==> (FitsInt32(v) && NoEmptyValue(v) && ValueHeightAtMost(v, MAX_PARAM_DEPTH - (depth + 1)))
  {
    CompoundReads(name, v, r, depth + 1);
    ReadAgain(v, depth, depth + 1);
  }

  lemma CompoundReads(name: string, v: Value, r: RosValue, depth: nat)
    requires depth == 1 && (r.RosArray? || r.RosStruct? || r.Invalid?)
    ensures (FromRosParam(name, r).Some? && FromRosParam(name, r).value.value == Some(v)) <==> FromValue(r, depth) == Some(v)
  {
    CompoundRead(name, r);
  }

  lemma ContainerStays(v: Value, depth: nat)
    requires (v.Array? || v.Dict?) && ToRosParam(v, NoType, depth).Some?
    ensures var r := ToRosParam(v, NoType, depth).value; r.RosArray? || r.RosStruct? || r.Invalid?
  {
  }

  lemma CompoundRead(name: string, r: RosValue)
    requires r.RosArray? || r.RosStruct? || r.Invalid?
    ensures FromRosParam(name, r)
         == if FromValue(r, 1).Some? then Some(Parameter(name, NoType, Some(FromValue(r, 1).value))) else None
  {
  }

  lemma ScalarReadAgain(name: string, v: Value, hint: ParameterType)
    requires !v.Array? && !v.Dict?
    ensures ToRosParam(v, hint, 0).Some? && FromRosParam(name, ToRosParam(v, hint, 0).value).Some?
    ensures FromRosParam(name, ToRosParam(v, hint, 0).value).value.value == Some(v)
        <==> FitsInt32(v) && NoEmptyValue(v) && !MeantAsDouble(v, hint)
  {
    match v {
      case Int(n) => assert FitsInt32(v) <==> Narrow(n) == n;
      case _ =>
    }
  }
}
