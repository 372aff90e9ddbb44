/**
 The schema-driven envelope of crates/protocol/src/envelope.rs: default values of wire types,
 structs built by overriding defaults by field name, and the response envelope.
 */
module ProtocolEnvelope {
  import opened Wrappers
  import opened ThriftWire
  import ThriftCodec
  import ThriftCursor

  datatype FieldSpec = FieldSpec(name: string, wireType: string, id: Int16)

  datatype TypeSpec = TypeSpec(namespace: string, name: string, fields: seq<FieldSpec>)

  /** Types by qualified name. */
  type Schema = map<string, TypeSpec>

  /** The parts of an RPC specification that reach the wire; texts are their UTF-8 bytes. */
  datatype RpcSpec = RpcSpec(name: seq<Byte>, category: seq<Byte>, hasServerTime: bool)

  datatype EnvelopeError =
    | MissingType(qualified: string)
    | RecursionLimit(wireType: string)
    | ExpectedStruct(wireType: string)
    | UnknownField(wireType: string, field: string)
    | FieldAbsentFromDefault(id: Int16)  // the panic of `expect`

  const MAX_DEPTH := 32

  // ----- Names -----

  /** Position of the first occurrence of `c`, or the length of `s`. */
  function IndexOf(s: string, c: char): (i: nat)
    ensures i <= |s| && (i < |s| ==> s[i] == c) && c !in s[..i]
  {
    if s == [] || s[0] == c then 0 else 1 + IndexOf(s[1..], c)
  }

  function LastIndexOf(s: string, c: char): (r: Option<nat>)
    ensures r.None? <==> c !in s
    ensures r.Some? ==> r.value < |s| && s[r.value] == c && c !in s[r.value + 1..]
  {
    if s == [] then None
    else if s[|s| - 1] == c then Some(|s| - 1)
    else
      assert s == s[..|s| - 1] + [s[|s| - 1]];
      LastIndexOf(s[..|s| - 1], c)
  }

  predicate HasScope(s: string) {
    exists i | 0 <= i < |s| - 1 :: s[i] == ':' && s[i + 1] == ':'
  }

  function Qualified(namespace: string, wireType: string): string {
    match LastIndexOf(wireType, '.')
    case Some(dot) => wireType[..dot] + "::" + wireType[dot + 1..]
    case None => if HasScope(wireType) then wireType else namespace + "::" + wireType
  }

  function ResolveType(schema: Schema, namespace: string, wireType: string): Result<TypeSpec, EnvelopeError> {
    var qualified := Qualified(namespace, wireType);
    if qualified in schema then Ok(schema[qualified]) else Err(MissingType(qualified))
  }

  predicate IsList(wireType: string) {
    "[]" <= wireType
  }

  predicate IsMap(wireType: string) {
    "map[" <= wireType
  }

  /** `split_map`: the key and value types, when there is a closing bracket. */
  function SplitMap(wireType: string): Option<(string, string)> {
    if !IsMap(wireType) then None
    else
      var remainder := wireType[4..];
      var close := IndexOf(remainder, ']');
      if close == |remainder| then None else Some((remainder[..close], remainder[close + 1..]))
  }

  /** The zero of a primitive wire type. */
  function PrimitiveDefault(wireType: string): Option<Value> {
    if wireType == "bool" then Some(VBool(false))
    else if wireType in ["byte", "int8", "uint8"] then Some(VByte(0))
    else if wireType in ["int16", "uint16"] then Some(VI16(0))
    else if wireType in ["int", "int32", "uint", "uint32"] then Some(VI32(0))
    else if wireType in ["int64", "uint64"] then Some(VI64(0))
    else if wireType in ["float32", "float64"] then Some(VDouble(0))
    else if wireType == "string" then Some(VString([]))
    else None
  }

  /** The kind of a primitive wire type, as `wire_kind` lists it. */
  function PrimitiveKind(wireType: string): Option<Byte> {
    if wireType == "bool" then Some(BOOL)
    else if wireType in ["byte", "int8", "uint8"] then Some(BYTE)
    else if wireType in ["int16", "uint16"] then Some(I16)
    else if wireType in ["int", "int32", "uint", "uint32"] then Some(I32)
    else if wireType in ["int64", "uint64"] then Some(I64)
    else if wireType in ["float32", "float64"] then Some(DOUBLE)
    else if wireType == "string" then Some(STRING)
    else None
  }

  function WireKind(schema: Schema, namespace: string, wireType: string): Result<Byte, EnvelopeError> {
    if IsList(wireType) then Ok(LIST)
    else if IsMap(wireType) then Ok(MAP)
    else if PrimitiveKind(wireType).Some? then Ok(PrimitiveKind(wireType).value)
    else
      match ResolveType(schema, namespace, wireType)
      case Err(e) => Err(e)
      case Ok(_) => Ok(STRUCT)
  }

  // ----- Default values -----

  function Remaining(depth: nat): nat {
    if depth > MAX_DEPTH then 0 else MAX_DEPTH + 1 - depth
  }

  function DefaultValue(schema: Schema, namespace: string, wireType: string, depth: nat)
    : Result<Value, EnvelopeError>
    decreases Remaining(depth), 0, 0
  {
    if depth > MAX_DEPTH then Err(RecursionLimit(wireType))
    else if IsList(wireType) then
      match WireKind(schema, namespace, wireType[2..])
      case Err(e) => Err(e)
      case Ok(kind) => Ok(VList(kind, []))
    else if SplitMap(wireType).Some? then
      match WireKind(schema, namespace, SplitMap(wireType).value.0)
      case Err(e) => Err(e)
      case Ok(keyKind) =>
        match WireKind(schema, namespace, SplitMap(wireType).value.1)
        case Err(e) => Err(e)
        case Ok(valueKind) => Ok(VMap(keyKind, valueKind, []))
    else if PrimitiveDefault(wireType).Some? then Ok(PrimitiveDefault(wireType).value)
    else
      match ResolveType(schema, namespace, wireType)
      case Err(e) => Err(e)
      case Ok(spec) =>
        match DefaultFields(schema, spec.namespace, spec.fields, depth + 1)
        case Err(e) => Err(e)
        case Ok(fields) => Ok(VStruct(fields))
  }

  function DefaultFields(schema: Schema, namespace: string, specs: seq<FieldSpec>, depth: nat)
    : Result<seq<Field>, EnvelopeError>
    decreases Remaining(depth), 1, |specs|
  {
    if specs == [] then Ok([])
    else
      match DefaultValue(schema, namespace, specs[0].wireType, depth)
      case Err(e) => Err(e)
      case Ok(v) =>
        match DefaultFields(schema, namespace, specs[1..], depth)
        case Err(e) => Err(e)
        case Ok(rest) => Ok([Field(specs[0].id, v)] + rest)
  }

  /** `default_value` as the source builds it: a vector of fields grown in a loop. */
  method BuildDefault(schema: Schema, namespace: string, wireType: string, depth: nat)
    returns (r: Result<Value, EnvelopeError>)
    ensures r == DefaultValue(schema, namespace, wireType, depth)
    decreases Remaining(depth), 0
  {
    if depth > MAX_DEPTH {
      return Err(RecursionLimit(wireType));
    }
    if IsList(wireType) {
      var kind := WireKind(schema, namespace, wireType[2..]);
      return if kind.Err? then Err(kind.error) else Ok(VList(kind.value, []));
    }
    var split := SplitMap(wireType);
    if split.Some? {
      var keyKind := WireKind(schema, namespace, split.value.0);
      if keyKind.Err? {
        return Err(keyKind.error);
      }
      var valueKind := WireKind(schema, namespace, split.value.1);
      return if valueKind.Err? then Err(valueKind.error) else Ok(VMap(keyKind.value, valueKind.value, []));
    }
    if PrimitiveDefault(wireType).Some? {
      return Ok(PrimitiveDefault(wireType).value);
    }
    var resolved := ResolveType(schema, namespace, wireType);
    if resolved.Err? {
      return Err(resolved.error);
    }
    var fields := BuildFields(schema, resolved.value.namespace, resolved.value.fields, depth + 1);
    r := if fields.Err? then Err(fields.error) else Ok(VStruct(fields.value));
  }

  method BuildFields(schema: Schema, namespace: string, specs: seq<FieldSpec>, depth: nat)
    returns (r: Result<seq<Field>, EnvelopeError>)
    ensures r == DefaultFields(schema, namespace, specs, depth)
    decreases Remaining(depth), 1
  {
    hide DefaultValue;
    var fields, i := [], 0;
    while i < |specs|
      invariant i <= |specs|
      invariant DefaultFields(schema, namespace, specs, depth)
             == Extend(fields, DefaultFields(schema, namespace, specs[i..], depth))
    {
      var v := BuildDefault(schema, namespace, specs[i].wireType, depth);
      if v.Err? {
        return Err(v.error);
      }
      assert specs[i..][1..] == specs[i + 1..];
      ExtendGrows(fields, Field(specs[i].id, v.value), DefaultFields(schema, namespace, specs[i + 1..], depth));
      fields := fields + [Field(specs[i].id, v.value)];
      i := i + 1;
    }
    assert fields + [] == fields;
    r := Ok(fields);
  }

  lemma ExtendGrows(done: seq<Field>, field: Field, rest: Result<seq<Field>, EnvelopeError>)
    ensures Extend(done, Extend([field], rest)) == Extend(done + [field], rest)
  {
    if rest.Ok? {
      assert done + ([field] + rest.value) == done + [field] + rest.value;
    }
  }

  ghost function Extend(done: seq<Field>, rest: Result<seq<Field>, EnvelopeError>)
    : (r: Result<seq<Field>, EnvelopeError>)
    ensures done == [] ==> r == rest
  {
    match rest
    case Err(e) => Err(e)
    case Ok(fields) => assert [] + fields == fields; Ok(done + fields)
  }

  /**
   What it means for a value to be the default of a wire type: primitives are zero, collections are
   empty and carry the kinds of their element types, and a struct holds every schema field, in
   schema order, each with the default of its own type.
   */
  predicate IsDefault(schema: Schema, namespace: string, wireType: string, v: Value)
    decreases v
  {
    match v
    case VList(kind, values) =>
      IsList(wireType) && values == [] && WireKind(schema, namespace, wireType[2..]) == Ok(kind)
    case VMap(keyKind, valueKind, entries) =>
      && SplitMap(wireType).Some? && entries == []
      && WireKind(schema, namespace, SplitMap(wireType).value.0) == Ok(keyKind)
      && WireKind(schema, namespace, SplitMap(wireType).value.1) == Ok(valueKind)
    case VStruct(fields) =>
      && !IsList(wireType) && SplitMap(wireType).None? && PrimitiveDefault(wireType).None?
      && ResolveType(schema, namespace, wireType).Ok?
      && var spec := ResolveType(schema, namespace, wireType).value;
      && AreDefaults(schema, spec.namespace, spec.fields, fields)
    case _ => PrimitiveDefault(wireType) == Some(v)
  }

  predicate AreDefaults(schema: Schema, namespace: string, specs: seq<FieldSpec>, fields: seq<Field>)
    decreases fields
  {
    && |fields| == |specs|
    && forall i | 0 <= i < |fields| :: IsDefaultField(schema, namespace, specs[i], fields[i])
  }

  predicate IsDefaultField(schema: Schema, namespace: string, spec: FieldSpec, field: Field)
    decreases field
  {
    field.id == spec.id && IsDefault(schema, namespace, spec.wireType, field.value)
  }

  /** `default_value` succeeds only with the default of its type, and that value is well formed. */
  lemma {:induction false} DefaultIsDefault(schema: Schema, namespace: string, wireType: string, depth: nat)
    requires DefaultValue(schema, namespace, wireType, depth).Ok?
    ensures var v := DefaultValue(schema, namespace, wireType, depth).value;
      IsDefault(schema, namespace, wireType, v) && WellFormed(v)
    decreases Remaining(depth), 0, 0
  {
    if !IsList(wireType) && SplitMap(wireType).None? && PrimitiveDefault(wireType).None? {
      var spec := ResolveType(schema, namespace, wireType).value;
      DefaultsAreDefaults(schema, spec.namespace, spec.fields, depth + 1);
    }
  }

  lemma {:induction false} DefaultsAreDefaults(schema: Schema, namespace: string, specs: seq<FieldSpec>, depth: nat)
    requires DefaultFields(schema, namespace, specs, depth).Ok?
    ensures var fields := DefaultFields(schema, namespace, specs, depth).value;
      AreDefaults(schema, namespace, specs, fields) && WellFormedFields(fields)
    decreases Remaining(depth), 1, |specs|
  {
    if specs != [] {
      DefaultIsDefault(schema, namespace, specs[0].wireType, depth);
      DefaultsAreDefaults(schema, namespace, specs[1..], depth);
      var v := DefaultValue(schema, namespace, specs[0].wireType, depth).value;
      var rest := DefaultFields(schema, namespace, specs[1..], depth).value;
      var fields := [Field(specs[0].id, v)] + rest;
      forall i | 0 <= i < |fields| ensures IsDefaultField(schema, namespace, specs[i], fields[i]) {
        if i > 0 {
          assert fields[i] == rest[i - 1] && specs[i] == specs[1..][i - 1];
        }
      }
    }
  }

  lemma ShapesExclude(wireType: string)
    ensures IsList(wireType) ==> !IsMap(wireType)
    ensures IsList(wireType) || IsMap(wireType) ==> PrimitiveDefault(wireType).None?
    ensures SplitMap(wireType).Some? ==> IsMap(wireType)
  {
    if IsMap(wireType) {
      assert wireType[0] == "map["[0] == 'm';
    }
    if IsList(wireType) {
      assert wireType[0] == "[]"[0] == '[';
    }
  }

  /** The default of a type is unique, whatever the depth it was built at. */
  lemma {:induction false} DefaultIsUnique(schema: Schema, namespace: string, wireType: string, a: Value, b: Value)
    requires IsDefault(schema, namespace, wireType, a) && IsDefault(schema, namespace, wireType, b)
    ensures a == b
    decreases a, 1
  {
    ShapesExclude(wireType);
    if a.VStruct? && b.VStruct? {
      var spec := ResolveType(schema, namespace, wireType).value;
      forall i | 0 <= i < |spec.fields| ensures a.fields[i] == b.fields[i] {
        assert IsDefaultField(schema, spec.namespace, spec.fields[i], a.fields[i]);
        assert IsDefaultField(schema, spec.namespace, spec.fields[i], b.fields[i]);
        DefaultFieldIsUnique(schema, spec.namespace, spec.fields[i], a.fields[i], b.fields[i]);
      }
      assert a.fields == b.fields;
    }
  }

  lemma {:induction false} DefaultFieldIsUnique(schema: Schema, namespace: string, spec: FieldSpec, a: Field, b: Field)
    requires IsDefaultField(schema, namespace, spec, a) && IsDefaultField(schema, namespace, spec, b)
    ensures a == b
    decreases a, 0
  {
    DefaultIsUnique(schema, namespace, spec.wireType, a.value, b.value);
  }

  /** A type named `map[` without a closing bracket is a map to `wire_kind` but not to `default_value`. */
  predicate UnclosedMap(wireType: string) {
    IsMap(wireType) && ']' !in wireType[4..]
  }

  lemma PrimitivesAgree(wireType: string)
    ensures PrimitiveDefault(wireType).Some? <==> PrimitiveKind(wireType).Some?
    ensures PrimitiveDefault(wireType).Some? ==>
      ValueKind(PrimitiveDefault(wireType).value) == PrimitiveKind(wireType).value
  {
  }

  /**
   Whenever a default value exists, `wire_kind` answers too, and it names the kind of that value
   exactly when the type name is not an unclosed map.
   */
  lemma KindAgreesExactly(schema: Schema, namespace: string, wireType: string, depth: nat)
    requires DefaultValue(schema, namespace, wireType, depth).Ok?
    ensures WireKind(schema, namespace, wireType).Ok?
    ensures var v := DefaultValue(schema, namespace, wireType, depth).value;
      ValueKind(v) == WireKind(schema, namespace, wireType).value <==> !UnclosedMap(wireType)
  {
    PrimitivesAgree(wireType);
    ShapesExclude(wireType);
    if IsMap(wireType) {
      var close := IndexOf(wireType[4..], ']');
      assert close == |wireType[4..]| ==> wireType[4..][..close] == wireType[4..];
    }
  }

  /** A schema on which the two disagree. */
  lemma KindsCanDisagree()
    ensures var schema: Schema := map["ns::map[x" := TypeSpec("ns", "map[x", [])];
      && DefaultValue(schema, "ns", "map[x", 0) == Ok(VStruct([]))
      && WireKind(schema, "ns", "map[x") == Ok(MAP)
  {
    var t := "map[x";
    assert IndexOf(t[4..], ']') == |t[4..]| by {
      assert t[4..] == "x";
    }
    assert LastIndexOf(t, '.').None? && !HasScope(t);
    assert "ns" + "::" + t == "ns::map[x";
  }

  // ----- Structs by name -----

  function FindSpec(specs: seq<FieldSpec>, name: string): (r: Option<nat>)
    ensures r.Some? ==> r.value < |specs| && specs[r.value].name == name
    ensures r.Some? ==> forall j | 0 <= j < r.value :: specs[j].name != name
    ensures r.None? ==> forall j | 0 <= j < |specs| :: specs[j].name != name
  {
    if specs == [] then None
    else if specs[0].name == name then Some(0)
    else
      match FindSpec(specs[1..], name)
      case None => None
      case Some(i) => Some(i + 1)
  }

  function FindField(fields: seq<Field>, id: Int16): (r: Option<nat>)
    ensures r.Some? ==> r.value < |fields| && fields[r.value].id == id
    ensures r.Some? ==> forall j | 0 <= j < r.value :: fields[j].id != id
    ensures r.None? ==> forall j | 0 <= j < |fields| :: fields[j].id != id
  {
    if fields == [] then None
    else if fields[0].id == id then Some(0)
    else
      match FindField(fields[1..], id)
      case None => None
      case Some(i) => Some(i + 1)
  }

  datatype Override = Override(name: string, value: Value)

  function ApplyOverrides(wireType: string, specs: seq<FieldSpec>, fields: seq<Field>, overrides: seq<Override>)
    : Result<seq<Field>, EnvelopeError>
    decreases |overrides|
  {
    if overrides == [] then Ok(fields)
    else
      match FindSpec(specs, overrides[0].name)
      case None => Err(UnknownField(wireType, overrides[0].name))
      case Some(s) =>
        match FindField(fields, specs[s].id)
        case None => Err(FieldAbsentFromDefault(specs[s].id))
        case Some(f) =>
          ApplyOverrides(wireType, specs, fields[f := fields[f].(value := overrides[0].value)], overrides[1..])
  }

  function StructValue(schema: Schema, namespace: string, wireType: string, overrides: seq<Override>)
    : Result<Value, EnvelopeError>
  {
    match ResolveType(schema, namespace, wireType)
    case Err(e) => Err(e)
    case Ok(spec) =>
      match DefaultValue(schema, namespace, wireType, 0)
      case Err(e) => Err(e)
      case Ok(v) =>
        if !v.VStruct? then Err(ExpectedStruct(wireType))
        else
          match ApplyOverrides(wireType, spec.fields, v.fields, overrides)
          case Err(e) => Err(e)
          case Ok(fields) => Ok(VStruct(fields))
  }

  /** `struct_value` as the source runs it, overwriting fields of the default in place. */
  method BuildStruct(schema: Schema, namespace: string, wireType: string, overrides: seq<Override>)
    returns (r: Result<Value, EnvelopeError>)
    ensures r == StructValue(schema, namespace, wireType, overrides)
  {
    var resolved := ResolveType(schema, namespace, wireType);
    if resolved.Err? {
      return Err(resolved.error);
    }
    var specs := resolved.value.fields;
    var value := BuildDefault(schema, namespace, wireType, 0);
    if value.Err? {
      return value;
    }
    if !value.value.VStruct? {
      return Err(ExpectedStruct(wireType));
    }
    DefaultHasIds(schema, namespace, wireType);
    var fields, i := value.value.fields, 0;
    while i < |overrides|
      invariant i <= |overrides| && SameIds(specs, fields)
      invariant ApplyOverrides(wireType, specs, value.value.fields, overrides)
             == ApplyOverrides(wireType, specs, fields, overrides[i..])
    {
      assert overrides[i..][1..] == overrides[i + 1..];
      var s := FindSpec(specs, overrides[i].name);
      if s.None? {
        return Err(UnknownField(wireType, overrides[i].name));
      }
      var f := FindField(fields, specs[s.value].id);
      assert f.Some? by {  // the `expect` of the source
        assert fields[s.value].id == specs[s.value].id;
      }
      fields := fields[f.value := fields[f.value].(value := overrides[i].value)];
      i := i + 1;
    }
    r := Ok(VStruct(fields));
  }

  predicate SameIds(specs: seq<FieldSpec>, fields: seq<Field>) {
    |fields| == |specs| && forall i | 0 <= i < |fields| :: fields[i].id == specs[i].id
  }

  lemma DefaultHasIds(schema: Schema, namespace: string, wireType: string)
    requires ResolveType(schema, namespace, wireType).Ok?
    requires DefaultValue(schema, namespace, wireType, 0).Ok?
    requires DefaultValue(schema, namespace, wireType, 0).value.VStruct?
    ensures SameIds(ResolveType(schema, namespace, wireType).value.fields,
                    DefaultValue(schema, namespace, wireType, 0).value.fields)
  {
    var specs := ResolveType(schema, namespace, wireType).value.fields;
    DefaultIsDefault(schema, namespace, wireType, 0);
    var fields := DefaultValue(schema, namespace, wireType, 0).value.fields;
    forall i | 0 <= i < |fields| ensures fields[i].id == specs[i].id {
      assert IsDefaultField(schema, ResolveType(schema, namespace, wireType).value.namespace, specs[i], fields[i]);
    }
  }

  lemma {:induction false} OverridesFindTheirField(
    wireType: string, specs: seq<FieldSpec>, fields: seq<Field>, overrides: seq<Override>)
    requires SameIds(specs, fields)
    ensures var r := ApplyOverrides(wireType, specs, fields, overrides);
      && (r.Err? ==> !r.error.FieldAbsentFromDefault?)
      && (r.Err? <==> exists o | o in overrides :: FindSpec(specs, o.name).None?)
      && (r.Ok? ==> SameIds(specs, r.value))
    decreases |overrides|
  {
    if overrides != [] {
      var o := overrides[0];
      assert forall p :: p in overrides <==> p == o || p in overrides[1..];
      if FindSpec(specs, o.name).Some? {
        var s := FindSpec(specs, o.name).value;
        assert fields[s].id == specs[s].id;
        var f := FindField(fields, specs[s].id).value;
        OverridesFindTheirField(wireType, specs, fields[f := fields[f].(value := o.value)], overrides[1..]);
      }
    }
  }

  /** `struct_value` never reaches its `expect`. */
  lemma NeverAbsent(schema: Schema, namespace: string, wireType: string, overrides: seq<Override>)
    ensures var r := StructValue(schema, namespace, wireType, overrides);
      r.Err? ==> !r.error.FieldAbsentFromDefault?
  {
    var resolved := ResolveType(schema, namespace, wireType);
    var value := DefaultValue(schema, namespace, wireType, 0);
    if value.Err? {
      DefaultNeverAbsent(schema, namespace, wireType, 0);
    } else if resolved.Ok? && value.value.VStruct? {
      DefaultHasIds(schema, namespace, wireType);
      OverridesFindTheirField(wireType, resolved.value.fields, value.value.fields, overrides);
    }
  }

  lemma {:induction false} DefaultNeverAbsent(schema: Schema, namespace: string, wireType: string, depth: nat)
    ensures var r := DefaultValue(schema, namespace, wireType, depth); r.Err? ==> !r.error.FieldAbsentFromDefault?
    decreases Remaining(depth), 0, 0
  {
    if depth <= MAX_DEPTH && ResolveType(schema, namespace, wireType).Ok? {
      var spec := ResolveType(schema, namespace, wireType).value;
      DefaultsNeverAbsent(schema, spec.namespace, spec.fields, depth + 1);
    }
  }

  lemma {:induction false} DefaultsNeverAbsent(schema: Schema, namespace: string, specs: seq<FieldSpec>, depth: nat)
    ensures var r := DefaultFields(schema, namespace, specs, depth); r.Err? ==> !r.error.FieldAbsentFromDefault?
    decreases Remaining(depth), 1, |specs|
  {
    if specs != [] {
      DefaultNeverAbsent(schema, namespace, specs[0].wireType, depth);
      DefaultsNeverAbsent(schema, namespace, specs[1..], depth);
    }
  }

  /** The last value given for `name`, or `default`. */
  function LastOverride(overrides: seq<Override>, name: string, default: Value): Value {
    if overrides == [] then default
    else LastOverride(overrides[1..], name, if overrides[0].name == name then overrides[0].value else default)
  }

  predicate DistinctIds(specs: seq<FieldSpec>) {
    forall i, j | 0 <= i < j < |specs| :: specs[i].id != specs[j].id
  }

  /**
   With distinct field ids, a struct value has every schema field in order, and the field a name
   stands for holds the last override of that name, or its default; all other fields keep theirs.
   */
  lemma {:induction false} OverridesReadBack(
    wireType: string, specs: seq<FieldSpec>, fields: seq<Field>, overrides: seq<Override>, i: nat)
    requires DistinctIds(specs) && SameIds(specs, fields) && i < |specs|
    requires ApplyOverrides(wireType, specs, fields, overrides).Ok?
    ensures var r := ApplyOverrides(wireType, specs, fields, overrides).value;
      && SameIds(specs, r)
      && r[i].value == if FindSpec(specs, specs[i].name) == Some(i)
                       then LastOverride(overrides, specs[i].name, fields[i].value) else fields[i].value
    decreases |overrides|
  {
    if overrides != [] {
      var o := overrides[0];
      var s := FindSpec(specs, o.name).value;
      var f := FindField(fields, specs[s].id).value;
      assert fields[s].id == specs[s].id && fields[f].id == specs[f].id;
      assert f == s;
      OverridesReadBack(wireType, specs, fields[f := fields[f].(value := o.value)], overrides[1..], i);
    }
  }

  // ----- Responses -----

  const MAINTENANCE_DEFAULT := VStruct([
    Field(1, VI16(0)), Field(2, VString([])), Field(3, VString([])), Field(4, VI16(0)),
    Field(5, VString([])), Field(6, VString([])), Field(7, VString([]))])

  function ClampI32(x: int): Int32 {
    if x < -0x8000_0000 then -0x8000_0000 else if x > 0x7fff_ffff then 0x7fff_ffff else x
  }

  function ResponseFields(spec: RpcSpec, unixSeconds: Int64, code: Int32, message: seq<Byte>,
                          data: Option<Value>, maintenance: Option<Value>): seq<Field>
  {
    var status := [Field(1, VStruct([Field(1, VI32(code)), Field(2, VString(message))]))];
    var time := if spec.hasServerTime
      then [Field(2, VStruct([Field(1, VI32(ClampI32(unixSeconds))), Field(2, VI64(unixSeconds))]))]
      else [];
    var base := if spec.hasServerTime then 3 else 2;
    var call := [Field(base, VString(spec.category)), Field(base + 1, VString(spec.name))];
    var body := if data.Some? then [Field(base + 2, data.value)] else [];
    status + time + call + body + [Field(base + 3, maintenance.GetOr(MAINTENANCE_DEFAULT))]
  }

  /** `response_with_optional_data`: the vector of fields, grown and then written. */
  method Respond(spec: RpcSpec, unixSeconds: Int64, code: Int32, message: seq<Byte>,
                 data: Option<Value>, maintenance: Option<Value>)
    returns (raw: seq<Byte>)
    ensures raw == Encoding(ResponseFields(spec, unixSeconds, code, message, data, maintenance))
  {
    var fields := [Field(1, VStruct([Field(1, VI32(code)), Field(2, VString(message))]))];
    var modeId, callId, dataId, maintenanceId := 2, 3, 4, 5;
    if spec.hasServerTime {
      fields := fields
        + [Field(2, VStruct([Field(1, VI32(ClampI32(unixSeconds))), Field(2, VI64(unixSeconds))]))];
      modeId, callId, dataId, maintenanceId := 3, 4, 5, 6;
    }
    fields := fields + [Field(modeId, VString(spec.category)), Field(callId, VString(spec.name))];
    if data.Some? {
      fields := fields + [Field(dataId, data.value)];
    }
    fields := fields + [Field(maintenanceId, maintenance.GetOr(MAINTENANCE_DEFAULT))];
    assert fields == ResponseFields(spec, unixSeconds, code, message, data, maintenance);
    raw := ThriftCursor.WriteStruct(fields);
  }

  lemma StringWellFormed(text: seq<Byte>)
    requires |text| <= MAX_SIZE
    ensures WellFormed(VString(text))
  {
  }

  lemma StatusWellFormed(code: Int32, message: seq<Byte>)
    requires |message| <= MAX_SIZE
    ensures WellFormed(VStruct([Field(1, VI32(code)), Field(2, VString(message))]))
  {
    assert forall f | f in [Field(1, VI32(code)), Field(2, VString(message))] :: WellFormedField(f);
  }

  lemma TimeWellFormed(unixSeconds: Int64)
    ensures WellFormed(VStruct([Field(1, VI32(ClampI32(unixSeconds))), Field(2, VI64(unixSeconds))]))
  {
    var seconds: Int32 := ClampI32(unixSeconds);
    assert forall f | f in [Field(1, VI32(seconds)), Field(2, VI64(unixSeconds))] :: WellFormedField(f);
  }

  lemma MaintenanceWellFormed()
    ensures WellFormed(MAINTENANCE_DEFAULT)
  {
    assert forall f | f in MAINTENANCE_DEFAULT.fields :: WellFormedField(f);
  }

  /** A response with in-limit strings and well-formed parts is read back to the fields it was built from. */
  lemma ResponseReadsBack(spec: RpcSpec, unixSeconds: Int64, code: Int32, message: seq<Byte>,
                          data: Option<Value>, maintenance: Option<Value>)
    requires |spec.name| <= MAX_SIZE && |spec.category| <= MAX_SIZE && |message| <= MAX_SIZE
    requires data.Some? ==> WellFormed(data.value)
    requires maintenance.Some? ==> WellFormed(maintenance.value)
    ensures var fields := ResponseFields(spec, unixSeconds, code, message, data, maintenance);
      Decode(Encoding(fields)) == Ok(fields)
  {
    var fields := ResponseFields(spec, unixSeconds, code, message, data, maintenance);
    StatusWellFormed(code, message);
    TimeWellFormed(unixSeconds);
    MaintenanceWellFormed();
    StringWellFormed(spec.category);
    StringWellFormed(spec.name);
    hide WellFormed;
    forall f | f in fields ensures WellFormedField(f) {
      assert WellFormed(f.value);
    }
    hide ResponseFields, WellFormedField;
    ThriftCodec.RoundTripWithSuffix(fields, []);
    assert Encoding(fields) + [] == Encoding(fields);
  }

  /** The default success response of an RPC re-reads to the default of its response type. */
  lemma DefaultResponseReadsBack(schema: Schema, namespace: string, wireType: string, spec: RpcSpec, unixSeconds: Int64)
    requires |spec.name| <= MAX_SIZE && |spec.category| <= MAX_SIZE
    requires DefaultValue(schema, namespace, wireType, 0).Ok?
    ensures var v := DefaultValue(schema, namespace, wireType, 0).value;
      var fields := ResponseFields(spec, unixSeconds, 0, [], Some(v), None);
      && Decode(Encoding(fields)) == Ok(fields)
      && fields[|fields| - 2].value == v && IsDefault(schema, namespace, wireType, v)
  {
    DefaultIsDefault(schema, namespace, wireType, 0);
    ResponseReadsBack(spec, unixSeconds, 0, [], Some(DefaultValue(schema, namespace, wireType, 0).value), None);
  }
}
