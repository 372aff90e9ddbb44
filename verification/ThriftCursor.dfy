/**
 The reader and the writer in the form the source has them: a cursor whose position advances
 through a byte string, and an output vector that grows. Each method is tied to `ThriftWire`.
 */
module ThriftCursor {
  import opened Wrappers
  import opened ThriftWire

  /** `checked_size`. */
  function CheckedSize(n: Int32): (r: Result<nat, ThriftError>)
    ensures r.Ok? <==> 0 <= n <= MAX_SIZE
  {
    if 0 <= n <= MAX_SIZE then Ok(n) else Err(InvalidSize(n))
  }

  class Cursor {
    const input: seq<Byte>
    var position: nat

    constructor (raw: seq<Byte>)
      ensures input == raw && position == 0
    {
      input := raw;
      position := 0;
    }

    ghost predicate Valid()
      reads this
    {
      position <= |input|
    }

    /** The outcome `r` and the new position are what parsing from `start` gives. */
    ghost predicate Follows<T(!new)>(parsed: Read<T>, r: Result<T, ThriftError>)
      reads this
    {
      match parsed
      case Done(value, next) => r == Ok(value) && position == next
      case Failed(error) => r == Err(error)
    }

    /** `read_exact` followed by `from_be_bytes`. */
    method ReadUnsigned(width: nat) returns (r: Result<nat, ThriftError>)
      requires Valid()
      modifies this
      ensures Valid() && Follows(ParseUnsigned(input, old(position), width), r)
    {
      if |input| - position < width {
        return Err(UnexpectedEof);
      }
      var value: nat, i: nat := 0, 0;
      while i < width
        invariant i <= width && position == old(position) + i <= |input|
        invariant value == FromBigEndian(input[old(position)..position])
        invariant width - i <= |input| - position
      {
        value := value * 0x100 + input[position];
        position := position + 1;
        i := i + 1;
        var bs := input[old(position)..position];
        assert bs[..|bs| - 1] == input[old(position)..position - 1];
      }
      r := Ok(value);
    }

    method ReadByte() returns (r: Result<Byte, ThriftError>)
      requires Valid()
      modifies this
      ensures Valid()
      ensures r.Ok? <==> old(position) < |input|
      ensures r.Ok? ==> position == old(position) + 1 && r.value == input[old(position)]
      ensures r.Err? ==> r.error == UnexpectedEof
    {
      if position == |input| {
        return Err(UnexpectedEof);
      }
      r := Ok(input[position]);
      position := position + 1;
    }

    method ReadSize() returns (r: Result<nat, ThriftError>)
      requires Valid()
      modifies this
      ensures Valid() && Follows(ParseSize(input, old(position)), r)
    {
      Widths();
      var u := ReadUnsigned(4);
      if u.Err? {
        return Err(u.error);
      }
      r := CheckedSize(Signed(4, u.value));
    }

    method ReadStructFrom() returns (r: Result<seq<Field>, ThriftError>)
      requires Valid()
      modifies this
      ensures Valid() && Follows(ParseFields(input, old(position)), r)
      decreases |input| - position, 0
    {
      hide ParseValue;
      Widths();
      var fields := [];
      ghost var start := position;
      PrependNothing(ParseFields(input, start));
      while true
        invariant old(position) <= position <= |input|
        invariant ParseFields(input, start) == Prepend(fields, ParseFields(input, position))
        decreases |input| - position
      {
        var kind := ReadByte();
        if kind.Err? {
          return Err(kind.error);
        }
        if kind.value == STOP {
          assert fields + [] == fields;
          return Ok(fields);
        }
        var id := ReadUnsigned(2);
        if id.Err? {
          return Err(id.error);
        }
        var value := ReadValue(kind.value);
        if value.Err? {
          return Err(value.error);
        }
        ghost var grown := fields;
        fields := fields + [Field(Signed(2, id.value), value.value)];
        PrependGrows(grown, fields[|fields| - 1], ParseFields(input, position));
      }
    }

    method ReadValue(kind: Byte) returns (r: Result<Value, ThriftError>)
      requires Valid()
      modifies this
      ensures Valid() && Follows(ParseValue(input, old(position), kind), r)
      decreases |input| - position, 1
    {
      Widths();
      if kind == STRING {
        var size := ReadSize();
        if size.Err? {
          return Err(size.error);
        }
        if |input| - position < size.value {
          return Err(UnexpectedEof);
        }
        position := position + size.value;
        r := Ok(VString(input[position - size.value..position]));
      } else if kind == STRUCT {
        var fields := ReadStructFrom();
        if fields.Err? {
          return Err(fields.error);
        }
        r := Ok(VStruct(fields.value));
      } else if kind == MAP {
        r := ReadMap();
      } else if kind == SET || kind == LIST {
        r := ReadCollection(kind);
      } else {
        r := ReadLeaf(kind);
      }
    }

    method ReadLeaf(kind: Byte) returns (r: Result<Value, ThriftError>)
      requires Valid() && kind !in {STRING, STRUCT, MAP, SET, LIST}
      modifies this
      ensures Valid() && Follows(ParseValue(input, old(position), kind), r)
    {
      Widths();
      if kind !in {BOOL, BYTE, DOUBLE, I16, I32, I64} {
        return Err(UnsupportedType(kind));
      }
      var width := if kind == BOOL || kind == BYTE then 1 else if kind == I16 then 2 else if kind == I32 then 4 else 8;
      var bits := ReadUnsigned(width);
      if bits.Err? {
        return Err(bits.error);
      }
      var u := bits.value;
      r := Ok(
        if kind == BOOL then VBool(u != 0)
        else if kind == BYTE then VByte(Signed(1, u))
        else if kind == DOUBLE then VDouble(u)
        else if kind == I16 then VI16(Signed(2, u))
        else if kind == I32 then VI32(Signed(4, u))
        else VI64(Signed(8, u)));
    }

    method ReadMap() returns (r: Result<Value, ThriftError>)
      requires Valid()
      modifies this
      ensures Valid() && Follows(ParseMap(input, old(position)), r)
      decreases |input| - position, 0
    {
      hide ParseValue;
      var keyType := ReadByte();
      if keyType.Err? {
        return Err(keyType.error);
      }
      var valueType := ReadByte();
      if valueType.Err? {
        return Err(valueType.error);
      }
      var count := ReadSize();
      if count.Err? {
        return Err(count.error);
      }
      var entries, i := [], 0;
      ghost var start := position;
      PrependNothing(ParseEntries(input, start, keyType.value, valueType.value, count.value));
      while i < count.value
        invariant i <= count.value && old(position) < start <= position <= |input|
        invariant ParseEntries(input, start, keyType.value, valueType.value, count.value)
               == Prepend(entries, ParseEntries(input, position, keyType.value, valueType.value, count.value - i))
      {
        var key := ReadValue(keyType.value);
        if key.Err? {
          return Err(key.error);
        }
        var value := ReadValue(valueType.value);
        if value.Err? {
          return Err(value.error);
        }
        ghost var grown := entries;
        entries := entries + [Entry(key.value, value.value)];
        i := i + 1;
        PrependGrows(grown, entries[|entries| - 1],
                     ParseEntries(input, position, keyType.value, valueType.value, count.value - i));
      }
      assert entries + [] == entries;
      r := Ok(VMap(keyType.value, valueType.value, entries));
    }

    method ReadCollection(kind: Byte) returns (r: Result<Value, ThriftError>)
      requires Valid() && (kind == SET || kind == LIST)
      modifies this
      ensures Valid() && Follows(ParseCollection(input, old(position), kind), r)
      decreases |input| - position, 0
    {
      hide ParseValue;
      var elementType := ReadByte();
      if elementType.Err? {
        return Err(elementType.error);
      }
      var count := ReadSize();
      if count.Err? {
        return Err(count.error);
      }
      var values, i := [], 0;
      ghost var start := position;
      PrependNothing(ParseValues(input, start, elementType.value, count.value));
      while i < count.value
        invariant i <= count.value && old(position) < start <= position <= |input|
        invariant ParseValues(input, start, elementType.value, count.value)
               == Prepend(values, ParseValues(input, position, elementType.value, count.value - i))
      {
        var value := ReadValue(elementType.value);
        if value.Err? {
          return Err(value.error);
        }
        ghost var grown := values;
        values := values + [value.value];
        i := i + 1;
        PrependGrows(grown, value.value, ParseValues(input, position, elementType.value, count.value - i));
      }
      assert values + [] == values;
      r := Ok(if kind == SET then VSet(elementType.value, values) else VList(elementType.value, values));
    }
  }

  /** Reading `rest` after the elements of `done` were read. */
  ghost function Prepend<T>(done: seq<T>, rest: Read<seq<T>>): Read<seq<T>> {
    match rest
    case Done(values, next) => Done(done + values, next)
    case Failed(error) => Failed(error)
  }

  lemma PrependNothing<T>(rest: Read<seq<T>>)
    ensures Prepend([], rest) == rest
  {
    if rest.Done? {
      assert [] + rest.value == rest.value;
    }
  }

  lemma PrependGrows<T>(done: seq<T>, x: T, rest: Read<seq<T>>)
    ensures Prepend(done, Prepend([x], rest)) == Prepend(done + [x], rest)
  {
    if rest.Done? {
      assert done + ([x] + rest.value) == done + [x] + rest.value;
    }
  }

  /** `read_struct`. */
  method ReadStruct(raw: seq<Byte>) returns (r: Result<seq<Field>, ThriftError>)
    ensures r == Decode(raw)
  {
    var cursor := new Cursor(raw);
    var fields := cursor.ReadStructFrom();
    if fields.Err? {
      return fields;
    }
    var trailing := |raw| - cursor.position;
    r := if trailing != 0 then Err(TrailingBytes(trailing)) else fields;
  }

  /** The output vector of the writer. */
  class Output {
    var bytes: seq<Byte>

    constructor ()
      ensures bytes == []
    {
      bytes := [];
    }

    method Push(b: Byte)
      modifies this
      ensures bytes == old(bytes) + [b]
    {
      bytes := bytes + [b];
    }

    /** `extend_from_slice(&x.to_be_bytes())`. */
    method WriteInteger(width: nat, x: int)
      requires 0 <= Unsigned(width, x)
      modifies this
      ensures bytes == old(bytes) + Canonical(Integer(width, x))
    {
      bytes := bytes + BigEndian(width, Unsigned(width, x));
      assert Canonical(Integer(width, x)) == BigEndian(width, Unsigned(width, x));
    }

    method WriteSize(n: nat)
      modifies this
      ensures bytes == old(bytes) + Canonical(Size(n))
    {
      Widths();
      WriteInteger(4, AsI32(n));
    }

    method WriteStructTo(fields: seq<Field>)
      modifies this
      ensures bytes == old(bytes) + Canonical(FieldsLayout(fields))
      decreases fields
    {
      hide FieldLayout, BigEndian;
      Widths();
      var i := 0;
      while i < |fields|
        invariant i <= |fields|
        invariant old(bytes) + Canonical(FieldsLayout(fields))
               == bytes + Canonical(FieldsLayout(fields[i..]))
      {
        ghost var before := bytes;
        WriteField(fields[i]);
        assert fields[i..][1..] == fields[i + 1..];
        CanonicalAppends(FieldLayout(fields[i]), FieldsLayout(fields[i + 1..]));
        assert before + (Canonical(FieldLayout(fields[i])) + Canonical(FieldsLayout(fields[i + 1..])))
            == bytes + Canonical(FieldsLayout(fields[i + 1..]));
        i := i + 1;
      }
      Push(STOP);
      assert Canonical(FieldsLayout([])) == [STOP];
    }

    method WriteField(field: Field)
      modifies this
      ensures bytes == old(bytes) + Canonical(FieldLayout(field))
      decreases field
    {
      hide Layout, BigEndian;
      Widths();
      Push(ValueKind(field.value));
      WriteInteger(2, field.id);
      WriteValue(field.value);
      var head := [Exact(ValueKind(field.value))];
      CanonicalAppends(head, Integer(2, field.id));
      CanonicalAppends(head + Integer(2, field.id), Layout(field.value));
      assert Canonical(head) == [ValueKind(field.value)];
    }

    method WriteValue(v: Value)
      modifies this
      ensures bytes == old(bytes) + Canonical(Layout(v))
      decreases v
    {
      Widths();
      match v
      case VBool(flag) =>
        Push(if flag then 1 else 0);
        assert Canonical(Layout(v)) == [if flag then 1 else 0];
      case VByte(x) => WriteInteger(1, x);
      case VDouble(bits) => WriteInteger(8, bits);
      case VI16(x) => WriteInteger(2, x);
      case VI32(x) => WriteInteger(4, x);
      case VI64(x) => WriteInteger(8, x);
      case VString(text) => WriteString(text);
      case VStruct(fields) => WriteStructTo(fields);
      case VMap(kt, vt, entries) => WriteMap(kt, vt, entries);
      case VSet(et, values) => WriteCollection(et, values);
      case VList(et, values) => WriteCollection(et, values);
    }

    method WriteString(text: seq<Byte>)
      modifies this
      ensures bytes == old(bytes) + Canonical(Size(|text|) + Exacts(text))
    {
      WriteSize(|text|);
      bytes := bytes + text;
      CanonicalAppends(Size(|text|), Exacts(text));
      assert Canonical(Exacts(text)) == text;
    }

    method WriteMap(kt: Byte, vt: Byte, entries: seq<Entry>)
      modifies this
      ensures bytes == old(bytes) + Canonical([Exact(kt), Exact(vt)] + Size(|entries|) + EntriesLayout(entries))
      decreases entries, 1
    {
      hide Layout, EntriesLayout, BigEndian;
      Push(kt);
      Push(vt);
      WriteSize(|entries|);
      WriteEntries(entries);
      ghost var head := [Exact(kt), Exact(vt)];
      CanonicalAppends(head, Size(|entries|));
      CanonicalAppends(head + Size(|entries|), EntriesLayout(entries));
      assert Canonical(head) == [kt, vt];
    }

    method WriteEntries(entries: seq<Entry>)
      modifies this
      ensures bytes == old(bytes) + Canonical(EntriesLayout(entries))
      decreases entries, 0
    {
      hide EntryLayout;
      var i := 0;
      while i < |entries|
        invariant i <= |entries|
        invariant old(bytes) + Canonical(EntriesLayout(entries))
               == bytes + Canonical(EntriesLayout(entries[i..]))
      {
        ghost var before := bytes;
        WriteEntry(entries[i]);
        assert entries[i..][1..] == entries[i + 1..];
        CanonicalAppends(EntryLayout(entries[i]), EntriesLayout(entries[i + 1..]));
        assert before + (Canonical(EntryLayout(entries[i])) + Canonical(EntriesLayout(entries[i + 1..])))
            == bytes + Canonical(EntriesLayout(entries[i + 1..]));
        i := i + 1;
      }
      assert Canonical(EntriesLayout([])) == [];
    }

    method WriteEntry(entry: Entry)
      modifies this
      ensures bytes == old(bytes) + Canonical(EntryLayout(entry))
      decreases entry
    {
      WriteValue(entry.key);
      WriteValue(entry.value);
      CanonicalAppends(Layout(entry.key), Layout(entry.value));
    }

    method WriteCollection(et: Byte, values: seq<Value>)
      modifies this
      ensures bytes == old(bytes) + Canonical([Exact(et)] + Size(|values|) + ValuesLayout(values))
      decreases values, 1
    {
      hide Layout, ValuesLayout, BigEndian;
      Push(et);
      WriteSize(|values|);
      WriteValues(values);
      ghost var head := [Exact(et)];
      CanonicalAppends(head, Size(|values|));
      CanonicalAppends(head + Size(|values|), ValuesLayout(values));
      assert Canonical(head) == [et];
    }

    method WriteValues(values: seq<Value>)
      modifies this
      ensures bytes == old(bytes) + Canonical(ValuesLayout(values))
      decreases values, 0
    {
      hide Layout;
      var i := 0;
      while i < |values|
        invariant i <= |values|
        invariant old(bytes) + Canonical(ValuesLayout(values))
               == bytes + Canonical(ValuesLayout(values[i..]))
      {
        ghost var before := bytes;
        WriteValue(values[i]);
        assert values[i..][1..] == values[i + 1..];
        CanonicalAppends(Layout(values[i]), ValuesLayout(values[i + 1..]));
        assert before + (Canonical(Layout(values[i])) + Canonical(ValuesLayout(values[i + 1..])))
            == bytes + Canonical(ValuesLayout(values[i + 1..]));
        i := i + 1;
      }
      assert Canonical(ValuesLayout([])) == [];
    }
  }

  lemma CanonicalAppends(a: seq<Cell>, b: seq<Cell>)
    ensures Canonical(a + b) == Canonical(a) + Canonical(b)
  {
  }

  /** `write_struct`. */
  method WriteStruct(fields: seq<Field>) returns (raw: seq<Byte>)
    ensures raw == Encoding(fields)
  {
    var output := new Output();
    output.WriteStructTo(fields);
    raw := output.bytes;
  }
}
