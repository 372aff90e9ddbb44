/**
 What the binary codec guarantees: the decoder accepts exactly the wire images of well-formed
 field lists and returns the fields they denote. Round trip, prefix freedom, injectivity and
 re-encoding of accepted bytes all follow.
 */
module ThriftCodec {
  import opened Wrappers
  import opened ThriftWire

  /** The bytes of `raw` from `pos` on start with a wire image of `cells`. */
  predicate DenotesAt(raw: seq<Byte>, pos: nat, cells: seq<Cell>) {
    && pos + |cells| <= |raw|
    && forall i | 0 <= i < |cells| :: Matches(cells[i], raw[pos + i])
  }

  lemma DenotesAtSplit(raw: seq<Byte>, pos: nat, a: seq<Cell>, b: seq<Cell>)
    ensures DenotesAt(raw, pos, a + b) <==> DenotesAt(raw, pos, a) && DenotesAt(raw, pos + |a|, b)
  {
    if DenotesAt(raw, pos, a + b) {
      forall i | 0 <= i < |a| ensures Matches(a[i], raw[pos + i]) {
        assert (a + b)[i] == a[i];
      }
      forall i | 0 <= i < |b| ensures Matches(b[i], raw[pos + |a| + i]) {
        assert (a + b)[|a| + i] == b[i];
      }
    }
  }

  // ----- Leaves -----

  lemma ExactsAt(raw: seq<Byte>, pos: nat, bs: seq<Byte>)
    ensures DenotesAt(raw, pos, Exacts(bs)) <==> pos + |bs| <= |raw| && raw[pos..pos + |bs|] == bs
  {
    if pos + |bs| <= |raw| {
      if DenotesAt(raw, pos, Exacts(bs)) {
        forall i | 0 <= i < |bs| ensures raw[pos..pos + |bs|][i] == bs[i] {
          assert Matches(Exacts(bs)[i], raw[pos + i]);
        }
      } else if raw[pos..pos + |bs|] == bs {
        forall i | 0 <= i < |bs| ensures Matches(Exacts(bs)[i], raw[pos + i]) {
          assert raw[pos..pos + |bs|][i] == bs[i];
        }
      }
    }
  }

  /** A fixed-width integer is read back exactly from its own bytes and from no others. */
  lemma UnsignedAt(raw: seq<Byte>, pos: nat, width: nat, u: nat)
    requires pos <= |raw| && u < Pow256(width)
    ensures DenotesAt(raw, pos, Exacts(BigEndian(width, u)))
       <==> ParseUnsigned(raw, pos, width) == Done(u, pos + width)
  {
    ExactsAt(raw, pos, BigEndian(width, u));
    FromBigEndianInverts(width, u);
    if pos + width <= |raw| {
      BigEndianInverts(raw[pos..pos + width]);
    }
  }

  lemma SizeAt(raw: seq<Byte>, pos: nat, n: nat)
    requires pos <= |raw| && n <= MAX_SIZE
    ensures DenotesAt(raw, pos, Size(n)) <==> ParseSize(raw, pos) == Done(n, pos + 4)
  {
    Widths();
    UnsignedAt(raw, pos, 4, n);
  }

  // ----- Completeness: every image of a well-formed value is read back -----

  predicate IsLeaf(v: Value) {
    v.VBool? || v.VByte? || v.VDouble? || v.VI16? || v.VI32? || v.VI64?
  }

  function LeafWidth(kind: Byte): nat {
    if kind == BOOL || kind == BYTE then 1
    else if kind == I16 then 2
    else if kind == I32 then 4
    else 8
  }

  /** The unsigned integer a leaf is written as, and the leaf an unsigned integer is read as. */
  function LeafBits(v: Value): int
    requires IsLeaf(v)
  {
    match v
    case VBool(flag) => if flag then 1 else 0
    case VByte(x) => Unsigned(1, x)
    case VDouble(bits) => bits
    case VI16(x) => Unsigned(2, x)
    case VI32(x) => Unsigned(4, x)
    case VI64(x) => Unsigned(8, x)
  }

  lemma OneByte(raw: seq<Byte>, pos: nat)
    requires pos < |raw|
    ensures ParseUnsigned(raw, pos, 1) == Done(raw[pos], pos + 1)
  {
    var bs := raw[pos..pos + 1];
    assert bs == [raw[pos]] && bs[..0] == [] && FromBigEndian([]) == 0;
  }

  lemma LeafLayout(v: Value)
    requires IsLeaf(v) && !v.VBool?
    ensures 0 <= LeafBits(v) < Pow256(LeafWidth(ValueKind(v)))
    ensures Layout(v) == Exacts(BigEndian(LeafWidth(ValueKind(v)), LeafBits(v)))
  {
    Widths();
  }

  lemma LeafParse(raw: seq<Byte>, pos: nat, v: Value)
    requires pos <= |raw| && IsLeaf(v) && !v.VBool?
    ensures var width := LeafWidth(ValueKind(v));
      ParseValue(raw, pos, ValueKind(v)) == Done(v, pos + width)
      <==> ParseUnsigned(raw, pos, width) == Done(LeafBits(v), pos + width)
  {
    Widths();
  }

  /** A leaf is read back from its own bytes and from no others. */
  lemma LeafAt(raw: seq<Byte>, pos: nat, v: Value)
    requires pos <= |raw| && IsLeaf(v)
    ensures DenotesAt(raw, pos, Layout(v))
       <==> ParseValue(raw, pos, ValueKind(v)) == Done(v, pos + |Layout(v)|)
  {
    if v.VBool? {
      if pos < |raw| {
        OneByte(raw, pos);
        assert DenotesAt(raw, pos, Layout(v)) <==> Matches(Layout(v)[0], raw[pos + 0]);
      }
    } else {
      LeafLayout(v);
      LeafParse(raw, pos, v);
      UnsignedAt(raw, pos, LeafWidth(ValueKind(v)), LeafBits(v));
    }
  }

  lemma StringAt(raw: seq<Byte>, pos: nat, text: seq<Byte>)
    requires pos <= |raw| && |text| <= MAX_SIZE
    ensures DenotesAt(raw, pos, Layout(VString(text)))
       <==> ParseValue(raw, pos, STRING) == Done(VString(text), pos + |Layout(VString(text))|)
  {
    DenotesAtSplit(raw, pos, Size(|text|), Exacts(text));
    SizeAt(raw, pos, |text|);
    if pos + 4 <= |raw| {
      ExactsAt(raw, pos + 4, text);
    }
  }

  lemma {:induction false} ReadsValue(raw: seq<Byte>, pos: nat, v: Value)
    requires WellFormed(v) && DenotesAt(raw, pos, Layout(v))
    ensures ParseValue(raw, pos, ValueKind(v)) == Done(v, pos + |Layout(v)|)
    decreases v
  {
    match v
    case VString(text) => StringAt(raw, pos, text);
    case VStruct(fields) => ReadsFields(raw, pos, fields);
    case VMap(kt, vt, entries) => ReadsMap(raw, pos, kt, vt, entries);
    case VSet(et, values) => ReadsCollection(raw, pos, et, values);
    case VList(et, values) => ReadsCollection(raw, pos, et, values);
    case _ => LeafAt(raw, pos, v);
  }

  lemma {:induction false} ReadsMap(raw: seq<Byte>, pos: nat, kt: Byte, vt: Byte, entries: seq<Entry>)
    requires WellFormed(VMap(kt, vt, entries)) && DenotesAt(raw, pos, Layout(VMap(kt, vt, entries)))
    ensures ParseMap(raw, pos) == Done(VMap(kt, vt, entries), pos + |Layout(VMap(kt, vt, entries))|)
    decreases entries, 1
  {
    hide ParseEntries, EntriesLayout;
    var head := [Exact(kt), Exact(vt)];
    DenotesAtSplit(raw, pos, head + Size(|entries|), EntriesLayout(entries));
    DenotesAtSplit(raw, pos, head, Size(|entries|));
    assert Matches(head[0], raw[pos]) && Matches(head[1], raw[pos + 1]);
    SizeAt(raw, pos + 2, |entries|);
    ReadsEntries(raw, pos + 6, kt, vt, entries);
  }

  lemma {:induction false} ReadsCollection(raw: seq<Byte>, pos: nat, et: Byte, values: seq<Value>)
    requires WellFormedElements(et, values)
    requires DenotesAt(raw, pos, [Exact(et)] + Size(|values|) + ValuesLayout(values))
    ensures raw[pos] == et && ParseSize(raw, pos + 1) == Done(|values|, pos + 5)
    ensures ParseValues(raw, pos + 5, et, |values|) == Done(values, pos + 5 + |ValuesLayout(values)|)
    decreases values, 1
  {
    hide ParseValues, ValuesLayout;
    var head := [Exact(et)];
    DenotesAtSplit(raw, pos, head + Size(|values|), ValuesLayout(values));
    DenotesAtSplit(raw, pos, head, Size(|values|));
    assert Matches(head[0], raw[pos]);
    SizeAt(raw, pos + 1, |values|);
    ReadsValues(raw, pos + 5, et, values);
  }

  lemma {:induction false} ReadsValues(raw: seq<Byte>, pos: nat, et: Byte, values: seq<Value>)
    requires forall v | v in values :: ValueKind(v) == et && WellFormed(v)
    requires DenotesAt(raw, pos, ValuesLayout(values))
    ensures ParseValues(raw, pos, et, |values|) == Done(values, pos + |ValuesLayout(values)|)
    decreases values, 0
  {
    hide ParseValue, Layout, WellFormed;
    if values != [] {
      DenotesAtSplit(raw, pos, Layout(values[0]), ValuesLayout(values[1..]));
      ReadsValue(raw, pos, values[0]);
      ReadsValues(raw, pos + |Layout(values[0])|, et, values[1..]);
      assert [values[0]] + values[1..] == values;
    }
  }

  lemma {:induction false} ReadsEntry(raw: seq<Byte>, pos: nat, entry: Entry)
    requires WellFormed(entry.key) && WellFormed(entry.value)
    requires DenotesAt(raw, pos, EntryLayout(entry))
    ensures ParseEntry(raw, pos, ValueKind(entry.key), ValueKind(entry.value))
         == Done(entry, pos + |EntryLayout(entry)|)
    decreases entry
  {
    hide ParseValue, Layout, WellFormed;
    DenotesAtSplit(raw, pos, Layout(entry.key), Layout(entry.value));
    ReadsValue(raw, pos, entry.key);
    ReadsValue(raw, pos + |Layout(entry.key)|, entry.value);
  }

  lemma {:induction false} ReadsEntries(raw: seq<Byte>, pos: nat, kt: Byte, vt: Byte, entries: seq<Entry>)
    requires forall e | e in entries ::
      ValueKind(e.key) == kt && WellFormed(e.key) && ValueKind(e.value) == vt && WellFormed(e.value)
    requires DenotesAt(raw, pos, EntriesLayout(entries))
    ensures ParseEntries(raw, pos, kt, vt, |entries|) == Done(entries, pos + |EntriesLayout(entries)|)
    decreases entries, 0
  {
    hide ParseEntry, EntryLayout, WellFormed;
    if entries != [] {
      var e := entries[0];
      DenotesAtSplit(raw, pos, EntryLayout(e), EntriesLayout(entries[1..]));
      ReadsEntry(raw, pos, e);
      ReadsEntries(raw, pos + |EntryLayout(e)|, kt, vt, entries[1..]);
      assert [e] + entries[1..] == entries;
    }
  }

  lemma {:induction false} ReadsField(raw: seq<Byte>, pos: nat, field: Field)
    requires WellFormedField(field) && DenotesAt(raw, pos, FieldLayout(field))
    ensures pos < |raw| && raw[pos] == ValueKind(field.value)
    ensures ParseField(raw, pos) == Done(field, pos + |FieldLayout(field)|)
    decreases field
  {
    hide ParseValue, Layout, WellFormed;
    Widths();
    var head := [Exact(ValueKind(field.value))];
    DenotesAtSplit(raw, pos, head + Integer(2, field.id), Layout(field.value));
    DenotesAtSplit(raw, pos, head, Integer(2, field.id));
    assert Matches(head[0], raw[pos]);
    UnsignedAt(raw, pos + 1, 2, Unsigned(2, field.id));
    ReadsValue(raw, pos + 3, field.value);
  }

  lemma {:induction false} ReadsFields(raw: seq<Byte>, pos: nat, fields: seq<Field>)
    requires WellFormedFields(fields) && DenotesAt(raw, pos, FieldsLayout(fields))
    ensures ParseFields(raw, pos) == Done(fields, pos + |FieldsLayout(fields)|)
    decreases fields
  {
    hide ParseField, FieldLayout, WellFormedField;
    Widths();
    if fields == [] {
      assert Matches(FieldsLayout(fields)[0], raw[pos]);
    } else {
      var field := fields[0];
      DenotesAtSplit(raw, pos, FieldLayout(field), FieldsLayout(fields[1..]));
      ReadsField(raw, pos, field);
      ReadsFields(raw, pos + |FieldLayout(field)|, fields[1..]);
      assert [field] + fields[1..] == fields;
    }
  }

  // ----- Soundness: whatever is read is well formed and is what the bytes denote -----

  lemma {:induction false} ReadIsDenoted(raw: seq<Byte>, pos: nat, kind: Byte)
    requires pos <= |raw| && ParseValue(raw, pos, kind).Done?
    ensures var Done(v, next) := ParseValue(raw, pos, kind);
      && ValueKind(v) == kind && WellFormed(v)
      && next == pos + |Layout(v)| && DenotesAt(raw, pos, Layout(v))
    decreases |raw| - pos, 1, 0
  {
    var v := ParseValue(raw, pos, kind).value;
    if kind == STRUCT {
      FieldsAreDenoted(raw, pos);
    } else if kind == MAP {
      MapIsDenoted(raw, pos);
    } else if kind == SET || kind == LIST {
      CollectionIsDenoted(raw, pos, kind);
    } else if kind == STRING {
      StringAt(raw, pos, v.text);
    } else {
      LeafAt(raw, pos, v);
    }
  }

  lemma {:induction false} MapIsDenoted(raw: seq<Byte>, pos: nat)
    requires pos <= |raw| && ParseMap(raw, pos).Done?
    ensures var Done(v, next) := ParseMap(raw, pos);
      && WellFormed(v) && next == pos + |Layout(v)| && DenotesAt(raw, pos, Layout(v))
    decreases |raw| - pos, 0, 0
  {
    hide ParseEntries, EntriesLayout;
    var VMap(kt, vt, entries) := ParseMap(raw, pos).value;
    var head := [Exact(kt), Exact(vt)];
    SizeAt(raw, pos + 2, |entries|);
    EntriesAreDenoted(raw, pos + 6, kt, vt, |entries|);
    DenotesAtSplit(raw, pos, head, Size(|entries|));
    DenotesAtSplit(raw, pos, head + Size(|entries|), EntriesLayout(entries));
  }

  lemma {:induction false} CollectionIsDenoted(raw: seq<Byte>, pos: nat, kind: Byte)
    requires pos <= |raw| && ParseCollection(raw, pos, kind).Done?
    ensures var Done(v, next) := ParseCollection(raw, pos, kind);
      && WellFormed(v) && next == pos + |Layout(v)| && DenotesAt(raw, pos, Layout(v))
    decreases |raw| - pos, 0, 0
  {
    hide ParseValues, ValuesLayout;
    var v := ParseCollection(raw, pos, kind).value;
    var et, values := v.elementType, v.values;
    var head := [Exact(et)];
    SizeAt(raw, pos + 1, |values|);
    ValuesAreDenoted(raw, pos + 5, et, |values|);
    DenotesAtSplit(raw, pos, head, Size(|values|));
    DenotesAtSplit(raw, pos, head + Size(|values|), ValuesLayout(values));
  }

  lemma {:induction false} ValuesAreDenoted(raw: seq<Byte>, pos: nat, et: Byte, count: nat)
    requires pos <= |raw| && ParseValues(raw, pos, et, count).Done?
    ensures var Done(values, next) := ParseValues(raw, pos, et, count);
      && (forall v | v in values :: ValueKind(v) == et && WellFormed(v))
      && next == pos + |ValuesLayout(values)| && DenotesAt(raw, pos, ValuesLayout(values))
    decreases |raw| - pos, 2, count
  {
    hide ParseValue, Layout, WellFormed;
    if count > 0 {
      var Done(v, next) := ParseValue(raw, pos, et);
      ReadIsDenoted(raw, pos, et);
      ValuesAreDenoted(raw, next, et, count - 1);
      var rest := ParseValues(raw, next, et, count - 1).value;
      DenotesAtSplit(raw, pos, Layout(v), ValuesLayout(rest));
      assert ([v] + rest)[1..] == rest;
    }
  }

  lemma {:induction false} EntryIsDenoted(raw: seq<Byte>, pos: nat, kt: Byte, vt: Byte)
    requires pos <= |raw| && ParseEntry(raw, pos, kt, vt).Done?
    ensures var Done(e, next) := ParseEntry(raw, pos, kt, vt);
      && ValueKind(e.key) == kt && WellFormed(e.key) && ValueKind(e.value) == vt && WellFormed(e.value)
      && next == pos + |EntryLayout(e)| && DenotesAt(raw, pos, EntryLayout(e))
    decreases |raw| - pos, 2, 0
  {
    hide ParseValue, Layout, WellFormed;
    var Done(e, next) := ParseEntry(raw, pos, kt, vt);
    ReadIsDenoted(raw, pos, kt);
    ReadIsDenoted(raw, pos + |Layout(e.key)|, vt);
    DenotesAtSplit(raw, pos, Layout(e.key), Layout(e.value));
  }

  lemma {:induction false} EntriesAreDenoted(raw: seq<Byte>, pos: nat, kt: Byte, vt: Byte, count: nat)
    requires pos <= |raw| && ParseEntries(raw, pos, kt, vt, count).Done?
    ensures var Done(entries, next) := ParseEntries(raw, pos, kt, vt, count);
      && (forall e | e in entries ::
            ValueKind(e.key) == kt && WellFormed(e.key) && ValueKind(e.value) == vt && WellFormed(e.value))
      && next == pos + |EntriesLayout(entries)| && DenotesAt(raw, pos, EntriesLayout(entries))
    decreases |raw| - pos, 3, count
  {
    hide ParseEntry, EntryLayout, WellFormed;
    if count > 0 {
      var Done(e, next) := ParseEntry(raw, pos, kt, vt);
      EntryIsDenoted(raw, pos, kt, vt);
      EntriesAreDenoted(raw, next, kt, vt, count - 1);
      var rest := ParseEntries(raw, next, kt, vt, count - 1).value;
      DenotesAtSplit(raw, pos, EntryLayout(e), EntriesLayout(rest));
      assert ([e] + rest)[1..] == rest;
    }
  }

  lemma {:induction false} FieldIsDenoted(raw: seq<Byte>, pos: nat)
    requires pos < |raw| && ParseField(raw, pos).Done?
    ensures var Done(field, next) := ParseField(raw, pos);
      && WellFormedField(field)
      && next == pos + |FieldLayout(field)| && DenotesAt(raw, pos, FieldLayout(field))
    decreases |raw| - pos, 0, 0
  {
    hide ParseValue, Layout, WellFormed;
    Widths();
    var Done(u, next) := ParseUnsigned(raw, pos + 1, 2);
    UnsignedAt(raw, pos + 1, 2, u);
    ReadIsDenoted(raw, next, raw[pos]);
    var field := ParseField(raw, pos).value;
    var head := [Exact(raw[pos])];
    DenotesAtSplit(raw, pos, head, Integer(2, field.id));
    DenotesAtSplit(raw, pos, head + Integer(2, field.id), Layout(field.value));
  }

  lemma {:induction false} FieldsAreDenoted(raw: seq<Byte>, pos: nat)
    requires pos <= |raw| && ParseFields(raw, pos).Done?
    ensures var Done(fields, next) := ParseFields(raw, pos);
      && WellFormedFields(fields)
      && next == pos + |FieldsLayout(fields)| && DenotesAt(raw, pos, FieldsLayout(fields))
    decreases |raw| - pos, 0, 1
  {
    hide ParseField, FieldLayout, WellFormedField;
    if raw[pos] != STOP {
      var Done(field, next) := ParseField(raw, pos);
      FieldIsDenoted(raw, pos);
      FieldsAreDenoted(raw, next);
      var rest := ParseFields(raw, next).value;
      DenotesAtSplit(raw, pos, FieldLayout(field), FieldsLayout(rest));
      assert ([field] + rest)[1..] == rest;
    }
  }

  // ----- Main results -----

  /** The decoder accepts `raw` with result `fields` exactly when `raw` is an image of those fields. */
  lemma DecodeExactly(raw: seq<Byte>, fields: seq<Field>)
    ensures Decode(raw) == Ok(fields) <==> WellFormedFields(fields) && Denotes(raw, FieldsLayout(fields))
  {
    if Decode(raw) == Ok(fields) {
      FieldsAreDenoted(raw, 0);
    }
    if WellFormedFields(fields) && Denotes(raw, FieldsLayout(fields)) {
      ReadsFields(raw, 0, fields);
    }
  }

  /** Reading an encoding followed by anything yields the fields and stops at the encoding's end. */
  lemma RoundTripWithSuffix(fields: seq<Field>, suffix: seq<Byte>)
    requires WellFormedFields(fields)
    ensures ParseFields(Encoding(fields) + suffix, 0) == Done(fields, |Encoding(fields)|)
    ensures Decode(Encoding(fields) + suffix)
         == if suffix == [] then Ok(fields) else Err(TrailingBytes(|suffix|))
  {
    var raw := Encoding(fields) + suffix;
    var cells := FieldsLayout(fields);
    forall i | 0 <= i < |cells| ensures Matches(cells[i], raw[i]) {
      assert raw[i] == Encoding(fields)[i] == CanonicalByte(cells[i]);
    }
    ReadsFields(raw, 0, fields);
  }

  /** Encodings are prefix free, hence injective. */
  lemma EncodingsPrefixFree(a: seq<Field>, b: seq<Field>, suffix: seq<Byte>)
    requires WellFormedFields(a) && WellFormedFields(b)
    requires Encoding(b) == Encoding(a) + suffix
    ensures a == b && suffix == []
  {
    RoundTripWithSuffix(a, suffix);
    RoundTripWithSuffix(b, []);
    assert Encoding(b) + [] == Encoding(b);
  }

  /**
   Re-encoding accepted bytes keeps their length and every byte, except that a bool byte other
   than 0 becomes 1; decoding the result gives the same fields again.
   */
  lemma AcceptedBytesReencode(raw: seq<Byte>)
    requires Decode(raw).Ok?
    ensures var fields := Decode(raw).value; var cells := FieldsLayout(fields);
      && |Encoding(fields)| == |raw| == |cells|
      && (forall i | 0 <= i < |raw| ::
            Encoding(fields)[i] == if cells[i].Flag? && raw[i] != 0 then 1 else raw[i])
      && Decode(Encoding(fields)) == Ok(fields)
  {
    var fields := Decode(raw).value;
    var cells := FieldsLayout(fields);
    DecodeExactly(raw, fields);
    RoundTripWithSuffix(fields, []);
    assert Encoding(fields) + [] == Encoding(fields);
    forall i | 0 <= i < |raw|
      ensures Encoding(fields)[i] == if cells[i].Flag? && raw[i] != 0 then 1 else raw[i]
    {
      assert Matches(cells[i], raw[i]);
    }
  }

  /** Two byte strings with the same decoding agree everywhere but in the value of true bools. */
  lemma SameDecodingSameBytes(a: seq<Byte>, b: seq<Byte>)
    requires Decode(a).Ok? && Decode(a) == Decode(b)
    ensures |a| == |b| && forall i | 0 <= i < |a| :: a[i] == b[i] || (a[i] != 0 && b[i] != 0)
  {
    AcceptedBytesReencode(a);
    AcceptedBytesReencode(b);
    var e := Encoding(Decode(a).value);
    forall i | 0 <= i < |a| ensures a[i] == b[i] || (a[i] != 0 && b[i] != 0) {
      assert e[i] in e;
    }
  }
}
