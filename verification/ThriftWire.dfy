/**
 The Thrift binary format of crates/protocol/src/wire.rs, stated once for both directions:
 `Layout` lists the cells a value occupies on the wire, and `Parse` reads them back from a
 position of a byte string. Doubles are carried as their 64-bit patterns.
 */
module ThriftWire {
  import opened Wrappers

  type Byte = x: int | 0 <= x < 0x100
  type Int8 = x: int | -0x80 <= x < 0x80
  type Int16 = x: int | -0x8000 <= x < 0x8000
  type Int32 = x: int | -0x8000_0000 <= x < 0x8000_0000
  type Int64 = x: int | -0x8000_0000_0000_0000 <= x < 0x8000_0000_0000_0000
  type Bits64 = x: int | 0 <= x < 0x1_0000_0000_0000_0000

  const STOP: Byte := 0
  const BOOL: Byte := 2
  const BYTE: Byte := 3
  const DOUBLE: Byte := 4
  const I16: Byte := 6
  const I32: Byte := 8
  const I64: Byte := 10
  const STRING: Byte := 11
  const STRUCT: Byte := 12
  const MAP: Byte := 13
  const SET: Byte := 14
  const LIST: Byte := 15

  const MAX_SIZE := 1_000_000

  datatype Field = Field(id: Int16, value: Value)

  datatype Entry = Entry(key: Value, value: Value)

  datatype Value =
    | VBool(flag: bool)
    | VByte(i8: Int8)
    | VDouble(bits: Bits64)
    | VI16(i16: Int16)
    | VI32(i32: Int32)
    | VI64(i64: Int64)
    | VString(text: seq<Byte>)
    | VStruct(fields: seq<Field>)
    | VMap(keyType: Byte, valueType: Byte, entries: seq<Entry>)
    | VSet(elementType: Byte, values: seq<Value>)
    | VList(elementType: Byte, values: seq<Value>)

  datatype ThriftError =
    | UnexpectedEof
    | UnsupportedType(kind: Byte)
    | InvalidSize(size: int)
    | TrailingBytes(count: nat)

  function ValueKind(v: Value): Byte {
    match v
    case VBool(_) => BOOL
    case VByte(_) => BYTE
    case VDouble(_) => DOUBLE
    case VI16(_) => I16
    case VI32(_) => I32
    case VI64(_) => I64
    case VString(_) => STRING
    case VStruct(_) => STRUCT
    case VMap(_, _, _) => MAP
    case VSet(_, _) => SET
    case VList(_, _) => LIST
  }

  /** A value the decoder can produce: declared element kinds are the real ones, sizes are in limits. */
  predicate WellFormed(v: Value)
    decreases v
  {
    match v
    case VString(text) => |text| <= MAX_SIZE
    case VStruct(fields) => WellFormedFields(fields)
    case VMap(kt, vt, entries) =>
      && |entries| <= MAX_SIZE
      && forall e | e in entries ::
           && ValueKind(e.key) == kt && WellFormed(e.key)
           && ValueKind(e.value) == vt && WellFormed(e.value)
    case VSet(et, values) => WellFormedElements(et, values)
    case VList(et, values) => WellFormedElements(et, values)
    case _ => true
  }

  predicate WellFormedField(field: Field)
    decreases field
  {
    WellFormed(field.value)
  }

  predicate WellFormedFields(fields: seq<Field>)
    decreases fields
  {
    forall field | field in fields :: WellFormedField(field)
  }

  predicate WellFormedElements(et: Byte, values: seq<Value>)
    decreases values
  {
    && |values| <= MAX_SIZE
    && forall v | v in values :: ValueKind(v) == et && WellFormed(v)
  }

  // ----- Big-endian integers -----

  function Pow256(width: nat): (p: nat)
    ensures p > 0
  {
    if width == 0 then 1 else 0x100 * Pow256(width - 1)
  }

  function BigEndian(width: nat, x: nat): (bs: seq<Byte>)
    ensures |bs| == width
  {
    if width == 0 then [] else BigEndian(width - 1, x / 0x100) + [x % 0x100]
  }

  function FromBigEndian(bs: seq<Byte>): (x: nat)
    ensures x < Pow256(|bs|)
  {
    if bs == [] then 0 else FromBigEndian(bs[..|bs| - 1]) * 0x100 + bs[|bs| - 1]
  }

  lemma {:induction false} FromBigEndianInverts(width: nat, x: nat)
    requires x < Pow256(width)
    ensures FromBigEndian(BigEndian(width, x)) == x
  {
    if width > 0 {
      FromBigEndianInverts(width - 1, x / 0x100);
      var bs := BigEndian(width, x);
      assert bs[..|bs| - 1] == BigEndian(width - 1, x / 0x100);
    }
  }

  lemma {:induction false} BigEndianInverts(bs: seq<Byte>)
    ensures BigEndian(|bs|, FromBigEndian(bs)) == bs
  {
    if bs != [] {
      var init := bs[..|bs| - 1];
      BigEndianInverts(init);
      assert bs == init + [bs[|bs| - 1]];
    }
  }

  /** Two's complement: the unsigned image of a signed value of `width` bytes, and back. */
  function Unsigned(width: nat, x: int): int {
    if x < 0 then x + Pow256(width) else x
  }

  function Signed(width: nat, u: int): int {
    if 2 * u >= Pow256(width) then u - Pow256(width) else u
  }

  /** The `as i32` cast the writer applies to a length. */
  function AsI32(n: nat): (x: Int32) {
    var low := n % 0x1_0000_0000;
    if low >= 0x8000_0000 then low - 0x1_0000_0000 else low
  }

  lemma Widths()
    ensures Pow256(1) == 0x100
    ensures Pow256(2) == 0x1_0000
    ensures Pow256(4) == 0x1_0000_0000
    ensures Pow256(8) == 0x1_0000_0000_0000_0000
  {
    assert Pow256(3) == 0x100_0000;
    assert Pow256(5) == 0x100_0000_0000;
    assert Pow256(6) == 0x1_0000_0000_0000;
    assert Pow256(7) == 0x100_0000_0000_0000;
  }

  // ----- What a value occupies on the wire -----

  /** One byte of the wire image: a fixed byte, or a bool, which a reader takes from any non-zero byte. */
  datatype Cell = Exact(b: Byte) | Flag(on: bool)

  predicate Matches(cell: Cell, b: Byte) {
    match cell
    case Exact(c) => b == c
    case Flag(on) => (b != 0) == on
  }

  function CanonicalByte(cell: Cell): Byte {
    match cell
    case Exact(c) => c
    case Flag(on) => if on then 1 else 0
  }

  function Exacts(bs: seq<Byte>): (cells: seq<Cell>)
    ensures |cells| == |bs|
  {
    seq(|bs|, i requires 0 <= i < |bs| => Exact(bs[i]))
  }

  function Integer(width: nat, x: int): (cells: seq<Cell>)
    requires 0 <= Unsigned(width, x)
    ensures |cells| == width
  {
    Exacts(BigEndian(width, Unsigned(width, x)))
  }

  function Size(n: nat): (cells: seq<Cell>)
    ensures |cells| == 4
  {
    Widths();
    Integer(4, AsI32(n))
  }

  function Layout(v: Value): (cells: seq<Cell>)
    ensures |cells| >= 1
  {
    Widths();
    match v
    case VBool(flag) => [Flag(flag)]
    case VByte(x) => Integer(1, x)
    case VDouble(bits) => Integer(8, bits)
    case VI16(x) => Integer(2, x)
    case VI32(x) => Integer(4, x)
    case VI64(x) => Integer(8, x)
    case VString(text) => Size(|text|) + Exacts(text)
    case VStruct(fields) => FieldsLayout(fields)
    case VMap(kt, vt, entries) => [Exact(kt), Exact(vt)] + Size(|entries|) + EntriesLayout(entries)
    case VSet(et, values) => [Exact(et)] + Size(|values|) + ValuesLayout(values)
    case VList(et, values) => [Exact(et)] + Size(|values|) + ValuesLayout(values)
  }

  function FieldLayout(field: Field): (cells: seq<Cell>) {
    Widths();
    [Exact(ValueKind(field.value))] + Integer(2, field.id) + Layout(field.value)
  }

  function FieldsLayout(fields: seq<Field>): (cells: seq<Cell>)
    ensures |cells| >= 1
  {
    if fields == [] then [Exact(STOP)] else FieldLayout(fields[0]) + FieldsLayout(fields[1..])
  }

  function EntryLayout(entry: Entry): seq<Cell>
    decreases entry
  {
    Layout(entry.key) + Layout(entry.value)
  }

  function EntriesLayout(entries: seq<Entry>): seq<Cell>
    decreases entries
  {
    if entries == [] then []
    else EntryLayout(entries[0]) + EntriesLayout(entries[1..])
  }

  function ValuesLayout(values: seq<Value>): seq<Cell> {
    if values == [] then [] else Layout(values[0]) + ValuesLayout(values[1..])
  }

  /** The bytes the writer emits for a list of cells: bools become 0 or 1. */
  function Canonical(cells: seq<Cell>): (bs: seq<Byte>)
    ensures |bs| == |cells|
  {
    seq(|cells|, i requires 0 <= i < |cells| => CanonicalByte(cells[i]))
  }

  /** `write_struct`, as a function of the fields. */
  function Encoding(fields: seq<Field>): (bs: seq<Byte>)
    ensures |bs| == |FieldsLayout(fields)|
  {
    Canonical(FieldsLayout(fields))
  }

  /** `raw` is a wire image of `cells`. */
  predicate Denotes(raw: seq<Byte>, cells: seq<Cell>) {
    |raw| == |cells| && forall i | 0 <= i < |cells| :: Matches(cells[i], raw[i])
  }

  // ----- Reading -----

  datatype Read<+T> = Done(value: T, next: nat) | Failed(error: ThriftError)

  function ParseUnsigned(raw: seq<Byte>, pos: nat, width: nat): (r: Read<nat>)
    requires pos <= |raw|
    ensures r.Done? ==> r.next == pos + width <= |raw| && r.value < Pow256(width)
  {
    if pos + width <= |raw| then Done(FromBigEndian(raw[pos..pos + width]), pos + width)
    else Failed(UnexpectedEof)
  }

  function ParseSize(raw: seq<Byte>, pos: nat): (r: Read<nat>)
    requires pos <= |raw|
    ensures r.Done? ==> r.next == pos + 4 <= |raw| && r.value <= MAX_SIZE
  {
    match ParseUnsigned(raw, pos, 4)
    case Failed(e) => Failed(e)
    case Done(u, next) =>
      var n := Signed(4, u);
      if 0 <= n <= MAX_SIZE then Done(n, next) else Failed(InvalidSize(n))
  }

  function ParseValue(raw: seq<Byte>, pos: nat, kind: Byte): (r: Read<Value>)
    requires pos <= |raw|
    ensures r.Done? ==> pos < r.next <= |raw|
    decreases |raw| - pos, 1, 0
  {
    Widths();
    if kind == BOOL then
      match ParseUnsigned(raw, pos, 1)
      case Failed(e) => Failed(e)
      case Done(u, next) => Done(VBool(u != 0), next)
    else if kind == BYTE then
      match ParseUnsigned(raw, pos, 1)
      case Failed(e) => Failed(e)
      case Done(u, next) => Done(VByte(Signed(1, u)), next)
    else if kind == DOUBLE then
      match ParseUnsigned(raw, pos, 8)
      case Failed(e) => Failed(e)
      case Done(u, next) => Done(VDouble(u), next)
    else if kind == I16 then
      match ParseUnsigned(raw, pos, 2)
      case Failed(e) => Failed(e)
      case Done(u, next) => Done(VI16(Signed(2, u)), next)
    else if kind == I32 then
      match ParseUnsigned(raw, pos, 4)
      case Failed(e) => Failed(e)
      case Done(u, next) => Done(VI32(Signed(4, u)), next)
    else if kind == I64 then
      match ParseUnsigned(raw, pos, 8)
      case Failed(e) => Failed(e)
      case Done(u, next) => Done(VI64(Signed(8, u)), next)
    else if kind == STRING then
      match ParseSize(raw, pos)
      case Failed(e) => Failed(e)
      case Done(n, next) =>
        if next + n <= |raw| then Done(VString(raw[next..next + n]), next + n) else Failed(UnexpectedEof)
    else if kind == STRUCT then
      match ParseFields(raw, pos)
      case Failed(e) => Failed(e)
      case Done(fields, next) => Done(VStruct(fields), next)
    else if kind == MAP then ParseMap(raw, pos)
    else if kind == SET || kind == LIST then ParseCollection(raw, pos, kind)
    else Failed(UnsupportedType(kind))
  }

  function ParseMap(raw: seq<Byte>, pos: nat): (r: Read<Value>)
    requires pos <= |raw|
    ensures r.Done? ==> pos < r.next <= |raw|
    decreases |raw| - pos, 0, 0
  {
    if pos + 2 > |raw| then Failed(UnexpectedEof) else
    match ParseSize(raw, pos + 2)
    case Failed(e) => Failed(e)
    case Done(n, next) =>
      match ParseEntries(raw, next, raw[pos], raw[pos + 1], n)
      case Failed(e) => Failed(e)
      case Done(entries, end) => Done(VMap(raw[pos], raw[pos + 1], entries), end)
  }

  function ParseCollection(raw: seq<Byte>, pos: nat, kind: Byte): (r: Read<Value>)
    requires pos <= |raw|
    ensures r.Done? ==> pos < r.next <= |raw|
    decreases |raw| - pos, 0, 0
  {
    if pos + 1 > |raw| then Failed(UnexpectedEof) else
    match ParseSize(raw, pos + 1)
    case Failed(e) => Failed(e)
    case Done(n, next) =>
      match ParseValues(raw, next, raw[pos], n)
      case Failed(e) => Failed(e)
      case Done(values, end) =>
        Done(if kind == SET then VSet(raw[pos], values) else VList(raw[pos], values), end)
  }

  function ParseField(raw: seq<Byte>, pos: nat): (r: Read<Field>)
    requires pos < |raw|
    ensures r.Done? ==> pos < r.next <= |raw|
    decreases |raw| - pos, 0, 0
  {
    Widths();
    match ParseUnsigned(raw, pos + 1, 2)
    case Failed(e) => Failed(e)
    case Done(u, next) =>
      match ParseValue(raw, next, raw[pos])
      case Failed(e) => Failed(e)
      case Done(v, next') => Done(Field(Signed(2, u), v), next')
  }

  function ParseFields(raw: seq<Byte>, pos: nat): (r: Read<seq<Field>>)
    requires pos <= |raw|
    ensures r.Done? ==> pos < r.next <= |raw|
    decreases |raw| - pos, 0, 1
  {
    if pos == |raw| then Failed(UnexpectedEof)
    else if raw[pos] == STOP then Done([], pos + 1)
    else
      match ParseField(raw, pos)
      case Failed(e) => Failed(e)
      case Done(field, next) =>
        match ParseFields(raw, next)
        case Failed(e) => Failed(e)
        case Done(rest, end) => Done([field] + rest, end)
  }

  function ParseValues(raw: seq<Byte>, pos: nat, kind: Byte, count: nat): (r: Read<seq<Value>>)
    requires pos <= |raw|
    ensures r.Done? ==> pos <= r.next <= |raw| && |r.value| == count
    decreases |raw| - pos, 2, count
  {
    if count == 0 then Done([], pos) else
    match ParseValue(raw, pos, kind)
    case Failed(e) => Failed(e)
    case Done(v, next) =>
      match ParseValues(raw, next, kind, count - 1)
      case Failed(e) => Failed(e)
      case Done(rest, end) => Done([v] + rest, end)
  }

  function ParseEntry(raw: seq<Byte>, pos: nat, keyType: Byte, valueType: Byte): (r: Read<Entry>)
    requires pos <= |raw|
    ensures r.Done? ==> pos < r.next <= |raw|
    decreases |raw| - pos, 2, 0
  {
    match ParseValue(raw, pos, keyType)
    case Failed(e) => Failed(e)
    case Done(k, next) =>
      match ParseValue(raw, next, valueType)
      case Failed(e) => Failed(e)
      case Done(v, next') => Done(Entry(k, v), next')
  }

  function ParseEntries(raw: seq<Byte>, pos: nat, keyType: Byte, valueType: Byte, count: nat)
    : (r: Read<seq<Entry>>)
    requires pos <= |raw|
    ensures r.Done? ==> pos <= r.next <= |raw| && |r.value| == count
    decreases |raw| - pos, 3, count
  {
    if count == 0 then Done([], pos) else
    match ParseEntry(raw, pos, keyType, valueType)
    case Failed(e) => Failed(e)
    case Done(entry, next) =>
      match ParseEntries(raw, next, keyType, valueType, count - 1)
      case Failed(e) => Failed(e)
      case Done(rest, end) => Done([entry] + rest, end)
  }

  /** `read_struct`: a whole byte string, with nothing left over. */
  function Decode(raw: seq<Byte>): Result<seq<Field>, ThriftError> {
    match ParseFields(raw, 0)
    case Failed(e) => Err(e)
    case Done(fields, next) => if next == |raw| then Ok(fields) else Err(TrailingBytes(|raw| - next))
  }
}
