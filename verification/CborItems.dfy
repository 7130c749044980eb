// The items a record is written in, and their bytes (records/codec). The reader of records
// takes any form of a head, so only what was written is promised to read back.
module CborItems {
  import opened Options
  import opened WireCbor

  datatype Item =
    | UInt(value: nat)
    | Negative(below: nat)      // -1 - below
    | Str(bytes: Bytes)
    | Text(chars: Bytes)
    | Arr(count: nat)
    | Map(pairs: nat)
    | Float(bits: nat)          // the 64 bits of a double
    | Null

  predicate Holds(i: Item) {
    match i
    case UInt(v) => v < LIMIT
    case Negative(v) => v < LIMIT
    case Str(b) => |b| < LIMIT
    case Text(b) => |b| < LIMIT
    case Arr(n) => n < LIMIT
    case Map(n) => n < LIMIT
    case Float(bits) => bits < LIMIT
    case Null => true
  }

  const FLOAT_HEAD: Byte := 0xFB
  const NULL_HEAD: Byte := 0xF6

  function Written(i: Item): Bytes {
    match i
    case UInt(v) => Head(0, v)
    case Negative(v) => Head(1, v)
    case Str(b) => Head(2, |b|) + b
    case Text(b) => Head(3, |b|) + b
    case Arr(n) => Head(4, n)
    case Map(n) => Head(5, n)
    case Float(bits) => [FLOAT_HEAD] + BigEndian(bits, 8)
    case Null => [NULL_HEAD]
  }

  // The first bytes of small items, and of identifiers.
  lemma ItemHeads(v: nat, bits: nat, id: Bytes, short: Bytes)
    requires v < 24 && bits < LIMIT && |id| == 32 && |short| == v
    ensures Written(UInt(v)) == [v] && Written(Negative(v)) == [0x20 + v]
    ensures Written(Str(id)) == [0x58, 0x20] + id && Written(Text(short)) == [0x60 + v] + short
    ensures Written(Arr(v)) == [0x80 + v] && Written(Map(v)) == [0xA0 + v]
    ensures Written(Null) == [0xF6] && |Written(Float(bits))| == 9 && Written(Float(bits))[0] == 0xFB
  {
    forall major: nat | major < 8 ensures Head(major, v) == [32 * major + v] { ShortHead(major, v); }
    HeadOf32();
    hide Head, BigEndian;
  }

  lemma ShortHead(major: nat, v: nat)
    requires major < 8 && v < 24
    ensures Head(major, v) == [32 * major + v]
  {
  }

  lemma HeadOf32()
    ensures Head(2, 32) == [0x58, 0x20]
  {
    assert BigEndian(32, 1) == [32] by { assert BigEndian(0, 0) == []; }
  }

  // Any head, minimal or not: its major type, its number and the bytes left.
  datatype AnyHead = AnyHead(major: nat, value: nat, rest: Bytes)

  function ReadAnyHead(s: Bytes): Option<AnyHead> {
    if s == [] then None else
    var major, info := s[0] / 32, s[0] % 32;
    if info < 24 then Some(AnyHead(major, info, s[1..]))
    else if info > 27 || |s| < 1 + ExtraOf(info) then None
    else Some(AnyHead(major, FromBigEndian(s[1..1 + ExtraOf(info)]), s[1 + ExtraOf(info)..]))
  }

  lemma StrictIsAny(s: Bytes, major: nat)
    requires ParseHead(s, major).Some?
    ensures var p := ParseHead(s, major).value; ReadAnyHead(s) == Some(AnyHead(major, p.value, p.rest))
  {
  }

  // Null is the simple value 22; anything else of the last type is read for a double.
  function ReadItem(s: Bytes): Option<Parsed<Item>> {
    match ReadAnyHead(s)
    case None => None
    case Some(h) =>
      if h.major == 0 then Some(Parsed(UInt(h.value), h.rest))
      else if h.major == 1 then Some(Parsed(Negative(h.value), h.rest))
      else if h.major == 2 then
        if h.value > |h.rest| then None else Some(Parsed(Str(h.rest[..h.value]), h.rest[h.value..]))
      else if h.major == 3 then
        if h.value > |h.rest| then None else Some(Parsed(Text(h.rest[..h.value]), h.rest[h.value..]))
      else if h.major == 4 then Some(Parsed(Arr(h.value), h.rest))
      else if h.major == 5 then Some(Parsed(Map(h.value), h.rest))
      else if h.major == 7 && s[0] == NULL_HEAD then Some(Parsed(Null, h.rest))
      else if h.major == 7 then Some(Parsed(Float(h.value), h.rest))
      else None
  }

  lemma FloatReadsBack(bits: nat, rest: Bytes)
    requires bits < LIMIT
    ensures ReadAnyHead([FLOAT_HEAD] + BigEndian(bits, 8) + rest) == Some(AnyHead(7, bits, rest))
  {
    hide Pow256, BigEndian, FromBigEndian;
    var s := [FLOAT_HEAD] + BigEndian(bits, 8) + rest;
    Powers();
    NumberReadsBack(bits, 8);
    assert s[1..1 + 8] == BigEndian(bits, 8) && s[1 + 8..] == rest;
  }

  lemma HeadIsAny(major: nat, v: nat, rest: Bytes)
    requires major < 8 && v < LIMIT
    ensures ReadAnyHead(Head(major, v) + rest) == Some(AnyHead(major, v, rest))
  {
    HeadReadsBack(major, v, rest);
    hide Head, ParseHead, ReadAnyHead;
    StrictIsAny(Head(major, v) + rest, major);
  }

  lemma ItemReadsBack(i: Item, rest: Bytes)
    requires Holds(i)
    ensures Written(i) != [] && ReadItem(Written(i) + rest) == Some(Parsed(i, rest))
  {
    hide ReadAnyHead, BigEndian;
    match i {
      case UInt(v) => HeadIsAny(0, v, rest);
      case Negative(v) => HeadIsAny(1, v, rest);
      case Str(b) => HeadIsAny(2, |b|, b + rest); BytesAfter(2, b, rest);
      case Text(b) => HeadIsAny(3, |b|, b + rest); BytesAfter(3, b, rest);
      case Arr(n) => HeadIsAny(4, n, rest);
      case Map(n) => HeadIsAny(5, n, rest);
      case Float(bits) => FloatReadsBack(bits, rest);
      case Null => NullReadsBack(rest);
    }
  }

  lemma NullReadsBack(rest: Bytes)
    ensures ReadAnyHead([NULL_HEAD] + rest) == Some(AnyHead(7, 22, rest))
  {
    assert ([NULL_HEAD] + rest)[1..] == rest;
  }

  lemma BytesAfter(major: nat, b: Bytes, rest: Bytes)
    requires major < 8 && |b| < LIMIT
    ensures Head(major, |b|) + b + rest == Head(major, |b|) + (b + rest)
    ensures (b + rest)[..|b|] == b && (b + rest)[|b|..] == rest
  {
  }

  // ---------- A row of items ----------

  function WrittenAll(items: seq<Item>): Bytes {
    if items == [] then [] else Written(items[0]) + WrittenAll(items[1..])
  }

  // All items to the end of the bytes.
  function ReadAll(s: Bytes): Option<seq<Item>>
    decreases |s|
  {
    if s == [] then Some([]) else
    match ReadItem(s)
    case None => None
    case Some(p) =>
      if |p.rest| >= |s| then None else
      match ReadAll(p.rest)
      case None => None
      case Some(items) => Some([p.value] + items)
  }

  // Items written are the items read, with no byte left.
  lemma {:induction false} ItemsReadBack(items: seq<Item>)
    requires forall k | 0 <= k < |items| :: Holds(items[k])
    ensures ReadAll(WrittenAll(items)) == Some(items)
  {
    hide Written, ReadItem;
    if items != [] {
      ItemsReadBack(items[1..]);
      ItemReadsBack(items[0], WrittenAll(items[1..]));
      assert items == [items[0]] + items[1..];
    }
  }
}
