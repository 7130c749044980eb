// How a transfer is written and read (records/codec).
module TransferCodec {
  import opened Options
  import opened WireCbor
  import opened CborItems

  // ---------- The record ----------

  type Id = b: Bytes | |b| == 32 witness seq(32, _ => 0)

  const MAX_INT64: int := 0x7FFF_FFFF_FFFF_FFFF
  const MAX_NODE: nat := 0xFFFF_FFFE
  const TRANSFER: nat := 0x70

  type Int64 = t: int | -MAX_INT64 - 1 <= t <= MAX_INT64

  // The bits of a double.
  type Double = d: nat | d < LIMIT

  type U32 = n: nat | n < 0x1_0000_0000

  type U64 = n: nat | n < LIMIT

  datatype Ref = Ref(chain: Id, hash: Id)

  datatype BlockPath = BlockPath(chain: Id, node: U32, block: U32, hash: Id)

  datatype Origin = Origin(issuer: Id, units: Double, src: Option<Ref>, prev: Option<Ref>)

  datatype Axis = Axis(axis: BlockPath, units: Double)

  datatype Norm = Norm(agg: Id, date: Int64, w: Double)

  datatype Buyback = Buyback(to: Id, until: Int64, wear: bool, deposit: bool)

  datatype Acceptance =
    Acceptance(work: Ref, quality: Bytes, hours: Double, labor: Double, axes: seq<Axis>, carried: Option<Double>,
               norm: Option<Norm>, like: Option<Ref>, release: Option<Ref>, buyback: Option<Buyback>)

  datatype Emission = Emission(number: U64, prev: Option<Ref>, debtAfter: Double)

  datatype Transfer =
    Transfer(from: Id, to: Id, node: U32, origins: seq<Origin>, accept: Option<Acceptance>, settles: Option<Ref>,
             timestamp: Int64, emission: Option<Emission>, until: Option<Int64>)

  // What the sizes in memory can be.
  predicate Sized(t: Transfer) {
    |t.origins| < LIMIT &&
    (t.accept.Some? ==> |t.accept.value.quality| < LIMIT && |t.accept.value.axes| < LIMIT)
  }

  // ---------- Writing ----------

  function OfInt(v: Int64): Item { if v >= 0 then UInt(v) else Negative(-1 - v) }

  function OfRef(r: Ref): seq<Item> { [Map(2), UInt(0), Str(r.chain), UInt(1), Str(r.hash)] }

  function OfPath(p: BlockPath): seq<Item> {
    [Map(4), UInt(0), Str(p.chain), UInt(1), UInt(p.node), UInt(2), UInt(p.block), UInt(3), Str(p.hash)]
  }

  function One<T>(o: Option<T>): nat { if o.Some? then 1 else 0 }

  function Flag(b: bool): nat { if b then 1 else 0 }

  // A field of an optional reference, under its key, when it is set.
  function KeyedRef(key: nat, r: Option<Ref>): seq<Item> {
    if r.Some? then [UInt(key)] + OfRef(r.value) else []
  }

  function OfOrigin(o: Origin): seq<Item> {
    [Map(2 + One(o.src) + One(o.prev)), UInt(0), Str(o.issuer), UInt(1), Float(o.units)] +
    (KeyedRef(2, o.src) + KeyedRef(3, o.prev))
  }

  function OfOrigins(os: seq<Origin>): seq<Item> {
    if os == [] then [] else OfOrigin(os[0]) + OfOrigins(os[1..])
  }

  function OfAxis(x: Axis): seq<Item> { [Map(2), UInt(0)] + OfPath(x.axis) + [UInt(1), Float(x.units)] }

  function OfAxes(xs: seq<Axis>): seq<Item> {
    if xs == [] then [] else OfAxis(xs[0]) + OfAxes(xs[1..])
  }

  function OfNorm(n: Norm): seq<Item> { [Map(3), UInt(0), Str(n.agg), UInt(1), OfInt(n.date), UInt(2), Float(n.w)] }

  function OfBuyback(b: Buyback): seq<Item> {
    [Map(2 + Flag(b.wear) + Flag(b.deposit)), UInt(0), Str(b.to), UInt(2), OfInt(b.until)] +
    (if b.wear then [UInt(3), UInt(1)] else []) + (if b.deposit then [UInt(4), UInt(1)] else [])
  }

  function CarriedField(a: Acceptance): seq<Item> { if a.carried.Some? then [UInt(5), Float(a.carried.value)] else [] }

  function NormField(a: Acceptance): seq<Item> { if a.norm.Some? then [UInt(6)] + OfNorm(a.norm.value) else [] }

  function BuybackField(a: Acceptance): seq<Item> {
    if a.buyback.Some? then [UInt(9)] + OfBuyback(a.buyback.value) else []
  }

  // The optional fields by ascending key.
  function AcceptanceTail(a: Acceptance): seq<Item> {
    CarriedField(a) + (NormField(a) + (KeyedRef(7, a.like) + (KeyedRef(8, a.release) + BuybackField(a))))
  }

  function AcceptanceFields(a: Acceptance): nat {
    5 + One(a.carried) + One(a.norm) + One(a.like) + One(a.release) + One(a.buyback)
  }

  function AcceptanceHead(a: Acceptance): seq<Item> {
    [Map(AcceptanceFields(a)), UInt(0)] + OfRef(a.work) +
    [UInt(1), Text(a.quality), UInt(2), Float(a.hours), UInt(3), Float(a.labor), UInt(4), Arr(|a.axes|)]
  }

  function OfAcceptance(a: Acceptance): seq<Item> {
    AcceptanceHead(a) + (OfAxes(a.axes) + AcceptanceTail(a))
  }

  function OfOptionalRef(r: Option<Ref>): seq<Item> { if r.Some? then OfRef(r.value) else [Null] }

  function EmissionField(t: Transfer): seq<Item> {
    if t.emission.None? then [] else
    var e := t.emission.value;
    [UInt(7), UInt(e.number), UInt(8)] + (OfOptionalRef(e.prev) + [UInt(9), Float(e.debtAfter)])
  }

  function AcceptField(t: Transfer): seq<Item> {
    if t.accept.Some? then [UInt(11)] + OfAcceptance(t.accept.value) else []
  }

  function UntilField(t: Transfer): seq<Item> { if t.until.Some? then [UInt(12), OfInt(t.until.value)] else [] }

  function TransferTail(t: Transfer): seq<Item> {
    EmissionField(t) + (KeyedRef(10, t.settles) + (AcceptField(t) + UntilField(t)))
  }

  function TransferFields(t: Transfer): nat {
    6 + 3 * One(t.emission) + One(t.settles) + One(t.accept) + One(t.until)
  }

  function OfTransfer(t: Transfer): seq<Item> {
    [Map(TransferFields(t)), UInt(0), UInt(TRANSFER), UInt(1), Str(t.from), UInt(2), Str(t.to), UInt(3), UInt(t.node),
     UInt(4), Arr(|t.origins|)] + (OfOrigins(t.origins) + ([UInt(6), OfInt(t.timestamp)] + TransferTail(t)))
  }

  // ---------- Reading ----------

  // Something read off the front of the items, and the items left.
  datatype Got<T> = Got(value: T, rest: seq<Item>)

  predicate IsId(i: Item) { i.Str? && |i.bytes| == 32 }

  // A double is any item of the last type but null.
  predicate IsDouble(i: Item) { i.Float? && i.bits < LIMIT }

  predicate IsInt(i: Item) { (i.UInt? && i.value <= MAX_INT64) || (i.Negative? && i.below <= MAX_INT64) }

  function IntOf(i: Item): Int64
    requires IsInt(i)
  {
    if i.UInt? then i.value else -1 - i.below
  }

  function ReadRef(s: seq<Item>): Option<Got<Ref>> {
    if |s| >= 5 && s[0] == Map(2) && s[1] == UInt(0) && IsId(s[2]) && s[3] == UInt(1) && IsId(s[4])
    then Some(Got(Ref(s[2].bytes, s[4].bytes), s[5..])) else None
  }

  predicate IsU32(i: Item) { i.UInt? && i.value < 0x1_0000_0000 }

  function ReadPath(s: seq<Item>): Option<Got<BlockPath>> {
    if |s| >= 9 && s[0] == Map(4) && s[1] == UInt(0) && IsId(s[2]) && s[3] == UInt(1) && IsU32(s[4]) &&
       s[5] == UInt(2) && IsU32(s[6]) && s[7] == UInt(3) && IsId(s[8])
    then Some(Got(BlockPath(s[2].bytes, s[4].value, s[6].value, s[8].bytes), s[9..])) else None
  }

  // The bill and the previous spend of it, keys ascending.
  function ReadOriginTail(o: Origin, s: seq<Item>, left: nat, last: nat): Option<Got<Origin>>
    decreases left
  {
    if left == 0 then Some(Got(o, s))
    else if s == [] || !s[0].UInt? || s[0].value <= last || (s[0].value != 2 && s[0].value != 3) then None
    else match ReadRef(s[1..])
      case None => None
      case Some(r) =>
        ReadOriginTail(if s[0].value == 2 then o.(src := Some(r.value)) else o.(prev := Some(r.value)),
                       r.rest, left - 1, s[0].value)
  }

  function ReadOrigin(s: seq<Item>): Option<Got<Origin>> {
    if |s| >= 5 && s[0].Map? && 2 <= s[0].pairs <= 4 && s[1] == UInt(0) && IsId(s[2]) && s[3] == UInt(1) &&
      IsDouble(s[4])
    then ReadOriginTail(Origin(s[2].bytes, s[4].bits, None, None), s[5..], s[0].pairs - 2, 1) else None
  }

  function ReadOrigins(s: seq<Item>, n: nat): Option<Got<seq<Origin>>>
    decreases n
  {
    if n == 0 then Some(Got([], s)) else
    match ReadOrigin(s)
    case None => None
    case Some(o) =>
      match ReadOrigins(o.rest, n - 1)
      case None => None
      case Some(os) => Some(Got([o.value] + os.value, os.rest))
  }

  function ReadAxis(s: seq<Item>): Option<Got<Axis>> {
    if |s| < 2 || s[0] != Map(2) || s[1] != UInt(0) then None else
    match ReadPath(s[2..])
    case None => None
    case Some(p) =>
      if |p.rest| >= 2 && p.rest[0] == UInt(1) && IsDouble(p.rest[1])
      then Some(Got(Axis(p.value, p.rest[1].bits), p.rest[2..])) else None
  }

  function ReadAxes(s: seq<Item>, n: nat): Option<Got<seq<Axis>>>
    decreases n
  {
    if n == 0 then Some(Got([], s)) else
    match ReadAxis(s)
    case None => None
    case Some(x) =>
      match ReadAxes(x.rest, n - 1)
      case None => None
      case Some(xs) => Some(Got([x.value] + xs.value, xs.rest))
  }

  function ReadNorm(s: seq<Item>): Option<Got<Norm>> {
    if |s| >= 7 && s[0] == Map(3) && s[1] == UInt(0) && IsId(s[2]) && s[3] == UInt(1) && IsInt(s[4]) &&
      s[5] == UInt(2) &&
       IsDouble(s[6])
    then Some(Got(Norm(s[2].bytes, IntOf(s[4]), s[6].bits), s[7..])) else None
  }

  // Wear and deposit: flags, each written as one, ascending.
  function ReadFlags(b: Buyback, s: seq<Item>, left: nat, last: nat): Option<Got<Buyback>>
    decreases left
  {
    if left == 0 then Some(Got(b, s))
    else if |s| < 2 || !s[0].UInt? || s[0].value <= last || s[0].value > 4 || s[1] != UInt(1) then None
    else ReadFlags(if s[0].value == 3 then b.(wear := true) else b.(deposit := true), s[2..], left - 1, s[0].value)
  }

  function ReadBuyback(s: seq<Item>): Option<Got<Buyback>> {
    if |s| >= 5 && s[0].Map? && 2 <= s[0].pairs <= 4 && s[1] == UInt(0) && IsId(s[2]) && s[3] == UInt(2) && IsInt(s[4])
    then ReadFlags(Buyback(s[2].bytes, IntOf(s[4]), false, false), s[5..], s[0].pairs - 2, 2) else None
  }

  function ReadAcceptanceTail(a: Acceptance, s: seq<Item>, left: nat, last: nat): Option<Got<Acceptance>>
    decreases left
  {
    if left == 0 then Some(Got(a, s))
    else if s == [] || !s[0].UInt? || s[0].value <= last then None
    else
      var key, rest := s[0].value, s[1..];
      if key == 5 then
        if rest != [] && IsDouble(rest[0])
          then ReadAcceptanceTail(a.(carried := Some(rest[0].bits)), rest[1..], left - 1, key)
        else None
      else if key == 6 then
        match ReadNorm(rest)
        case None => None
        case Some(n) => ReadAcceptanceTail(a.(norm := Some(n.value)), n.rest, left - 1, key)
      else if key == 7 then
        match ReadRef(rest)
        case None => None
        case Some(r) => ReadAcceptanceTail(a.(like := Some(r.value)), r.rest, left - 1, key)
      else if key == 8 then
        match ReadRef(rest)
        case None => None
        case Some(r) => ReadAcceptanceTail(a.(release := Some(r.value)), r.rest, left - 1, key)
      else if key == 9 then
        match ReadBuyback(rest)
        case None => None
        case Some(b) => ReadAcceptanceTail(a.(buyback := Some(b.value)), b.rest, left - 1, key)
      else None
  }

  function ReadAcceptance(s: seq<Item>): Option<Got<Acceptance>> {
    if |s| < 2 || !s[0].Map? || s[0].pairs < 5 || s[0].pairs > 10 || s[1] != UInt(0) then None else
    match ReadRef(s[2..])
    case None => None
    case Some(w) =>
      var r := w.rest;
      if |r| >= 8 && r[0] == UInt(1) && r[1].Text? && r[2] == UInt(2) && IsDouble(r[3]) && r[4] == UInt(3) &&
        IsDouble(r[5]) &&
         r[6] == UInt(4) && r[7].Arr? then
        match ReadAxes(r[8..], r[7].count)
        case None => None
        case Some(xs) =>
          ReadAcceptanceTail(Acceptance(w.value, r[1].chars, r[3].bits, r[5].bits, xs.value, None, None, None, None,
            None),
                             xs.rest, s[0].pairs - 5, 4)
      else None
  }

  function ReadOptionalRef(s: seq<Item>): Option<Got<Option<Ref>>> {
    if s != [] && s[0] == Null then Some(Got(None, s[1..])) else
    match ReadRef(s)
    case None => None
    case Some(r) => Some(Got(Some(r.value), r.rest))
  }

  // The emission link takes three keys at once.
  function ReadEmission(s: seq<Item>): Option<Got<Emission>> {
    if |s| < 2 || !s[0].UInt? || s[0].value >= LIMIT || s[1] != UInt(8) then None else
    match ReadOptionalRef(s[2..])
    case None => None
    case Some(p) =>
      if |p.rest| >= 2 && p.rest[0] == UInt(9) && IsDouble(p.rest[1])
      then Some(Got(Emission(s[0].value, p.value, p.rest[1].bits), p.rest[2..])) else None
  }

  function ReadTransferTail(t: Transfer, s: seq<Item>, left: nat, last: nat): Option<Got<Transfer>>
    decreases left
  {
    if left == 0 then Some(Got(t, s))
    else if s == [] || !s[0].UInt? || s[0].value <= last then None
    else
      var key, rest := s[0].value, s[1..];
      if key == 7 then
        if left < 3 then None else
        match ReadEmission(rest)
        case None => None
        case Some(e) => ReadTransferTail(t.(emission := Some(e.value)), e.rest, left - 3, 9)
      else if key == 10 then
        match ReadRef(rest)
        case None => None
        case Some(r) => ReadTransferTail(t.(settles := Some(r.value)), r.rest, left - 1, key)
      else if key == 11 then
        match ReadAcceptance(rest)
        case None => None
        case Some(a) => ReadTransferTail(t.(accept := Some(a.value)), a.rest, left - 1, key)
      else if key == 12 then
        if rest != [] && IsInt(rest[0])
          then ReadTransferTail(t.(until := Some(IntOf(rest[0]))), rest[1..], left - 1, key)
        else None
      else None
  }

  function ReadTransfer(s: seq<Item>): Option<Got<Transfer>> {
    if |s| >= 11 && s[0].Map? && 6 <= s[0].pairs <= 12 && s[1] == UInt(0) && s[2] == UInt(TRANSFER) &&
      s[3] == UInt(1) &&
       IsId(s[4]) && s[5] == UInt(2) && IsId(s[6]) && s[7] == UInt(3) && s[8].UInt? && s[8].value <= MAX_NODE &&
       s[9] == UInt(4) && s[10].Arr? then
      match ReadOrigins(s[11..], s[10].count)
      case None => None
      case Some(os) =>
        if |os.rest| >= 2 && os.rest[0] == UInt(6) && IsInt(os.rest[1]) then
          ReadTransferTail(Transfer(s[4].bytes, s[6].bytes, s[8].value, os.value, None, None, IntOf(os.rest[1]), None,
            None),
                           os.rest[2..], s[0].pairs - 6, 6)
        else None
    else None
  }
}
