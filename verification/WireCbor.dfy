// Deterministic CBOR heads and byte strings, and the relay envelope made of them
// (sync/wire_cbor, sync/dialogue_channel; section 4.2.1 of RFC 8949).
module WireCbor {
  import opened Options

  type Byte = b: nat | b < 256

  type Bytes = seq<Byte>

  const LIMIT: nat := 0x1_0000_0000_0000_0000

  // ---------- Big-endian numbers ----------

  function Pow256(n: nat): (p: nat)
    ensures p > 0
  {
    if n == 0 then 1 else 256 * Pow256(n - 1)
  }

  function BigEndian(v: nat, n: nat): (s: Bytes)
    ensures |s| == n
  {
    if n == 0 then [] else BigEndian(v / 256, n - 1) + [v % 256]
  }

  function FromBigEndian(s: Bytes): nat {
    if s == [] then 0 else FromBigEndian(s[..|s| - 1]) * 256 + s[|s| - 1]
  }

  lemma {:induction false} NumberReadsBack(v: nat, n: nat)
    requires v < Pow256(n)
    ensures FromBigEndian(BigEndian(v, n)) == v
  {
    if n > 0 {
      NumberReadsBack(v / 256, n - 1);
      assert BigEndian(v, n)[..n - 1] == BigEndian(v / 256, n - 1);
    }
  }

  lemma {:induction false} BytesReadBack(s: Bytes)
    ensures FromBigEndian(s) < Pow256(|s|) && BigEndian(FromBigEndian(s), |s|) == s
  {
    if s != [] {
      var less := s[..|s| - 1];
      BytesReadBack(less);
      assert FromBigEndian(s) / 256 == FromBigEndian(less) && FromBigEndian(s) % 256 == s[|s| - 1];
      assert s == less + [s[|s| - 1]];
    }
  }

  lemma OneByteMore(s: Bytes, b: Byte)
    ensures FromBigEndian(s + [b]) == FromBigEndian(s) * 256 + b && FromBigEndian([]) == 0
  {
    assert (s + [b])[..|s|] == s;
  }

  // The byte i places from the right.
  function ByteAt(v: nat, i: nat): Byte { (v / Pow256(i)) % 256 }

  lemma {:induction false} ByteOf(v: nat, n: nat, k: nat)
    requires k < n
    ensures BigEndian(v, n)[k] == ByteAt(v, n - 1 - k)
  {
    if k < n - 1 {
      ByteOf(v / 256, n - 1, k);
      DivTwice(v, n - 1 - k);
    } else {
      assert Pow256(0) == 1;
    }
  }

  lemma {:induction false} DivTwice(v: nat, i: nat)
    requires i > 0
    ensures v / Pow256(i) == (v / 256) / Pow256(i - 1)
  {
    var p := Pow256(i - 1);
    var q, r := (v / 256) / p, (v / 256) % p;
    assert v == (256 * p) * q + (256 * r + v % 256);
    DivIs(v, 256 * p, q, 256 * r + v % 256);
  }

  lemma Multiple(d: nat, e: int)
    ensures e >= 1 ==> d * e >= d
    ensures e <= -1 ==> d * e + d <= 0
  {
  }

  lemma DivIs(v: nat, d: nat, q: nat, r: nat)
    requires d > 0 && v == d * q + r && r < d
    ensures v / d == q
  {
    var e := q - v / d;
    assert d * e == v % d - r;
    Multiple(d, e);
  }

  // ---------- Heads ----------

  // How many bytes follow the first, and how it says so.
  function Extra(v: nat): nat {
    if v < 24 then 0 else if v <= 0xFF then 1 else if v <= 0xFFFF then 2 else if v <= 0xFFFF_FFFF then 4 else 8
  }

  function Info(v: nat): nat {
    if v < 24 then v else if v <= 0xFF then 24 else if v <= 0xFFFF then 25 else if v <= 0xFFFF_FFFF then 26 else 27
  }

  function Head(major: nat, v: nat): Bytes
    requires major < 8
  {
    [major * 32 + Info(v)] + BigEndian(v, Extra(v))
  }

  function ExtraOf(info: nat): nat {
    if info < 24 then 0 else if info == 24 then 1 else if info == 25 then 2 else if info == 26 then 4 else 8
  }

  // The least number a head of this form may carry.
  function Least(info: nat): nat {
    if info == 24 then 24 else if info == 25 then 0x100 else if info == 26 then 0x1_0000 else 0x1_0000_0000
  }

  // A value read off the front of some bytes, and the bytes left.
  datatype Parsed<T> = Parsed(value: T, rest: Bytes)

  function ParseHead(s: Bytes, major: nat): Option<Parsed<nat>> {
    if s == [] || s[0] / 32 != major then None else
    var info := s[0] % 32;
    if info < 24 then Some(Parsed(info, s[1..]))
    else if info > 27 || |s| < 1 + ExtraOf(info) then None
    else
      var v := FromBigEndian(s[1..1 + ExtraOf(info)]);
      if v < Least(info) then None else Some(Parsed(v, s[1 + ExtraOf(info)..]))
  }

  lemma Powers()
    ensures Pow256(1) == 0x100 && Pow256(2) == 0x1_0000 && Pow256(4) == 0x1_0000_0000 && Pow256(8) == LIMIT
  {
    assert Pow256(3) == 256 * Pow256(2);
    assert Pow256(5) == 256 * Pow256(4) && Pow256(6) == 256 * Pow256(5) && Pow256(7) == 256 * Pow256(6);
  }

  lemma FirstByte(major: nat, info: nat)
    requires info < 32
    ensures (major * 32 + info) / 32 == major && (major * 32 + info) % 32 == info
  {
  }

  lemma FormFits(v: nat)
    requires v < LIMIT
    ensures Info(v) < 28 && ExtraOf(Info(v)) == Extra(v)
    ensures if v < 24 then Info(v) == v else Info(v) >= 24 && Least(Info(v)) <= v < Pow256(Extra(v))
  {
    Powers();
    hide Pow256;
  }

  // A head written is read back, whatever follows.
  lemma HeadReadsBack(major: nat, v: nat, rest: Bytes)
    requires major < 8 && v < LIMIT
    ensures ParseHead(Head(major, v) + rest, major) == Some(Parsed(v, rest))
  {
    hide Pow256, BigEndian, FromBigEndian, Info, Extra, ExtraOf, Least;
    var s, n, info := Head(major, v) + rest, Extra(v), Info(v);
    FormFits(v);
    FirstByte(major, info);
    assert s == [major * 32 + info] + BigEndian(v, n) + rest;
    if v < 24 {
      assert n == 0 by { NoExtra(v); }
      NothingFollows(v);
      assert s[1..] == rest;
    } else {
      assert s[1..1 + n] == BigEndian(v, n) && s[1 + n..] == rest;
      NumberReadsBack(v, n);
    }
  }

  lemma NoExtra(v: nat)
    ensures v < 24 ==> Extra(v) == 0
  {
  }

  // A head read is the one that would be written: there is no second form.
  lemma HeadHasOneForm(s: Bytes, major: nat)
    requires major < 8 && ParseHead(s, major).Some?
    ensures var p := ParseHead(s, major).value; p.value < LIMIT && s == Head(major, p.value) + p.rest
  {
    hide Pow256, BigEndian, FromBigEndian;
    var info, p := s[0] % 32, ParseHead(s, major).value;
    assert s[0] == major * 32 + info;
    var n := ExtraOf(info);
    var bytes := s[1..1 + n];
    if info >= 24 {
      Powers();
      BytesReadBack(bytes);
    } else {
      NothingFollows(info);
    }
    assert Extra(p.value) == n && Info(p.value) == info;
    assert BigEndian(p.value, n) == bytes;
    assert s == [s[0]] + bytes + s[1 + n..];
  }

  lemma NothingFollows(v: nat)
    ensures BigEndian(v, 0) == []
  {
  }

  // ---------- Byte strings ----------

  function Bstr(bytes: Bytes): Bytes { Head(2, |bytes|) + bytes }

  function ParseBstr(s: Bytes): Option<Parsed<Bytes>> {
    match ParseHead(s, 2)
    case None => None
    case Some(p) => if p.value > |p.rest| then None else Some(Parsed(p.rest[..p.value], p.rest[p.value..]))
  }

  lemma BstrReadsBack(bytes: Bytes, rest: Bytes)
    requires |bytes| < LIMIT
    ensures ParseBstr(Bstr(bytes) + rest) == Some(Parsed(bytes, rest))
  {
    hide Head, ParseHead;
    assert Bstr(bytes) + rest == Head(2, |bytes|) + (bytes + rest);
    HeadReadsBack(2, |bytes|, bytes + rest);
  }

  lemma BstrHasOneForm(s: Bytes)
    requires ParseBstr(s).Some?
    ensures var p := ParseBstr(s).value; |p.value| < LIMIT && s == Bstr(p.value) + p.rest
  {
    hide Head, ParseHead;
    HeadHasOneForm(s, 2);
    var p := ParseHead(s, 2).value;
    assert p.rest == p.rest[..p.value] + p.rest[p.value..];
  }

  // ---------- Writer and reader ----------

  class Writer {
    var out: Bytes

    constructor ()
      ensures out == []
    {
      out := [];
    }

    // The bytes of a number, the highest first.
    method PutNumber(v: nat, n: nat)
      modifies this
      ensures out == old(out) + BigEndian(v, n)
    {
      hide BigEndian, ByteAt;
      ghost var bytes := BigEndian(v, n);
      for i := 0 to n
        invariant out == old(out) + bytes[..i]
      {
        ByteOf(v, n, i);
        assert bytes[..i + 1] == bytes[..i] + [bytes[i]];
        out := out + [ByteAt(v, n - 1 - i)];
      }
      assert bytes[..n] == bytes;
    }

    method PutHead(major: nat, v: nat)
      requires major < 8 && v < LIMIT
      modifies this
      ensures out == old(out) + Head(major, v)
    {
      hide BigEndian;
      if v < 24 {
        NothingFollows(v);
        out := out + [major * 32 + v];
        return;
      }
      var extra := if v <= 0xFF then 1 else if v <= 0xFFFF then 2 else if v <= 0xFFFF_FFFF then 4 else 8;
      out := out + [major * 32 + (if extra == 1 then 24 else if extra == 2 then 25 else if extra == 4 then 26 else 27)];
      PutNumber(v, extra);
    }

    method PutBstr(bytes: Bytes)
      requires |bytes| < LIMIT
      modifies this
      ensures out == old(out) + Bstr(bytes)
    {
      PutHead(2, |bytes|);
      out := out + bytes;
    }
  }

  class Reader {
    const data: Bytes
    var pos: nat

    ghost predicate Valid() reads this { pos <= |data| }

    ghost function Rest(): Bytes
      requires Valid()
      reads this
    {
      data[pos..]
    }

    constructor (data: Bytes)
      ensures Valid() && this.data == data && pos == 0
    {
      this.data, pos := data, 0;
    }

    method ReadByte() returns (b: Option<Byte>)
      requires Valid()
      modifies this
      ensures Valid()
      ensures if old(Rest()) == [] then b == None && pos == old(pos)
              else b == Some(old(Rest())[0]) && pos == old(pos) + 1
    {
      if pos >= |data| { return None; }
      b := Some(data[pos]);
      pos := pos + 1;
    }

    method ReadHead(major: nat) returns (v: Option<nat>)
      requires Valid()
      modifies this
      ensures Valid()
      ensures match ParseHead(old(Rest()), major)
              case None => v == None
              case Some(p) => v == Some(p.value) && Rest() == p.rest
    {
      hide FromBigEndian;
      ghost var s := Rest();
      OneByteMore([], 0);
      var b := ReadByte();
      if b.None? || b.value / 32 != major { return None; }
      var info := b.value % 32;
      if info < 24 { return Some(info); }
      if info > 27 { return None; }
      var extra := ExtraOf(info);
      var n := 0;
      ghost var from := pos;
      assert s[1..1 + 0] == [];
      for i := 0 to extra
        invariant Valid() && pos == from + i && n == FromBigEndian(s[1..1 + i]) && 1 + i <= |s|
      {
        var next := ReadByte();
        if next.None? { return None; }
        assert s[1..1 + i + 1] == s[1..1 + i] + [next.value];
        OneByteMore(s[1..1 + i], next.value);
        n := n * 256 + next.value;
      }
      if n < Least(info) { return None; }
      v := Some(n);
    }

    method ReadBstr() returns (bytes: Option<Bytes>)
      requires Valid()
      modifies this
      ensures Valid()
      ensures match ParseBstr(old(Rest()))
              case None => bytes == None
              case Some(p) => bytes == Some(p.value) && Rest() == p.rest
    {
      hide ParseHead;
      var n := ReadHead(2);
      if n.None? || n.value > |data| - pos { return None; }
      ghost var rest := Rest();
      bytes := Some(data[pos..pos + n.value]);
      assert bytes.value == rest[..n.value];
      pos := pos + n.value;
      assert Rest() == rest[n.value..];
    }
  }
}
