// The envelope the relay moves around (sync/dialogue_channel).
module RelayEnvelope {
  import opened Options
  import opened WireCbor

  const VERSION: nat := 1
  const SESSION_SIZE: nat := 16
  const USER_SIZE: nat := 32

  datatype Envelope = Envelope(session: Bytes, number: nat, from: Bytes, blob: Bytes)

  // What its fields can hold.
  predicate Fits(env: Envelope) {
    |env.session| == SESSION_SIZE && |env.from| == USER_SIZE && env.number < LIMIT && |env.blob| < LIMIT
  }

  function Encoded(env: Envelope): Bytes {
    Head(4, 5) + (Head(0, VERSION) + (Bstr(env.session) + (Head(0, env.number) + (Bstr(env.from) + Bstr(env.blob)))))
  }

  // The bytes on the wire: an array of five, version one, the session, the number, who from, the blob.
  lemma Layout(env: Envelope)
    requires Fits(env)
    ensures Encoded(env) ==
            [0x85, 0x01, 0x50] + env.session + Head(0, env.number) + [0x58, 0x20] + env.from + Bstr(env.blob)
  {
    assert Head(4, 5) == [0x85] && Head(0, VERSION) == [0x01] && Head(2, 16) == [0x50];
    assert BigEndian(32, 1) == [32] by { assert BigEndian(0, 0) == []; }
    assert Head(2, 32) == [0x58, 0x20];
  }

  method Encode(env: Envelope) returns (bytes: Bytes)
    requires Fits(env)
    ensures bytes == Encoded(env)
  {
    hide Head, Bstr;
    var w := new Writer();
    w.PutHead(4, 5);
    w.PutHead(0, VERSION);
    w.PutBstr(env.session);
    w.PutHead(0, env.number);
    w.PutBstr(env.from);
    w.PutBstr(env.blob);
    bytes := w.out;
  }

  // Field by field; nothing may be left over.
  function Decoded(data: Bytes): Option<Envelope> {
    var five := ParseHead(data, 4);
    if five.None? || five.value.value != 5 then None else
    var version := ParseHead(five.value.rest, 0);
    if version.None? || version.value.value != VERSION then None else
    var session := ParseBstr(version.value.rest);
    if session.None? || |session.value.value| != SESSION_SIZE then None else
    var number := ParseHead(session.value.rest, 0);
    if number.None? then None else
    var from := ParseBstr(number.value.rest);
    if from.None? || |from.value.value| != USER_SIZE then None else
    var blob := ParseBstr(from.value.rest);
    if blob.None? || blob.value.rest != [] then None else
    Some(Envelope(session.value.value, number.value.value, from.value.value, blob.value.value))
  }

  method Decode(data: Bytes) returns (env: Option<Envelope>)
    ensures env == Decoded(data)
  {
    hide ParseHead, ParseBstr;
    var r := new Reader(data);
    assert r.Rest() == data;
    var five := r.ReadHead(4);
    if five != Some(5) { return None; }
    var version := r.ReadHead(0);
    if version != Some(VERSION) { return None; }
    var session := r.ReadBstr();
    if session.None? || |session.value| != SESSION_SIZE { return None; }
    var number := r.ReadHead(0);
    if number.None? { return None; }
    var from := r.ReadBstr();
    if from.None? || |from.value| != USER_SIZE { return None; }
    var blob := r.ReadBstr();
    if blob.None? || r.pos != |data| { return None; }
    env := Some(Envelope(session.value, number.value, from.value, blob.value));
  }

  // Every envelope decodes from its encoding to itself.
  lemma EncodedReadsBack(env: Envelope)
    requires Fits(env)
    ensures Decoded(Encoded(env)) == Some(env)
  {
    hide Head, Bstr, ParseHead, ParseBstr;
    var t5 := Bstr(env.blob);
    var t4 := Bstr(env.from) + t5;
    var t3 := Head(0, env.number) + t4;
    var t2 := Bstr(env.session) + t3;
    var t1 := Head(0, VERSION) + t2;
    HeadReadsBack(4, 5, t1);
    HeadReadsBack(0, VERSION, t2);
    BstrReadsBack(env.session, t3);
    HeadReadsBack(0, env.number, t4);
    BstrReadsBack(env.from, t5);
    BstrReadsBack(env.blob, []);
    assert t5 + [] == t5;
  }

  // What decodes is the encoding of what it decodes to: an envelope has no second form.
  lemma DecodedIsEncoded(data: Bytes)
    requires Decoded(data).Some?
    ensures Fits(Decoded(data).value) && Encoded(Decoded(data).value) == data
  {
    hide Head, Bstr, ParseHead, ParseBstr;
    var five := ParseHead(data, 4).value;
    HeadHasOneForm(data, 4);
    var version := ParseHead(five.rest, 0).value;
    HeadHasOneForm(five.rest, 0);
    var session := ParseBstr(version.rest).value;
    BstrHasOneForm(version.rest);
    var number := ParseHead(session.rest, 0).value;
    HeadHasOneForm(session.rest, 0);
    var from := ParseBstr(number.rest).value;
    BstrHasOneForm(number.rest);
    var blob := ParseBstr(from.rest).value;
    BstrHasOneForm(from.rest);
    assert Bstr(blob.value) + [] == Bstr(blob.value);
  }

  // Decoding and encoding are inverse in both directions.
  lemma DecodesExactlyEncodings(data: Bytes, env: Envelope)
    ensures Decoded(data) == Some(env) <==> Fits(env) && data == Encoded(env)
  {
    if Decoded(data) == Some(env) { DecodedIsEncoded(data); }
    if Fits(env) && data == Encoded(env) { EncodedReadsBack(env); }
  }
}
