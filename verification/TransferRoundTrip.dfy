// What a transfer must be to exist, and that every such transfer reads back as written
// (records/codec).
module TransferRoundTrip {
  import opened Options
  import opened Sums
  import opened WireCbor
  import opened CborItems
  import opened TransferCodec

  // ---------- Reading back, piece by piece ----------

  lemma RefReadsBack(r: Ref, rest: seq<Item>)
    ensures ReadRef(OfRef(r) + rest) == Some(Got(r, rest))
  {
    assert (OfRef(r) + rest)[5..] == rest;
  }

  lemma PathReadsBack(p: BlockPath, rest: seq<Item>)
    ensures ReadPath(OfPath(p) + rest) == Some(Got(p, rest))
  {
    assert (OfPath(p) + rest)[9..] == rest;
  }

  // A field under its key: the key first, then what stands under it.
  lemma Keyed(key: nat, field: seq<Item>, rest: seq<Item>)
    ensures ([UInt(key)] + field + rest)[0] == UInt(key) && ([UInt(key)] + field + rest)[1..] == field + rest
  {
  }

  lemma OriginTailPrev(o: Origin, rest: seq<Item>, last: nat)
    requires last < 3
    ensures ReadOriginTail(o.(prev := None), KeyedRef(3, o.prev) + rest, One(o.prev), last) == Some(Got(o, rest))
  {
    if o.prev.Some? {
      Keyed(3, OfRef(o.prev.value), rest);
      RefReadsBack(o.prev.value, rest);
      hide ReadRef, OfRef;
    } else {
      assert KeyedRef(3, o.prev) + rest == rest;
    }
  }

  lemma OriginTailReadsBack(o: Origin, rest: seq<Item>)
    ensures ReadOriginTail(o.(src := None, prev := None), KeyedRef(2, o.src) + KeyedRef(3, o.prev) + rest,
                           One(o.src) + One(o.prev), 1) == Some(Got(o, rest))
  {
    hide ReadRef, OfRef;
    var more := KeyedRef(3, o.prev) + rest;
    assert KeyedRef(2, o.src) + KeyedRef(3, o.prev) + rest == KeyedRef(2, o.src) + more;
    if o.src.Some? {
      Keyed(2, OfRef(o.src.value), more);
      RefReadsBack(o.src.value, more);
      OriginTailPrev(o, rest, 2);
    } else {
      assert KeyedRef(2, o.src) + more == more;
      OriginTailPrev(o, rest, 1);
    }
  }

  lemma OriginReadsBack(o: Origin, rest: seq<Item>)
    ensures ReadOrigin(OfOrigin(o) + rest) == Some(Got(o, rest))
  {
    hide ReadOriginTail, KeyedRef;
    OriginTailReadsBack(o, rest);
    assert (OfOrigin(o) + rest)[5..] == KeyedRef(2, o.src) + KeyedRef(3, o.prev) + rest;
  }

  lemma {:induction false} OriginsReadBack(os: seq<Origin>, rest: seq<Item>)
    ensures ReadOrigins(OfOrigins(os) + rest, |os|) == Some(Got(os, rest))
  {
    hide ReadOrigin, OfOrigin;
    if os == [] {
      assert OfOrigins(os) + rest == rest;
    } else {
      OriginReadsBack(os[0], OfOrigins(os[1..]) + rest);
      OriginsReadBack(os[1..], rest);
      assert OfOrigins(os) + rest == OfOrigin(os[0]) + (OfOrigins(os[1..]) + rest);
      assert os == [os[0]] + os[1..];
    }
  }

  lemma AxisReadsBack(x: Axis, rest: seq<Item>)
    ensures ReadAxis(OfAxis(x) + rest) == Some(Got(x, rest))
  {
    hide ReadPath, OfPath;
    var s, more := OfAxis(x) + rest, [UInt(1), Float(x.units)] + rest;
    PathReadsBack(x.axis, more);
    assert s[2..] == OfPath(x.axis) + more;
    assert more[2..] == rest;
  }

  lemma {:induction false} AxesReadBack(xs: seq<Axis>, rest: seq<Item>)
    ensures ReadAxes(OfAxes(xs) + rest, |xs|) == Some(Got(xs, rest))
  {
    hide ReadAxis, OfAxis;
    if xs == [] {
      assert OfAxes(xs) + rest == rest;
    } else {
      AxisReadsBack(xs[0], OfAxes(xs[1..]) + rest);
      AxesReadBack(xs[1..], rest);
      assert OfAxes(xs) + rest == OfAxis(xs[0]) + (OfAxes(xs[1..]) + rest);
      assert xs == [xs[0]] + xs[1..];
    }
  }

  lemma NormReadsBack(n: Norm, rest: seq<Item>)
    ensures ReadNorm(OfNorm(n) + rest) == Some(Got(n, rest))
  {
    assert (OfNorm(n) + rest)[7..] == rest;
  }

  lemma FlagsReadBack(b: Buyback, rest: seq<Item>)
    ensures ReadFlags(b.(wear := false, deposit := false),
                      (if b.wear then [UInt(3), UInt(1)] else []) +
                        ((if b.deposit then [UInt(4), UInt(1)] else []) + rest),
                      Flag(b.wear) + Flag(b.deposit), 2) == Some(Got(b, rest))
  {
    var second := (if b.deposit then [UInt(4), UInt(1)] else []) + rest;
    var all := (if b.wear then [UInt(3), UInt(1)] else []) + second;
    assert b.deposit ==> second[2..] == rest;
    assert !b.deposit ==> second == rest;
    assert b.wear ==> all[2..] == second;
    assert !b.wear ==> all == second;
    var worn := b.(deposit := false);
    assert ReadFlags(worn, second, Flag(b.deposit), 2) == Some(Got(b, rest));
    assert ReadFlags(worn, second, Flag(b.deposit), 3) == Some(Got(b, rest));
  }

  lemma BuybackReadsBack(b: Buyback, rest: seq<Item>)
    ensures ReadBuyback(OfBuyback(b) + rest) == Some(Got(b, rest))
  {
    hide ReadFlags;
    FlagsReadBack(b, rest);
    assert (OfBuyback(b) + rest)[5..] ==
           (if b.wear then [UInt(3), UInt(1)] else []) + ((if b.deposit then [UInt(4), UInt(1)] else []) + rest);
  }

  // ---------- The acceptance ----------

  lemma TailBuyback(a: Acceptance, rest: seq<Item>, last: nat)
    requires last < 9
    ensures ReadAcceptanceTail(a.(buyback := None), BuybackField(a) + rest, One(a.buyback), last) == Some(Got(a, rest))
  {
    hide ReadBuyback, OfBuyback;
    if a.buyback.Some? {
      Keyed(9, OfBuyback(a.buyback.value), rest);
      BuybackReadsBack(a.buyback.value, rest);
    } else {
      assert BuybackField(a) + rest == rest;
    }
  }

  lemma TailRelease(a: Acceptance, rest: seq<Item>, last: nat)
    requires last < 8
    ensures ReadAcceptanceTail(a.(release := None, buyback := None), KeyedRef(8, a.release) + (BuybackField(a) + rest),
                               One(a.release) + One(a.buyback), last) == Some(Got(a, rest))
  {
    hide ReadRef, OfRef, BuybackField;
    var more := BuybackField(a) + rest;
    if a.release.Some? {
      Keyed(8, OfRef(a.release.value), more);
      RefReadsBack(a.release.value, more);
      TailBuyback(a, rest, 8);
    } else {
      assert KeyedRef(8, a.release) + more == more;
      TailBuyback(a, rest, last);
    }
  }

  lemma TailLike(a: Acceptance, rest: seq<Item>, last: nat)
    requires last < 7
    ensures ReadAcceptanceTail(a.(like := None, release := None, buyback := None),
                               KeyedRef(7, a.like) + (KeyedRef(8, a.release) + (BuybackField(a) + rest)),
                               One(a.like) + One(a.release) + One(a.buyback), last) == Some(Got(a, rest))
  {
    hide ReadRef, OfRef, BuybackField;
    var more := KeyedRef(8, a.release) + (BuybackField(a) + rest);
    if a.like.Some? {
      Keyed(7, OfRef(a.like.value), more);
      RefReadsBack(a.like.value, more);
      TailRelease(a, rest, 7);
    } else {
      assert KeyedRef(7, a.like) + more == more;
      TailRelease(a, rest, last);
    }
  }

  lemma TailNorm(a: Acceptance, rest: seq<Item>, last: nat)
    requires last < 6
    ensures ReadAcceptanceTail(a.(norm := None, like := None, release := None, buyback := None),
                               NormField(a) + (KeyedRef(7, a.like) +
                                 (KeyedRef(8, a.release) + (BuybackField(a) + rest))),
                               One(a.norm) + One(a.like) + One(a.release) + One(a.buyback), last) == Some(Got(a, rest))
  {
    hide ReadNorm, OfNorm, BuybackField, KeyedRef;
    var more := KeyedRef(7, a.like) + (KeyedRef(8, a.release) + (BuybackField(a) + rest));
    if a.norm.Some? {
      Keyed(6, OfNorm(a.norm.value), more);
      NormReadsBack(a.norm.value, more);
      TailLike(a, rest, 6);
    } else {
      assert NormField(a) + more == more;
      TailLike(a, rest, last);
    }
  }

  lemma Regroup(a: seq<Item>, b: seq<Item>, c: seq<Item>, d: seq<Item>, e: seq<Item>, rest: seq<Item>)
    ensures (a + (b + (c + (d + e)))) + rest == a + (b + (c + (d + (e + rest))))
  {
  }

  // One field read, the rest goes on from there.
  lemma CarriedStep(a: Acceptance, more: seq<Item>, left: nat)
    requires a.carried.Some?
    ensures ReadAcceptanceTail(a.(carried := None), CarriedField(a) + more, left + 1, 4) ==
            ReadAcceptanceTail(a, more, left, 5)
  {
    var s := CarriedField(a) + more;
    assert s[0] == UInt(5) && s[1..] == [Float(a.carried.value)] + more && s[1..][1..] == more;
  }

  lemma AcceptanceTailReadsBack(a: Acceptance, rest: seq<Item>)
    ensures ReadAcceptanceTail(a.(carried := None, norm := None, like := None, release := None, buyback := None),
                               AcceptanceTail(a) + rest, AcceptanceFields(a) - 5, 4) == Some(Got(a, rest))
  {
    hide BuybackField, KeyedRef, NormField, ReadAcceptanceTail;
    var more := NormField(a) + (KeyedRef(7, a.like) + (KeyedRef(8, a.release) + (BuybackField(a) + rest)));
    var left := One(a.norm) + One(a.like) + One(a.release) + One(a.buyback);
    Regroup(CarriedField(a), NormField(a), KeyedRef(7, a.like), KeyedRef(8, a.release), BuybackField(a), rest);
    if a.carried.Some? {
      CarriedStep(a.(norm := None, like := None, release := None, buyback := None), more, left);
      TailNorm(a, rest, 5);
    } else {
      assert CarriedField(a) + more == more;
      TailNorm(a, rest, 4);
    }
  }

  lemma AcceptanceReadsBack(a: Acceptance, rest: seq<Item>)
    ensures ReadAcceptance(OfAcceptance(a) + rest) == Some(Got(a, rest))
  {
    hide ReadRef, OfRef, ReadAxes, OfAxes, ReadAcceptanceTail, AcceptanceTail;
    var s := OfAcceptance(a) + rest;
    var tail := AcceptanceTail(a) + rest;
    var axes := OfAxes(a.axes) + tail;
    var middle := [UInt(1), Text(a.quality), UInt(2), Float(a.hours), UInt(3), Float(a.labor), UInt(4),
      Arr(|a.axes|)] + axes;
    assert s == [Map(AcceptanceFields(a)), UInt(0)] + (OfRef(a.work) + middle);
    assert s[2..] == OfRef(a.work) + middle;
    RefReadsBack(a.work, middle);
    assert middle[8..] == axes;
    AxesReadBack(a.axes, tail);
    AcceptanceTailReadsBack(a, rest);
  }

  // ---------- The transfer ----------

  lemma OptionalRefReadsBack(r: Option<Ref>, rest: seq<Item>)
    ensures ReadOptionalRef(OfOptionalRef(r) + rest) == Some(Got(r, rest))
  {
    if r.Some? {
      RefReadsBack(r.value, rest);
    } else {
      assert (OfOptionalRef(r) + rest)[1..] == rest;
    }
  }

  lemma TailUntil(t: Transfer, rest: seq<Item>, last: nat)
    requires last < 12
    ensures ReadTransferTail(t.(until := None), UntilField(t) + rest, One(t.until), last) == Some(Got(t, rest))
  {
    if t.until.Some? {
      assert (UntilField(t) + rest)[1..][1..] == rest;
    } else {
      assert UntilField(t) + rest == rest;
    }
  }

  lemma TailAccept(t: Transfer, rest: seq<Item>, last: nat)
    requires last < 11
    ensures ReadTransferTail(t.(accept := None, until := None), AcceptField(t) + (UntilField(t) + rest),
                             One(t.accept) + One(t.until), last) == Some(Got(t, rest))
  {
    hide ReadAcceptance, OfAcceptance, UntilField;
    var more := UntilField(t) + rest;
    if t.accept.Some? {
      Keyed(11, OfAcceptance(t.accept.value), more);
      AcceptanceReadsBack(t.accept.value, more);
      TailUntil(t, rest, 11);
    } else {
      assert AcceptField(t) + more == more;
      TailUntil(t, rest, last);
    }
  }

  lemma TailSettles(t: Transfer, rest: seq<Item>, last: nat)
    requires last < 10
    ensures ReadTransferTail(t.(settles := None, accept := None, until := None),
                             KeyedRef(10, t.settles) + (AcceptField(t) + (UntilField(t) + rest)),
                             One(t.settles) + One(t.accept) + One(t.until), last) == Some(Got(t, rest))
  {
    hide ReadRef, OfRef, AcceptField, UntilField;
    var more := AcceptField(t) + (UntilField(t) + rest);
    if t.settles.Some? {
      Keyed(10, OfRef(t.settles.value), more);
      RefReadsBack(t.settles.value, more);
      TailAccept(t, rest, 10);
    } else {
      assert KeyedRef(10, t.settles) + more == more;
      TailAccept(t, rest, last);
    }
  }

  lemma EmissionReadsBack(e: Emission, rest: seq<Item>)
    ensures var s := [UInt(e.number), UInt(8)] + (OfOptionalRef(e.prev) + ([UInt(9), Float(e.debtAfter)] + rest));
            ReadEmission(s) == Some(Got(e, rest))
  {
    hide ReadOptionalRef, OfOptionalRef;
    var after := [UInt(9), Float(e.debtAfter)] + rest;
    var s := [UInt(e.number), UInt(8)] + (OfOptionalRef(e.prev) + after);
    assert s[2..] == OfOptionalRef(e.prev) + after && after[2..] == rest;
    OptionalRefReadsBack(e.prev, after);
  }

  lemma EmissionStep(t: Transfer, more: seq<Item>, left: nat)
    requires t.emission.Some?
    ensures ReadTransferTail(t.(emission := None), EmissionField(t) + more, left + 3, 6) ==
            ReadTransferTail(t, more, left, 9)
  {
    hide ReadEmission, OfOptionalRef;
    var e, s := t.emission.value, EmissionField(t) + more;
    var under := [UInt(e.number), UInt(8)] + (OfOptionalRef(e.prev) + ([UInt(9), Float(e.debtAfter)] + more));
    assert s == [UInt(7)] + under;
    assert s[0] == UInt(7) && s[1..] == under;
    EmissionReadsBack(e, more);
  }

  lemma TransferTailReadsBack(t: Transfer)
    ensures ReadTransferTail(t.(emission := None, settles := None, accept := None, until := None),
                             TransferTail(t), TransferFields(t) - 6, 6) == Some(Got(t, []))
  {
    hide AcceptField, UntilField, KeyedRef, ReadTransferTail, EmissionField;
    var more := KeyedRef(10, t.settles) + (AcceptField(t) + (UntilField(t) + []));
    var left := One(t.settles) + One(t.accept) + One(t.until);
    assert UntilField(t) + [] == UntilField(t);
    if t.emission.Some? {
      SameEmission(t);
      EmissionStep(t.(settles := None, accept := None, until := None), more, left);
      TailSettles(t, [], 9);
    } else {
      NoEmission(t, more);
      TailSettles(t, [], 6);
    }
  }

  lemma SameEmission(t: Transfer)
    ensures EmissionField(t.(settles := None, accept := None, until := None)) == EmissionField(t)
  {
  }

  lemma NoEmission(t: Transfer, more: seq<Item>)
    ensures t.emission.None? ==> EmissionField(t) + more == more
  {
  }

  // A transfer to a node the reader takes reads back as it was; one to the last node number
  // is written and refused.
  lemma TransferReadsBack(t: Transfer)
    ensures ReadTransfer(OfTransfer(t)) == if t.node <= MAX_NODE then Some(Got(t, [])) else None
  {
    hide ReadOrigins, OfOrigins, ReadTransferTail, TransferTail;
    var s := OfTransfer(t);
    var tail := [UInt(6), OfInt(t.timestamp)] + TransferTail(t);
    assert s[11..] == OfOrigins(t.origins) + tail;
    OriginsReadBack(t.origins, tail);
    assert tail[2..] == TransferTail(t);
    TransferTailReadsBack(t);
  }

  // ---------- What may be written and read ----------

  // The number a double stands for; none for what is not a finite number.
  type Meaning = Double -> Option<real>

  const EPS: real := 0.000001

  predicate OriginFits(t: Transfer, val: Meaning, i: nat)
    requires i < |t.origins|
  {
    var o := t.origins[i];
    && val(o.units).Some? && val(o.units).value > 0.0
    && (if o.issuer == t.from then o.src.None? && o.prev.None? else o.src.Some?)
  }

  // Portions of somebody else's paper from one bill.
  predicate OneBill(t: Transfer, i: nat, j: nat)
    requires i < |t.origins| && j < |t.origins|
  {
    t.origins[i].issuer != t.from && t.origins[i].issuer == t.origins[j].issuer && t.origins[i].src == t.origins[j].src
  }

  // Every portion a positive number of hours; somebody else's paper names its bill, own paper
  // none; one bill pays one portion.
  ghost predicate OriginsFit(t: Transfer, val: Meaning) {
    && (forall i | 0 <= i < |t.origins| :: OriginFits(t, val, i))
    && forall i, j | 0 <= i < j < |t.origins| :: !OneBill(t, i, j)
  }

  function Paid(t: Transfer, val: Meaning, n: nat): real
    requires n <= |t.origins|
  {
    if n == 0 then 0.0
    else Paid(t, val, n - 1) + if val(t.origins[n - 1].units).Some? then val(t.origins[n - 1].units).value else 0.0
  }

  predicate SettledExactly(paid: real, payable: real) {
    paid > 0.0 && -EPS <= paid - payable <= EPS
  }

  predicate PaysExactly(a: Acceptance, val: Meaning, paid: real) {
    && val(a.labor).Some? && (a.carried.Some? ==> val(a.carried.value).Some?)
    && SettledExactly(paid, val(a.labor).value + if a.carried.Some? then val(a.carried.value).value else 0.0)
  }

  predicate CarriedOnly(a: Acceptance, val: Meaning) {
    val(a.labor) == Some(0.0) && val(a.hours) == Some(0.0) && a.axes == []
  }

  // Paid to the maker with a breakdown, or to a holder by his release, for what was carried
  // only.
  predicate Reasoned(t: Transfer, a: Acceptance, val: Meaning) {
    && (a.release.Some? ==> a.release.value.chain == t.to)
    && (a.work.chain != t.to || a.axes == [] ==> a.release.Some? && CarriedOnly(a, val))
  }

  predicate BuybackFits(t: Transfer, b: Buyback) {
    b.until > t.timestamp && b.to != t.from && (b.deposit ==> b.to == t.to)
  }

  ghost predicate Admitted(t: Transfer, val: Meaning) {
    OriginsFit(t, val) &&
    match t.accept
    case None => t.to == t.from && t.until.None? && forall i | 0 <= i < |t.origins| :: t.origins[i].issuer != t.from
    case Some(a) =>
      && t.to != t.from && t.until.Some? && t.until.value > t.timestamp
      && Reasoned(t, a, val) && PaysExactly(a, val, Paid(t, val, |t.origins|))
      && (a.buyback.Some? ==> BuybackFits(t, a.buyback.value))
  }

  // ---------- What the check comes to ----------

  // The hours of a portion.
  ghost function Hours(val: Meaning, o: Origin): real { if val(o.units).Some? then val(o.units).value else 0.0 }

  lemma {:induction false} PaidIsSum(t: Transfer, val: Meaning, n: nat)
    requires n <= |t.origins|
    ensures Paid(t, val, n) == Sum(t.origins[..n], o => Hours(val, o))
  {
    var f := (o: Origin) => Hours(val, o);
    if n > 0 {
      PaidIsSum(t, val, n - 1);
      assert t.origins[..n] == t.origins[..n - 1] + [t.origins[n - 1]];
      SumSnoc(t.origins[..n - 1], t.origins[n - 1], f);
      SumEq(t.origins[..n - 1], f, o => Hours(val, o));
    }
    SumEq(t.origins[..n], f, o => Hours(val, o));
  }

  // The portions: all of them finite and above zero; own paper is born here, somebody else's came
  // in a block, and no two come out of one.
  ghost predicate PortionsAreFit(t: Transfer, val: Meaning) {
    && (forall o | o in t.origins :: val(o.units).Some? && Hours(val, o) > 0.0)
    && (forall o | o in t.origins && o.issuer == t.from :: o.src.None? && o.prev.None?)
    && (forall o | o in t.origins && o.issuer != t.from :: o.src.Some?)
    && forall i, j | 0 <= i < |t.origins| && 0 <= j < |t.origins| && i != j && t.origins[i].issuer != t.from ::
         (t.origins[i].issuer, t.origins[i].src) != (t.origins[j].issuer, t.origins[j].src)
  }

  lemma PortionsFitExactly(t: Transfer, val: Meaning)
    ensures OriginsFit(t, val) <==> PortionsAreFit(t, val)
  {
    if OriginsFit(t, val) {
      forall o | o in t.origins
        ensures val(o.units).Some? && Hours(val, o) > 0.0
        ensures if o.issuer == t.from then o.src.None? && o.prev.None? else o.src.Some?
      {
        var i :| 0 <= i < |t.origins| && t.origins[i] == o;
        assert OriginFits(t, val, i);
      }
      forall i, j | 0 <= i < |t.origins| && 0 <= j < |t.origins| && i != j && t.origins[i].issuer != t.from
        ensures (t.origins[i].issuer, t.origins[i].src) != (t.origins[j].issuer, t.origins[j].src)
      {
        assert if i < j then !OneBill(t, i, j) else !OneBill(t, j, i);
      }
    }
    if PortionsAreFit(t, val) {
      forall i | 0 <= i < |t.origins| ensures OriginFits(t, val, i) { assert t.origins[i] in t.origins; }
    }
  }

  // A record with an acceptance exists exactly when it pays somebody else, by a term still ahead,
  // exactly labour and what is carried; for work of the seller's with its hours broken down, or by
  // a release of his for what is carried alone; and a return is for a term ahead, to another than
  // the payer, and with a deposit only to the seller.
  lemma DealExists(t: Transfer, val: Meaning)
    requires t.accept.Some?
    ensures var a := t.accept.value;
            var paid := Sum(t.origins, o => Hours(val, o));
            var carriedAlone := val(a.labor) == Some(0.0) && val(a.hours) == Some(0.0) && a.axes == [];
            Admitted(t, val) <==>
            && PortionsAreFit(t, val)
            && t.to != t.from && t.until.Some? && t.timestamp < t.until.value
            && (a.release.Some? ==> a.release.value.chain == t.to)
            && ((a.work.chain == t.to && a.axes != []) || (a.release.Some? && carriedAlone))
            && val(a.labor).Some? && (a.carried.Some? ==> val(a.carried.value).Some?)
            && paid > 0.0
            && -0.000001 <= paid - val(a.labor).value - (if a.carried.Some? then val(a.carried.value).value else 0.0)
                         <= 0.000001
            && (a.buyback.Some? ==>
                  && t.timestamp < a.buyback.value.until && a.buyback.value.to != t.from
                  && (a.buyback.value.deposit ==> a.buyback.value.to == t.to))
  {
    PortionsFitExactly(t, val);
    PaidIsSum(t, val, |t.origins|);
    assert t.origins[..|t.origins|] == t.origins;
    hide OriginsFit, PortionsAreFit, Paid, Hours;
  }

  // One without moves the payer's holdings of others' paper between his own branches.
  lemma MoveExists(t: Transfer, val: Meaning)
    requires t.accept.None?
    ensures Admitted(t, val) <==>
            && PortionsAreFit(t, val) && t.to == t.from && t.until.None?
            && forall o | o in t.origins :: o.issuer != t.from && o.src.Some?
  {
    PortionsFitExactly(t, val);
    hide OriginsFit, Hours;
  }

  lemma {:induction false} SumWithOneChanged(os: seq<Origin>, i: nat, o: Origin, f: Origin -> real)
    requires i < |os|
    ensures Sum(os[i := o], f) == Sum(os, f) - f(os[i]) + f(o)
  {
    var n := |os| - 1;
    if i < n {
      SumWithOneChanged(os[..n], i, o, f);
      assert os[i := o][..n] == os[..n][i := o];
    } else {
      assert os[i := o][..n] == os[..n];
    }
  }

  // A price is paid one way: of two deals alike but for one portion, differing by more than the
  // check allows twice, at most one can be written.
  lemma OnePrice(t: Transfer, val: Meaning, i: nat, o: Origin)
    requires t.accept.Some? && i < |t.origins|
    requires Hours(val, o) - Hours(val, t.origins[i]) > 0.000002 || Hours(val, t.origins[i]) - Hours(val, o) > 0.000002
    ensures !(Admitted(t, val) && Admitted(t.(origins := t.origins[i := o]), val))
  {
    var u := t.(origins := t.origins[i := o]);
    DealExists(t, val);
    DealExists(u, val);
    hide Admitted, PortionsAreFit, Hours;
    var f := (o: Origin) => Hours(val, o);
    SumWithOneChanged(t.origins, i, o, f);
    SumEq(t.origins, f, o => Hours(val, o));
    SumEq(u.origins, f, o => Hours(val, o));
  }

  method CheckOrigins(t: Transfer, val: Meaning) returns (ok: bool)
    ensures ok == OriginsFit(t, val)
  {
    var bills: set<(Id, Option<Ref>)> := {};
    for i := 0 to |t.origins|
      invariant forall j | 0 <= j < i :: OriginFits(t, val, j)
      invariant forall j, k | 0 <= j < k < i :: !OneBill(t, j, k)
      invariant forall b :: b in bills <==>
                  exists j | 0 <= j < i :: t.origins[j].issuer != t.from && b == (t.origins[j].issuer, t.origins[j].src)
    {
      var o := t.origins[i];
      if val(o.units).None? || val(o.units).value <= 0.0 {
        assert !OriginFits(t, val, i);
        return false;
      }
      if o.issuer == t.from {
        if o.src.Some? || o.prev.Some? {
          assert !OriginFits(t, val, i);
          return false;
        }
        continue;
      }
      if o.src.None? {
        assert !OriginFits(t, val, i);
        return false;
      }
      if (o.issuer, o.src) in bills {
        var j :| 0 <= j < i && t.origins[j].issuer != t.from &&
          (o.issuer, o.src) == (t.origins[j].issuer, t.origins[j].src);
        assert OneBill(t, j, i);
        return false;
      }
      bills := bills + {(o.issuer, o.src)};
    }
    ok := true;
  }

  method CheckTransfer(t: Transfer, val: Meaning) returns (ok: bool)
    ensures ok == Admitted(t, val)
    ensures ok && t.accept.Some? ==>
              var a, paid := t.accept.value, Sum(t.origins, o => Hours(val, o));
              && val(a.labor).Some? && (a.carried.Some? ==> val(a.carried.value).Some?)
              && paid > 0.0
              && -0.000001 <= paid - val(a.labor).value - (if a.carried.Some? then val(a.carried.value).value else 0.0)
                           <= 0.000001
  {
    if t.accept.Some? { DealExists(t, val); }
    hide OriginsFit, PortionsAreFit;
    var fits := CheckOrigins(t, val);
    if !fits { return false; }
    if t.accept.None? {
      if t.to != t.from { return false; }
      for i := 0 to |t.origins|
        invariant forall j | 0 <= j < i :: t.origins[j].issuer != t.from
      {
        if t.origins[i].issuer == t.from { return false; }
      }
      return t.until.None?;
    }
    var a := t.accept.value;
    if t.to == t.from || t.until.None? || t.until.value <= t.timestamp { return false; }
    if a.release.Some? && a.release.value.chain != t.to { return false; }
    var carriedOnly := val(a.labor) == Some(0.0) && val(a.hours) == Some(0.0) && a.axes == [];
    if a.work.chain != t.to {
      if a.release.None? || !carriedOnly { return false; }
    } else if a.axes == [] && !(a.release.Some? && carriedOnly) {
      return false;
    }
    var paid := 0.0;
    for i := 0 to |t.origins|
      invariant paid == Paid(t, val, i)
    {
      paid := paid + if val(t.origins[i].units).Some? then val(t.origins[i].units).value else 0.0;
    }
    if !PaysExactly(a, val, paid) { return false; }
    ok := a.buyback.Some? ==>
      a.buyback.value.until > t.timestamp && a.buyback.value.to != t.from &&
        (a.buyback.value.deposit ==> a.buyback.value.to == t.to);
  }

  // ---------- The codec ----------

  function Encoded(t: Transfer): Bytes { WrittenAll(OfTransfer(t)) }

  // The check stands before a record is believed, as it stands before one is written.
  ghost function Decoded(bytes: Bytes, val: Meaning): Option<Transfer> {
    match ReadAll(bytes)
    case None => None
    case Some(items) =>
      match ReadTransfer(items)
      case None => None
      case Some(g) => if Admitted(g.value, val) then Some(g.value) else None
  }

  predicate AllHold(items: seq<Item>) { forall k | 0 <= k < |items| :: Holds(items[k]) }

  lemma HoldTogether(a: seq<Item>, b: seq<Item>)
    requires AllHold(a) && AllHold(b)
    ensures AllHold(a + b)
  {
  }

  lemma OriginHolds(o: Origin)
    ensures AllHold(OfOrigin(o))
  {
    HoldTogether(KeyedRef(2, o.src), KeyedRef(3, o.prev));
  }

  lemma {:induction false} OriginsHold(os: seq<Origin>)
    ensures AllHold(OfOrigins(os))
  {
    if os != [] {
      OriginHolds(os[0]);
      OriginsHold(os[1..]);
      HoldTogether(OfOrigin(os[0]), OfOrigins(os[1..]));
    }
  }

  lemma {:induction false} AxesHold(xs: seq<Axis>)
    ensures AllHold(OfAxes(xs))
  {
    if xs != [] {
      AxesHold(xs[1..]);
      HoldTogether(OfAxis(xs[0]), OfAxes(xs[1..]));
    }
  }

  lemma AcceptanceHolds(a: Acceptance)
    requires |a.quality| < LIMIT && |a.axes| < LIMIT
    ensures AllHold(OfAcceptance(a))
  {
    hide OfAxes;
    AxesHold(a.axes);
    var last := KeyedRef(8, a.release) + BuybackField(a);
    HoldTogether(KeyedRef(8, a.release), BuybackField(a));
    HoldTogether(KeyedRef(7, a.like), last);
    HoldTogether(NormField(a), KeyedRef(7, a.like) + last);
    HoldTogether(CarriedField(a), NormField(a) + (KeyedRef(7, a.like) + last));
    HoldTogether(OfAxes(a.axes), AcceptanceTail(a));
    HoldTogether(AcceptanceHead(a), OfAxes(a.axes) + AcceptanceTail(a));
  }

  lemma TransferHolds(t: Transfer)
    requires Sized(t)
    ensures AllHold(OfTransfer(t))
  {
    hide OfOrigins, OfAcceptance;
    OriginsHold(t.origins);
    if t.accept.Some? { AcceptanceHolds(t.accept.value); }
    assert AllHold(AcceptField(t)) && AllHold(EmissionField(t));
    HoldTogether(AcceptField(t), UntilField(t));
    HoldTogether(KeyedRef(10, t.settles), AcceptField(t) + UntilField(t));
    HoldTogether(EmissionField(t), KeyedRef(10, t.settles) + (AcceptField(t) + UntilField(t)));
    var when := [UInt(6), OfInt(t.timestamp)];
    HoldTogether(when, TransferTail(t));
    HoldTogether(OfOrigins(t.origins), when + TransferTail(t));
  }

  // Every transfer the check admits reads back from its bytes as it was, none of them left
  // over, exactly when its node is one the reader takes.
  lemma AdmittedReadsBack(t: Transfer, val: Meaning)
    requires Sized(t) && Admitted(t, val)
    ensures Decoded(Encoded(t), val) == if t.node <= MAX_NODE then Some(t) else None
    ensures ReadAll(Encoded(t)) == Some(OfTransfer(t))
  {
    hide Admitted, OfTransfer, ReadTransfer;
    TransferHolds(t);
    ItemsReadBack(OfTransfer(t));
    TransferReadsBack(t);
  }
}
