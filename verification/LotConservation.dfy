// With no link refused and none missing, what a lot counts as used is what is out of it.
module LotConservation {
  import opened Options
  import opened Sums
  import opened Lots

  // What a link must be to be written and read at all (records/codec, check_lot_link).
  predicate Admitted(k: LotLink) {
    && k.qty > 0.0 && k.after >= 0.0
    && (k.number == 0 <==> k.prev.None?)
    && (k.number == 0 ==> k.returned == [])
    && (k.units != [] ==> k.qty == |k.units| as real && forall i, j | 0 <= i < j < |k.units| :: k.units[i] < k.units[j])
  }

  ghost predicate AllCount(g: Lot)
    requires Listed(g)
  {
    forall h | h in g.m :: Valid(g, h) && Admitted(Link(g, h)) && !MissesOne(g, Link(g, h))
  }

  function Qty(g: Lot, h: nat): real { if h in g.m then g.m[h].link.qty else 0.0 }

  ghost function Net(g: Lot, h: nat): real {
    if h in g.m then g.m[h].link.qty - Back(g, g.m[h].link.returned) else 0.0
  }

  ghost function NetIfBelow(g: Lot, s: nat, h: nat): real {
    if h in g.m && g.m[h].link.number < s then Net(g, h) else 0.0
  }

  // What the links numbered below s took less what they gave back.
  ghost function NetBelow(g: Lot, s: nat): real {
    Sum(g.keys, h => NetIfBelow(g, s, h))
  }

  lemma NetStep(g: Lot, h: nat, x: nat)
    requires Listed(g) && Sound(g, h)
    ensures var s := Link(g, h).number;
            NetIfBelow(g, s + 1, x) == NetIfBelow(g, s, x) + if x == h then Net(g, h) else 0.0
  {
    if x in g.m && Link(g, x).number == Link(g, h).number { OneSoundANumber(g, h, x); }
  }

  lemma NetOneMore(g: Lot, h: nat)
    requires Listed(g) && Sound(g, h)
    ensures NetBelow(g, Link(g, h).number + 1) == NetBelow(g, Link(g, h).number) + Net(g, h)
  {
    hide Net, NetIfBelow;
    var s := Link(g, h).number;
    var before, upto := (x: nat) => NetIfBelow(g, s, x), (x: nat) => NetIfBelow(g, s + 1, x);
    var here := (x: nat) => if x == h then Net(g, h) else 0.0;
    forall i | 0 <= i < |g.keys| ensures upto(g.keys[i]) == before(g.keys[i]) + here(g.keys[i]) {
      NetStep(g, h, g.keys[i]);
    }
    assert h in g.keys;
    hide Sound;
    SumAdd(g.keys, before, here, upto);
    SumPoint(g.keys, here, h);
    SumEq(g.keys, before, h => NetIfBelow(g, s, h));
    SumEq(g.keys, upto, h => NetIfBelow(g, s + 1, h));
  }

  lemma NetBelowZero(g: Lot)
    ensures NetBelow(g, 0) == 0.0
  {
    SumZero(g.keys, h => NetIfBelow(g, 0, h));
  }

  lemma LinkGoesOn(g: Lot, h: nat)
    requires Listed(g) && AllCount(g) && h in g.m
    ensures Sound(g, h)
    ensures var k := Link(g, h);
            if k.prev.None? then k.number == 0 && k.returned == [] && Abs(k.after - k.qty) <= EPS
            else
              && k.prev.value.hash in g.m && Link(g, k.prev.value.hash).number + 1 == k.number
              && Abs(Link(g, k.prev.value.hash).after + k.qty - Back(g, k.returned) - k.after) <= EPS
  {
    hide Back, Numbered, HonestReturn, TakesFree;
    assert Valid(g, h) && Admitted(Link(g, h)) && !MissesOne(g, Link(g, h));
  }

  // Along the sub-thread the taken amount drifts by at most EPS a link.
  lemma {:induction false} TakenIsNet(g: Lot, h: nat, s: nat)
    requires Listed(g) && AllCount(g) && h in g.m && s == Link(g, h).number
    ensures Abs(Link(g, h).after - NetBelow(g, s + 1)) <= EPS * ((s + 1) as real)
    decreases s
  {
    hide NetBelow, Back, Sound, AllCount, Listed;
    var k := Link(g, h);
    LinkGoesOn(g, h);
    NetOneMore(g, h);
    if k.prev.None? {
      NetBelowZero(g);
      NothingBack(g);
    } else {
      TakenIsNet(g, k.prev.value.hash, s - 1);
      assert EPS * ((s + 1) as real) == EPS * (s as real) + EPS;
    }
  }

  lemma NothingBack(g: Lot)
    ensures Back(g, []) == 0.0
  {
  }

  // ---------- What is given back ----------

  ghost predicate GivenBack(g: Lot, h: nat) {
    exists c | c in g.m :: GivesBack(g.m[c].link, h)
  }

  ghost function StillTaken(g: Lot, h: nat): real {
    if GivenBack(g, h) then 0.0 else Qty(g, h)
  }

  ghost function BackAt(g: Lot, refs: seq<Ref>, i: int): real {
    if 0 <= i < |g.keys| && (exists j :: 0 <= j < |refs| && refs[j].hash == g.keys[i]) then Qty(g, g.keys[i]) else 0.0
  }

  predicate KnownOnce(g: Lot, refs: seq<Ref>) {
    && (forall i | 0 <= i < |refs| :: refs[i].chain == g.chain && refs[i].hash in g.m)
    && forall i, j | 0 <= i < j < |refs| :: refs[i].hash != refs[j].hash
  }

  lemma {:induction false} SumIndexed(s: seq<nat>, f: nat -> real, n: nat)
    requires n <= |s|
    ensures Sum(s[..n], f) == SumTo(n, i => if 0 <= i < |s| then f(s[i]) else 0.0)
  {
    var at := (i: int) => if 0 <= i < |s| then f(s[i]) else 0.0;
    if n > 0 {
      SumIndexed(s, f, n - 1);
      assert s[..n][..n - 1] == s[..n - 1];
      SumToEq(n - 1, at, i => if 0 <= i < |s| then f(s[i]) else 0.0);
      SumToEq(n, at, i => if 0 <= i < |s| then f(s[i]) else 0.0);
    }
  }

  // What a link gives back, summed over the links of the lot.
  lemma {:induction false} BackOverLinks(g: Lot, refs: seq<Ref>)
    requires Listed(g) && KnownOnce(g, refs)
    ensures Back(g, refs) == SumTo(|g.keys|, i => BackAt(g, refs, i))
  {
    var n := |g.keys|;
    var all := (i: int) => BackAt(g, refs, i);
    if refs == [] {
      NothingBack(g);
      SumToZero(n);
      SumToEq(n, all, i => 0.0);
    } else {
      var less, r := refs[..|refs| - 1], refs[|refs| - 1];
      BackOverLinks(g, less);
      var p: nat :| p < n && g.keys[p] == r.hash;
      var rest := (i: int) => BackAt(g, less, i);
      var here := (i: int) => if i == p then Qty(g, r.hash) else 0.0;
      forall i | 0 <= i < n ensures all(i) == rest(i) + here(i) {
        assert forall j | 0 <= j < |less| :: less[j] == refs[j];
        if i == p {
          assert refs[|refs| - 1].hash == g.keys[i];
          assert BackAt(g, less, i) == 0.0;
        } else {
          assert g.keys[i] != r.hash;
          assert BackAt(g, less, i) == BackAt(g, refs, i);
        }
      }
      SumToAdd(n, rest, here, all);
      SumToPoint(n, here, p);
      SumToEq(n, rest, i => BackAt(g, less, i));
      BackOneMore(g, less, r);
      assert refs == less + [r];
    }
    SumToEq(n, all, i => BackAt(g, refs, i));
  }

  lemma BackOneMore(g: Lot, refs: seq<Ref>, r: Ref)
    requires r.chain == g.chain && r.hash in g.m
    ensures Back(g, refs + [r]) == Back(g, refs) + Qty(g, r.hash)
  {
    var f := (r: Ref) => if r.chain == g.chain && r.hash in g.m then g.m[r.hash].link.qty else 0.0;
    SumSnoc(refs, r, f);
    SumEq(refs + [r], f, (r: Ref) => if r.chain == g.chain && r.hash in g.m then g.m[r.hash].link.qty else 0.0);
    SumEq(refs, f, (r: Ref) => if r.chain == g.chain && r.hash in g.m then g.m[r.hash].link.qty else 0.0);
  }

  lemma {:induction false} OfHashTwice(refs: seq<Ref>, r: nat, i: nat, j: nat)
    requires i < j < |refs| && refs[i].hash == r && refs[j].hash == r
    ensures OfHash(refs, r) >= 2
  {
    if j == |refs| - 1 {
      OfHashCounts(refs[..j], r, i);
    } else {
      OfHashTwice(refs[..|refs| - 1], r, i, j);
    }
  }

  lemma {:induction false} CountHoldsOne(g: Lot, n: nat, r: nat, i: nat)
    requires Listed(g) && i < n <= |g.keys|
    ensures ReturnCount(g, n, r) >= OfHash(Link(g, g.keys[i]).returned, r)
  {
    if i < n - 1 { CountHoldsOne(g, n - 1, r, i); }
  }

  lemma {:induction false} CountHoldsTwo(g: Lot, n: nat, r: nat, i: nat, j: nat)
    requires Listed(g) && i < j < n <= |g.keys|
    requires GivesBack(Link(g, g.keys[i]), r) && GivesBack(Link(g, g.keys[j]), r)
    ensures ReturnCount(g, n, r) >= 2
  {
    if j < n - 1 {
      CountHoldsTwo(g, n - 1, r, i, j);
    } else {
      GivenBackCounted(g, n - 1, r, i);
      var refs := Link(g, g.keys[j]).returned;
      var p :| 0 <= p < |refs| && refs[p].hash == r;
      OfHashCounts(refs, r, p);
    }
  }

  lemma OneReturn(g: Lot, h: nat, c: nat, d: nat)
    requires Listed(g) && Returned(g, h) <= 1 && c in g.m && d in g.m
    requires GivesBack(Link(g, c), h) && GivesBack(Link(g, d), h)
    ensures c == d
  {
    var i: nat :| i < |g.keys| && g.keys[i] == c;
    var j: nat :| j < |g.keys| && g.keys[j] == d;
    if i < j { CountHoldsTwo(g, |g.keys|, h, i, j); }
    if j < i { CountHoldsTwo(g, |g.keys|, h, j, i); }
  }

  lemma OneGivesBack(g: Lot, h: nat, c: nat, d: nat)
    requires Listed(g) && AllCount(g) && h in g.m && c in g.m && d in g.m
    requires GivesBack(Link(g, c), h) && GivesBack(Link(g, d), h)
    ensures c == d
  {
    hide GoesOn;
    assert Valid(g, c);
    NotGivenBackBefore(g, h, c);
    OneReturn(g, h, c, d);
  }

  lemma ReturnsAreKnownOnce(g: Lot, c: nat)
    requires Listed(g) && AllCount(g) && c in g.m
    ensures KnownOnce(g, Link(g, c).returned)
  {
    hide GoesOn, TakesFree;
    assert Valid(g, c);
    var refs := Link(g, c).returned;
    forall i | 0 <= i < |refs|
      ensures refs[i].chain == g.chain && refs[i].hash in g.m && Returned(g, refs[i].hash) <= 1 {
      assert HonestReturn(g, g.m[c], refs[i]);
    }
    var at: nat :| at < |g.keys| && g.keys[at] == c;
    forall i: nat, j: nat | i < j < |refs| ensures refs[i].hash != refs[j].hash {
      if refs[i].hash == refs[j].hash {
        OfHashTwice(refs, refs[i].hash, i, j);
        CountHoldsOne(g, |g.keys|, refs[i].hash, at);
        assert false;
      }
    }
  }

  ghost function BackOf(g: Lot, c: nat): real {
    if c in g.m then Back(g, g.m[c].link.returned) else 0.0
  }

  ghost function BackTo(g: Lot, i: int): real {
    if 0 <= i < |g.keys| && GivenBack(g, g.keys[i]) then Qty(g, g.keys[i]) else 0.0
  }

  ghost function BackFrom(g: Lot, c: nat, i: int): real {
    if c in g.m then BackAt(g, g.m[c].link.returned, i) else 0.0
  }

  // A release given back is given back by one link, whole.
  lemma BackIsWhole(g: Lot, i: nat)
    requires Listed(g) && AllCount(g) && i < |g.keys|
    ensures BackTo(g, i) == Sum(g.keys, c => BackFrom(g, c, i))
  {
    hide AllCount;
    var h := g.keys[i];
    assert Distinct(g.keys) && h in g.m && (forall c :: c in g.keys <==> c in g.m);
    var from := (c: nat) => BackFrom(g, c, i);
    assert forall c | c in g.m :: from(c) == if GivesBack(g.m[c].link, h) then Qty(g, h) else 0.0;
    if GivenBack(g, h) {
      var d :| d in g.m && GivesBack(g.m[d].link, h);
      forall j | 0 <= j < |g.keys| && g.keys[j] != d ensures from(g.keys[j]) == 0.0 {
        if GivesBack(g.m[g.keys[j]].link, h) { OneGivesBack(g, h, g.keys[j], d); }
      }
      SumPoint(g.keys, from, d);
    } else {
      SumZero(g.keys, from);
    }
    SumEq(g.keys, from, c => BackFrom(g, c, i));
  }

  // All that is given back, by those who give it and by what is given.
  lemma AllBack(g: Lot)
    requires Listed(g) && AllCount(g)
    ensures Sum(g.keys, c => BackOf(g, c)) == Sum(g.keys, h => if GivenBack(g, h) then Qty(g, h) else 0.0)
  {
    hide Back, BackAt, Qty, GivenBack, AllCount;
    var n := |g.keys|;
    var row := (c: nat) => ((i: int) => BackFrom(g, c, i));
    var col := (i: int) => ((c: nat) => BackFrom(g, c, i));
    var rowSum, colSum := (c: nat) => BackOf(g, c), (i: int) => BackTo(g, i);
    forall c | c in g.keys ensures rowSum(c) == SumTo(n, row(c)) {
      ReturnsAreKnownOnce(g, c);
      BackOverLinks(g, Link(g, c).returned);
      SumToEq(n, row(c), i => BackAt(g, Link(g, c).returned, i));
    }
    forall i | 0 <= i < n ensures colSum(i) == Sum(g.keys, col(i)) {
      BackIsWhole(g, i);
      SumEq(g.keys, col(i), c => BackFrom(g, c, i));
    }
    Exchange(g.keys, n, row, col, rowSum, colSum);
    var given := (h: nat) => if GivenBack(g, h) then Qty(g, h) else 0.0;
    SumIndexed(g.keys, given, n);
    assert g.keys[..n] == g.keys;
    SumToEq(n, colSum, i => if 0 <= i < n then given(g.keys[i]) else 0.0);
    SumEq(g.keys, rowSum, c => BackOf(g, c));
    SumEq(g.keys, given, h => if GivenBack(g, h) then Qty(g, h) else 0.0);
  }

  // The newest link.
  ghost predicate Newest(g: Lot, t: nat) {
    t in g.m && forall h | h in g.m :: g.m[h].link.number <= g.m[t].link.number
  }

  // Conservation: what the newest link counts as taken is what was taken and not given back,
  // within EPS a link, and no more than the lot.
  lemma GoodsAreConserved(g: Lot, t: nat)
    requires Listed(g) && AllCount(g) && Newest(g, t)
    ensures Abs(Link(g, t).after - Sum(g.keys, h => StillTaken(g, h))) <= EPS * ((Link(g, t).number + 1) as real)
    ensures Link(g, t).after <= g.qty + EPS
  {
    hide Back, GivenBack, GoesOn, HonestReturn;
    var s := Link(g, t).number;
    TakenIsNet(g, t, s);
    AllBack(g);
    var below := (h: nat) => NetIfBelow(g, s + 1, h);
    var back, still := (c: nat) => BackOf(g, c), (h: nat) => StillTaken(g, h);
    var given := (h: nat) => if GivenBack(g, h) then Qty(g, h) else 0.0;
    var qty, net := (h: nat) => Qty(g, h), (h: nat) => Net(g, h);
    SumEq(g.keys, below, net);
    SumEq(g.keys, below, h => NetIfBelow(g, s + 1, h));
    SumAdd(g.keys, net, back, qty);
    SumAdd(g.keys, still, given, qty);
    SumEq(g.keys, back, c => BackOf(g, c));
    SumEq(g.keys, given, h => if GivenBack(g, h) then Qty(g, h) else 0.0);
    SumEq(g.keys, still, h => StillTaken(g, h));
    assert Valid(g, t);
  }

  // ---------- Numbered lots ----------

  function UnitSet(k: LotLink): set<nat> { set i | 0 <= i < |k.units| :: k.units[i] }

  lemma {:induction false} AscendingSetSize(units: seq<nat>)
    requires forall i, j | 0 <= i < j < |units| :: units[i] < units[j]
    ensures |set i | 0 <= i < |units| :: units[i]| == |units|
  {
    if units != [] {
      var n := |units| - 1;
      AscendingSetSize(units[..n]);
      var less, all := set i | 0 <= i < n :: units[..n][i], set i | 0 <= i < |units| :: units[i];
      assert all == less + {units[n]};
      assert units[n] !in less;
    }
  }

  // The units the first n links of the list hold.
  function HeldByFirst(g: Lot, holder: Holders, n: nat): set<nat>
    requires n <= |g.keys|
  {
    set u | u in holder && holder[u] in g.keys[..n]
  }

  function HeldByLink(holder: Holders, h: nat): set<nat> {
    set u | u in holder && holder[u] == h
  }

  lemma FirstAndOne(g: Lot, holder: Holders, n: nat)
    requires n < |g.keys| && Distinct(g.keys)
    ensures |HeldByFirst(g, holder, n + 1)| == |HeldByFirst(g, holder, n)| + |HeldByLink(holder, g.keys[n])|
  {
    var less, here := HeldByFirst(g, holder, n), HeldByLink(holder, g.keys[n]);
    assert g.keys[..n + 1] == g.keys[..n] + [g.keys[n]];
    assert HeldByFirst(g, holder, n + 1) == less + here;
    assert less !! here;
  }

  lemma HeldByOne(g: Lot, s: nat, h: nat)
    requires Listed(g) && AllCount(g) && h in g.m && g.units != {}
    requires forall o | o in g.m :: g.m[o].link.number < s
    ensures |HeldByLink(HoldersAt(g, s), h)| as real == StillTaken(g, h)
  {
    var k, holder := Link(g, h), HoldersAt(g, s);
    forall u ensures (u in holder && holder[u] == h) <==> (!GivenBack(g, h) && u in UnitSet(k)) {
      HoldersAreStillOut(g, s, u, h);
      assert Valid(g, h);
      assert forall c | c in g.m :: Valid(g, c);
      hide HoldersAt, TakesFree, GoesOn;
      assert StillOut(g, s, u, h) <==> u in k.units && !GivenBack(g, h);
    }
    hide HoldersAt, GoesOn;
    assert Valid(g, h) && k.units != [];
    AscendingSetSize(k.units);
    assert HeldByLink(holder, h) == if GivenBack(g, h) then {} else UnitSet(k);
  }

  lemma {:induction false} HeldByFirstCounts(g: Lot, s: nat, n: nat)
    requires Listed(g) && AllCount(g) && g.units != {} && n <= |g.keys|
    requires forall o | o in g.m :: g.m[o].link.number < s
    ensures |HeldByFirst(g, HoldersAt(g, s), n)| as real == Sum(g.keys[..n], h => StillTaken(g, h))
  {
    hide HoldersAt, StillTaken, AllCount, HeldByFirst, HeldByLink;
    var holder := HoldersAt(g, s);
    if n == 0 {
      hide *;
      NobodyHolds(g, holder);
    } else {
      var h := g.keys[n - 1];
      HeldByFirstCounts(g, s, n - 1);
      HeldByOne(g, s, h);
      FirstAndOne(g, holder, n - 1);
      assert g.keys[..n] == g.keys[..n - 1] + [h];
      var still := (x: nat) => StillTaken(g, x);
      SumSnoc(g.keys[..n - 1], h, still);
      SumEq(g.keys[..n - 1], still, h => StillTaken(g, h));
      SumEq(g.keys[..n], still, h => StillTaken(g, h));
    }
  }

  lemma NobodyHolds(g: Lot, holder: Holders)
    ensures HeldByFirst(g, holder, 0) == {} && Sum(g.keys[..0], h => StillTaken(g, h)) == 0.0
  {
  }

  // In a lot counted piece by piece, the units held are as many as it counts as used.
  lemma UsedIsHeld(g: Lot, t: nat)
    requires Listed(g) && AllCount(g) && Newest(g, t) && g.units != {}
    ensures Abs(Link(g, t).after - |HoldersAt(g, Link(g, t).number + 1)| as real) <=
            EPS * ((Link(g, t).number + 1) as real)
  {
    hide HoldersAt, AllCount, StillTaken;
    var s := Link(g, t).number + 1;
    var holder := HoldersAt(g, s);
    GoodsAreConserved(g, t);
    HeldByFirstCounts(g, s, |g.keys|);
    assert g.keys[..|g.keys|] == g.keys;
    forall u | u in holder ensures holder[u] in g.keys {
      HoldersAreStillOut(g, s, u, holder[u]);
      hide Sound;
      assert Valid(g, holder[u]);
    }
    assert HeldByFirst(g, holder, |g.keys|) == holder.Keys;
    assert |holder.Keys| == |holder|;
  }

  // ---------- Through whom a unit is sold again ----------

  // A numbered output is as much as it has units (records/codec).
  predicate LotAdmitted(g: Lot) {
    g.units != {} ==> g.qty == |g.units| as real
  }

  // Every unit a link names is one of the lot's, and out with no link but one it gives back.
  ghost predicate OwnUnitsFree(g: Lot, c: nat)
    requires Listed(g) && c in g.m
  {
    && (g.units == {} <==> Link(g, c).units == [])
    && forall u | u in Link(g, c).units ::
         u in g.units && forall h | StillOut(g, Link(g, c).number, u, h) :: GivesBack(Link(g, c), h)
  }

  lemma CountsIfOwnUnitsFree(g: Lot, c: nat)
    requires Listed(g) && Sound(g, c)
    ensures Valid(g, c) <==> OwnUnitsFree(g, c)
  {
    var k, holder := Link(g, c), HoldersAt(g, Link(g, c).number);
    hide Sound, HoldersAt, StillOut, GivesBack;
    forall u ensures u !in Freed(holder, k) <==> forall h | StillOut(g, k.number, u, h) :: GivesBack(k, h) {
      if u in Freed(holder, k) { HoldersAreStillOut(g, k.number, u, holder[u]); }
      forall h | StillOut(g, k.number, u, h) ensures HeldBy(holder, u, h) { HoldersAreStillOut(g, k.number, u, h); }
    }
    hide Freed;
    assert TakesFree(g, k, Freed(holder, k)) <==> OwnUnitsFree(g, c) by {
      assert forall i | 0 <= i < |k.units| :: k.units[i] in k.units;
    }
  }

  // Of two links that count and name one unit, the earlier is given back by exactly one link,
  // a sound one in between; and that one counts exactly when its own units are free.
  lemma ResoldThroughOne(g: Lot, a: nat, b: nat, u: nat) returns (c: nat)
    requires Listed(g) && Valid(g, a) && Valid(g, b) && Link(g, a).number < Link(g, b).number
    requires u in Link(g, a).units && u in Link(g, b).units
    ensures Sound(g, c) && Link(g, a).number < Link(g, c).number <= Link(g, b).number
    ensures forall d | d in g.m :: GivesBack(Link(g, d), a) <==> d == c
    ensures Valid(g, c) <==> OwnUnitsFree(g, c)
  {
    c := SoldAgainOnlyIfGivenBack(g, a, b, u);
    hide Valid, OwnUnitsFree, GivesBack;
    forall d | d in g.m && GivesBack(Link(g, d), a) ensures d == c { OneReturn(g, a, c, d); }
    CountsIfOwnUnitsFree(g, c);
    hide Sound;
  }

  // When no sound link is refused for its units it is one that counts.
  lemma ResoldThroughCounting(g: Lot, a: nat, b: nat, u: nat) returns (c: nat)
    requires Listed(g) && (forall h | Sound(g, h) :: h in g.m && OwnUnitsFree(g, h))
    requires Valid(g, a) && Valid(g, b) && Link(g, a).number < Link(g, b).number
    requires u in Link(g, a).units && u in Link(g, b).units
    ensures Valid(g, c) && Link(g, a).number < Link(g, c).number <= Link(g, b).number
    ensures forall d | d in g.m :: GivesBack(Link(g, d), a) <==> d == c
  {
    c := ResoldThroughOne(g, a, b, u);
    hide Valid, OwnUnitsFree, GivesBack;
  }

  // ---------- A refused link still gives back ----------

  // Unit 1 is released, the release expires; a link naming a unit the lot has not returns it;
  // unit 1 is sold again.
  const FIRST := LotLink(1.0, 0, None, 1.0, [], [1])
  const SECOND := LotLink(1.0, 1, Some(Ref(0, 10)), 1.0, [Ref(0, 10)], [9])
  const THIRD := LotLink(1.0, 2, Some(Ref(0, 11)), 2.0, [], [1])

  function Resold(): Lot {
    Lot(0, 2.0, [10, 11, 12],
        map[10 := Observed(10, FIRST, 100, Some(500), false), 11 := Observed(11, SECOND, 1000, None, false),
            12 := Observed(12, THIRD, 1001, None, false)], {1, 2})
  }

  lemma ResoldIsListed()
    ensures Listed(Resold())
  {
    var g := Resold();
    assert g.keys[0] == 10 && g.keys[1] == 11 && g.keys[2] == 12;
  }

  lemma ResoldCounts()
    requires Listed(Resold())
    ensures Numbered(Resold(), 0) == 1 && Numbered(Resold(), 1) == 1 && Numbered(Resold(), 2) == 1
    ensures Returned(Resold(), 10) == 1
  {
    var g := Resold();
    forall s: nat | s < 3 ensures Numbered(g, s) == 1 {
      assert NumberCount(g, 1, s) == if s == 0 then 1 else 0;
      assert NumberCount(g, 2, s) == if s <= 1 then 1 else 0;
    }
    assert OfHash([Ref(0, 10)], 10) == 1 by { assert [Ref(0, 10)][..0] == []; }
    assert ReturnCount(g, 1, 10) == 0 && ReturnCount(g, 2, 10) == 1;
  }

  lemma ResoldIsSound()
    requires Listed(Resold())
    ensures SoundAt(Resold(), 0, 10) && SoundAt(Resold(), 1, 11) && SoundAt(Resold(), 2, 12)
  {
    hide Numbered, Returned, Back;
    var g := Resold();
    ResoldCounts();
    NothingBack(g);
    BackOneMore(g, [], Ref(0, 10));
    assert [] + [Ref(0, 10)] == [Ref(0, 10)];
  }

  lemma ResoldSteps()
    ensures var g, one := Resold(), map[1 := 10];
            && Held(g, map[], 10) == one && TakesFree(g, FIRST, Freed(map[], FIRST))
            && Held(g, one, 11) == map[] && !TakesFree(g, SECOND, Freed(one, SECOND))
            && TakesFree(g, THIRD, Freed(map[], THIRD))
  {
    assert FIRST.units[0] == 1 && THIRD.units[0] == 1 && SECOND.units[0] == 9;
    assert SECOND.returned[0].hash == 10 && Freed(map[1 := 10], SECOND) == map[];
    assert Freed(map[], FIRST) == map[];
    assert Taking(map[], [1], 10) == map[1 := 10];
  }

  lemma ResoldLinks()
    ensures var g := Resold();
            && (forall h | h in g.m :: Admitted(Link(g, h)))
            && (forall c | c in g.m && GivesBack(Link(g, c), 10) :: c == 11)
            && 1 in Link(g, 10).units && 1 in Link(g, 12).units
            && Link(g, 10) == FIRST && Link(g, 11) == SECOND && Link(g, 12) == THIRD
  {
    assert FIRST.units[0] == 1 && THIRD.units[0] == 1;
  }

  // A link refused for naming a unit the lot has not frees what it returns all the same: the
  // unit is sold again, though no link that counts gave it back.
  lemma RefusedLinkStillFrees()
    ensures var g := Resold();
            && Listed(g) && LotAdmitted(g) && (forall h | h in g.m :: Admitted(Link(g, h)))
            && Valid(g, 10) && Valid(g, 12) && 1 in Link(g, 10).units && 1 in Link(g, 12).units
            && forall c | c in g.m && GivesBack(Link(g, c), 10) :: !Valid(g, c)
  {
    hide Sound, Held, TakesFree, Freed, HoldersAt, Admitted, LotAdmitted, GivesBack, Resold, Listed;
    var g := Resold();
    LotIsAdmitted();
    ResoldIsListed();
    ResoldIsSound();
    ResoldSteps();
    ResoldLinks();
    NobodyAtFirst(g);
    HoldersAfter(g, 0, 10);
    HoldersAfter(g, 1, 11);
  }

  lemma LotIsAdmitted()
    ensures LotAdmitted(Resold())
  {
    assert |{1, 2}| == 2;
  }

  lemma NobodyAtFirst(g: Lot)
    requires Listed(g)
    ensures HoldersAt(g, 0) == map[]
  {
  }

  // ---------- A lot where all is well ----------

  // Of ten, four are released and the release expires; the next link gives them back and
  // takes six.
  function Restocked(): Lot {
    Lot(0, 10.0, [1, 2],
        map[1 := Observed(1, LotLink(4.0, 0, None, 4.0, [], []), 400, Some(500), false),
            2 := Observed(2, LotLink(6.0, 1, Some(Ref(0, 1)), 6.0, [Ref(0, 1)], []), 1000, None, false)], {})
  }

  lemma RestockedIsListed()
    ensures Listed(Restocked())
  {
    assert Restocked().keys[0] == 1 && Restocked().keys[1] == 2;
  }

  lemma RestockedCounts()
    requires Listed(Restocked())
    ensures Numbered(Restocked(), 0) == 1 && Numbered(Restocked(), 1) == 1 && Returned(Restocked(), 1) == 1
  {
    var g := Restocked();
    assert NumberCount(g, 1, 0) == 1 && NumberCount(g, 1, 1) == 0;
    assert OfHash([Ref(0, 1)], 1) == 1 by { assert [Ref(0, 1)][..0] == []; }
    assert ReturnCount(g, 1, 1) == 0;
  }

  lemma RestockedIsSound()
    requires Listed(Restocked())
    ensures Sound(Restocked(), 1) && Sound(Restocked(), 2)
  {
    hide Numbered, Returned, Back;
    var g := Restocked();
    RestockedCounts();
    NothingBack(g);
    BackOneMore(g, [], Ref(0, 1));
    assert [] + [Ref(0, 1)] == [Ref(0, 1)];
  }

  // Every link counts, so what is proved of such lots is not empty.
  lemma RestockedAllCount()
    ensures Listed(Restocked()) && AllCount(Restocked()) && Newest(Restocked(), 2)
  {
    RestockedIsListed();
    RestockedIsSound();
    hide Sound, HoldersAt, Freed;
  }
}
