// The sub-thread of one lot: releases, write-offs and spends, with returns of expired
// releases (records/goods_thread, check_lot). Quantities are reals; EPS is the 1e-6 the check
// allows.
module Lots {
  import opened Options
  import opened Sums

  const EPS: real := 0.000001

  datatype Ref = Ref(chain: nat, hash: nat)

  datatype LotLink = LotLink(qty: real, number: nat, prev: Option<Ref>, after: real, returned: seq<Ref>,
    units: seq<nat>)

  datatype Observed = Observed(hash: nat, link: LotLink, timestamp: int, expires: Option<int>, taken: bool)

  // The lot on the table: its links by hash, listed once each; its numbered units, if any.
  datatype Lot = Lot(chain: nat, qty: real, keys: seq<nat>, m: map<nat, Observed>, units: set<nat>)

  ghost predicate Listed(g: Lot) {
    && Distinct(g.keys)
    && (forall h :: h in g.keys <==> h in g.m)
  }

  function Link(g: Lot, h: nat): LotLink
    requires h in g.m
  {
    g.m[h].link
  }

  // ---------- Counting ----------

  function OfHash(refs: seq<Ref>, r: nat): nat {
    if refs == [] then 0 else OfHash(refs[..|refs| - 1], r) + if refs[|refs| - 1].hash == r then 1 else 0
  }

  ghost function NumberCount(g: Lot, n: nat, s: nat): nat
    requires Listed(g) && n <= |g.keys|
  {
    if n == 0 then 0 else NumberCount(g, n - 1, s) + if Link(g, g.keys[n - 1]).number == s then 1 else 0
  }

  ghost function ReturnCount(g: Lot, n: nat, r: nat): nat
    requires Listed(g) && n <= |g.keys|
  {
    if n == 0 then 0 else ReturnCount(g, n - 1, r) + OfHash(Link(g, g.keys[n - 1]).returned, r)
  }

  ghost function Numbered(g: Lot, s: nat): nat requires Listed(g) { NumberCount(g, |g.keys|, s) }

  ghost function Returned(g: Lot, r: nat): nat requires Listed(g) { ReturnCount(g, |g.keys|, r) }

  // ---------- A link by itself ----------

  function Abs(x: real): real { if x < 0.0 then -x else x }

  ghost function Back(g: Lot, returned: seq<Ref>): real {
    Sum(returned, (r: Ref) => if r.chain == g.chain && r.hash in g.m then g.m[r.hash].link.qty else 0.0)
  }

  predicate ReturnsKnown(g: Lot, k: LotLink) {
    forall i | 0 <= i < |k.returned| :: k.returned[i].chain == g.chain ==> k.returned[i].hash in g.m
  }

  // What is given back: an earlier release of this lot, expired by then, taken by nobody and
  // returned once.
  ghost predicate HonestReturn(g: Lot, o: Observed, r: Ref)
    requires Listed(g)
  {
    && r.chain == g.chain
    && (r.hash in g.m ==>
          var b := g.m[r.hash];
          && b.expires.Some? && b.expires.value <= o.timestamp && !b.taken
          && Returned(g, r.hash) <= 1 && b.link.number < o.link.number)
  }

  // The link goes on from its previous one, when that and the returns are on the table.
  ghost predicate GoesOn(g: Lot, k: LotLink) {
    match k.prev
    case None => Abs(k.after - k.qty) <= EPS
    case Some(p) =>
      p.chain == g.chain &&
      (p.hash in g.m ==>
         && Link(g, p.hash).number + 1 == k.number
         && (ReturnsKnown(g, k) ==> Abs(Link(g, p.hash).after + k.qty - Back(g, k.returned) - k.after) <= EPS))
  }

  ghost predicate Sound(g: Lot, h: nat)
    requires Listed(g)
  {
    && h in g.m
    && var o := g.m[h];
       && Numbered(g, o.link.number) == 1 && o.link.after <= g.qty + EPS
       && (forall i | 0 <= i < |o.link.returned| :: HonestReturn(g, o, o.link.returned[i]))
       && GoesOn(g, o.link)
  }

  // A return or a previous link that is not on the table.
  predicate MissesOne(g: Lot, k: LotLink) {
    !ReturnsKnown(g, k) || (k.prev.Some? && k.prev.value.chain == g.chain && k.prev.value.hash !in g.m)
  }

  // ---------- Numbered units ----------

  type Holders = map<nat, nat>

  predicate GivesBack(k: LotLink, h: nat) {
    exists i | 0 <= i < |k.returned| :: k.returned[i].hash == h
  }

  function Freed(holder: Holders, k: LotLink): Holders {
    map u | u in holder && !GivesBack(k, holder[u]) :: holder[u]
  }

  // A link of a numbered lot names units of the lot nobody holds; one of a lot by quantity, none.
  predicate TakesFree(g: Lot, k: LotLink, holder: Holders) {
    && (g.units == {} <==> k.units == [])
    && forall i | 0 <= i < |k.units| :: k.units[i] in g.units && k.units[i] !in holder
  }

  function Taking(holder: Holders, units: seq<nat>, h: nat): Holders {
    map u | u in holder.Keys + (set i | 0 <= i < |units| :: units[i]) :: if u in units then h else holder[u]
  }

  function Held(g: Lot, holder: Holders, h: nat): Holders
    requires h in g.m
  {
    var k := Link(g, h);
    var freed := Freed(holder, k);
    if TakesFree(g, k, freed) then Taking(freed, k.units, h) else freed
  }

  ghost predicate SoundAt(g: Lot, s: nat, h: nat)
    requires Listed(g)
  {
    h in g.m && Sound(g, h) && Link(g, h).number == s
  }

  ghost predicate SomeSoundAt(g: Lot, s: nat)
    requires Listed(g)
  {
    exists h :: SoundAt(g, s, h)
  }

  // Who holds which unit after the sound links numbered below s.
  ghost function HoldersAt(g: Lot, s: nat): Holders
    requires Listed(g)
  {
    if s == 0 then map[]
    else if SomeSoundAt(g, s - 1) then
      var h :| SoundAt(g, s - 1, h);
      Held(g, HoldersAt(g, s - 1), h)
    else HoldersAt(g, s - 1)
  }

  // A link that counts.
  ghost predicate Valid(g: Lot, h: nat)
    requires Listed(g)
  {
    Sound(g, h) && TakesFree(g, Link(g, h), Freed(HoldersAt(g, Link(g, h).number), Link(g, h)))
  }

  // ---------- One link a number ----------

  lemma {:induction false} CountedTwice(g: Lot, n: nat, s: nat, i: nat, j: nat)
    requires Listed(g) && i < j < n <= |g.keys|
    requires Link(g, g.keys[i]).number == s && Link(g, g.keys[j]).number == s
    ensures NumberCount(g, n, s) >= 2
  {
    if j == n - 1 { CountedOnce(g, n - 1, s, i); } else { CountedTwice(g, n - 1, s, i, j); }
  }

  lemma {:induction false} CountedOnce(g: Lot, n: nat, s: nat, i: nat)
    requires Listed(g) && i < n <= |g.keys| && Link(g, g.keys[i]).number == s
    ensures NumberCount(g, n, s) >= 1
  {
    if i < n - 1 { CountedOnce(g, n - 1, s, i); }
  }

  lemma OneSoundANumber(g: Lot, h: nat, o: nat)
    requires Listed(g) && Sound(g, h) && o in g.m && Link(g, o).number == Link(g, h).number
    ensures o == h
  {
    var i :| 0 <= i < |g.keys| && g.keys[i] == h;
    var j :| 0 <= j < |g.keys| && g.keys[j] == o;
    var s := Link(g, h).number;
    if i < j { CountedTwice(g, |g.keys|, s, i, j); }
    if j < i { CountedTwice(g, |g.keys|, s, j, i); }
  }

  lemma HoldersAfter(g: Lot, s: nat, h: nat)
    requires Listed(g) && SoundAt(g, s, h)
    ensures HoldersAt(g, s + 1) == Held(g, HoldersAt(g, s), h)
  {
    forall o | SoundAt(g, s, o) ensures o == h { OneSoundANumber(g, h, o); }
    hide Sound, Held;
  }

  // ---------- Who holds a unit ----------

  // Taken by a link that counts and given back by no sound link numbered below s.
  ghost predicate StillOut(g: Lot, s: nat, u: nat, h: nat)
    requires Listed(g)
  {
    && Valid(g, h) && Link(g, h).number < s && u in Link(g, h).units
    && forall c | Sound(g, c) && Link(g, c).number < s :: !GivesBack(Link(g, c), h)
  }

  predicate HeldBy(holder: Holders, u: nat, h: nat) {
    u in holder && holder[u] == h
  }

  lemma NotGivenBackBefore(g: Lot, h: nat, c: nat)
    requires Listed(g) && h in g.m && Sound(g, c) && GivesBack(Link(g, c), h)
    ensures Link(g, h).number < Link(g, c).number && g.m[h].expires.Some? && !g.m[h].taken
    ensures g.m[h].expires.value <= g.m[c].timestamp && Returned(g, h) <= 1
  {
    var i :| 0 <= i < |Link(g, c).returned| && Link(g, c).returned[i].hash == h;
    assert HonestReturn(g, g.m[c], Link(g, c).returned[i]);
  }

  lemma StillOutOneMore(g: Lot, s: nat, u: nat, h: nat, c: nat)
    requires Listed(g) && SoundAt(g, s, c) && h != c
    ensures StillOut(g, s + 1, u, h) <==> StillOut(g, s, u, h) && !GivesBack(Link(g, c), h)
  {
    hide TakesFree;
    if Valid(g, h) && Link(g, h).number == s { OneSoundANumber(g, h, c); }
    forall o | Sound(g, o) && Link(g, o).number == s ensures o == c { OneSoundANumber(g, o, c); }
    hide Sound;
  }

  lemma StillOutItself(g: Lot, s: nat, u: nat, c: nat)
    requires Listed(g) && SoundAt(g, s, c)
    ensures StillOut(g, s + 1, u, c) <==> Valid(g, c) && u in Link(g, c).units
  {
    hide TakesFree;
    forall o | Sound(g, o) && Link(g, o).number < s + 1 ensures !GivesBack(Link(g, o), c) {
      if GivesBack(Link(g, o), c) { NotGivenBackBefore(g, c, o); }
    }
    hide Sound;
  }

  lemma StepOfHolders(g: Lot, s: nat, u: nat, h: nat, c: nat)
    requires Listed(g) && SoundAt(g, s, c)
    requires HeldBy(HoldersAt(g, s), u, h) <==> StillOut(g, s, u, h)
    ensures HeldBy(Held(g, HoldersAt(g, s), c), u, h) <==> StillOut(g, s + 1, u, h)
  {
    var k, freed := Link(g, c), Freed(HoldersAt(g, s), Link(g, c));
    assert Valid(g, c) <==> TakesFree(g, k, freed) by { hide Freed, TakesFree; }
    assert HeldBy(freed, u, h) <==> HeldBy(HoldersAt(g, s), u, h) && !GivesBack(k, h);
    if h == c {
      StillOutItself(g, s, u, c);
      assert !StillOut(g, s, u, c);
    } else {
      StillOutOneMore(g, s, u, h, c);
    }
    hide Sound, HoldersAt, Valid, StillOut;
  }

  lemma {:induction false} HoldersAreStillOut(g: Lot, s: nat, u: nat, h: nat)
    requires Listed(g)
    ensures HeldBy(HoldersAt(g, s), u, h) <==> StillOut(g, s, u, h)
  {
    hide Sound, Freed, Taking, TakesFree;
    if s > 0 {
      HoldersAreStillOut(g, s - 1, u, h);
      if SomeSoundAt(g, s - 1) {
        var c :| SoundAt(g, s - 1, c) && HoldersAt(g, s) == Held(g, HoldersAt(g, s - 1), c);
        StepOfHolders(g, s - 1, u, h, c);
      } else {
        NothingAt(g, s - 1, u, h);
      }
    }
  }

  lemma NothingAt(g: Lot, s: nat, u: nat, h: nat)
    requires Listed(g) && !SomeSoundAt(g, s)
    ensures StillOut(g, s, u, h) <==> StillOut(g, s + 1, u, h)
  {
    hide TakesFree;
    assert forall c | Sound(g, c) :: c in g.m && (Link(g, c).number == s ==> SoundAt(g, s, c));
    hide Sound;
  }

  // ---------- Nothing is sold twice ----------

  // Of two links that count and name one unit, the earlier was a release that had expired,
  // was taken by nobody, and was given back, once, by a sound link no later than the other.
  lemma SoldAgainOnlyIfGivenBack(g: Lot, a: nat, b: nat, u: nat) returns (c: nat)
    requires Listed(g) && Valid(g, a) && Valid(g, b) && Link(g, a).number < Link(g, b).number
    requires u in Link(g, a).units && u in Link(g, b).units
    ensures Sound(g, c) && Link(g, a).number < Link(g, c).number <= Link(g, b).number && GivesBack(Link(g, c), a)
    ensures g.m[a].expires.Some? && g.m[a].expires.value <= g.m[c].timestamp && !g.m[a].taken && Returned(g, a) == 1
  {
    var s := Link(g, b).number;
    HoldersAreStillOut(g, s, u, a);
    if StillOut(g, s, u, a) {
      c := b;
    } else {
      c :| Sound(g, c) && Link(g, c).number < s && GivesBack(Link(g, c), a);
    }
    NotGivenBackBefore(g, a, c);
    GivenBackCounts(g, a, c);
  }

  lemma {:induction false} OfHashCounts(refs: seq<Ref>, r: nat, i: nat)
    requires i < |refs| && refs[i].hash == r
    ensures OfHash(refs, r) >= 1
  {
    if i < |refs| - 1 { OfHashCounts(refs[..|refs| - 1], r, i); }
  }

  lemma {:induction false} GivenBackCounted(g: Lot, n: nat, r: nat, i: nat)
    requires Listed(g) && i < n <= |g.keys| && GivesBack(Link(g, g.keys[i]), r)
    ensures ReturnCount(g, n, r) >= 1
  {
    if i < n - 1 {
      GivenBackCounted(g, n - 1, r, i);
    } else {
      var refs := Link(g, g.keys[i]).returned;
      var j :| 0 <= j < |refs| && refs[j].hash == r;
      OfHashCounts(refs, r, j);
    }
  }

  lemma GivenBackCounts(g: Lot, r: nat, c: nat)
    requires Listed(g) && c in g.m && GivesBack(Link(g, c), r)
    ensures Returned(g, r) >= 1
  {
    var i :| 0 <= i < |g.keys| && g.keys[i] == c;
    GivenBackCounted(g, |g.keys|, r, i);
  }
}
