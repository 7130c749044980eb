// A lot as its sellers write it: link after link, each from the one before it. Which links are
// written well is said of the row alone — of what stands earlier in it — and exactly such a row
// counts from end to end.
module LotThread {
  import opened Options
  import opened Sums
  import opened Lots
  import opened LotConservation

  // The terms of a lot: whose, how much, and its numbered units, if any.
  datatype Terms = Terms(chain: nat, qty: real, units: set<nat>)

  // Links under their own numbers, each block once.
  ghost predicate InRow(ls: seq<Observed>) {
    && (forall i | 0 <= i < |ls| :: ls[i].link.number == i)
    && forall i, j | 0 <= i < j < |ls| :: ls[i].hash != ls[j].hash
  }

  // The first link of a lot, and no other, has none before it and returns nothing (records/codec).
  ghost predicate Begins(ls: seq<Observed>) {
    forall i | 0 <= i < |ls| ::
      (i == 0 <==> ls[i].link.prev.None?) && (i == 0 ==> ls[i].link.returned == [])
  }

  predicate Returns(k: LotLink, b: Observed) {
    exists p :: 0 <= p < |k.returned| && k.returned[p].hash == b.hash
  }

  // The quantity the i-th link returns, of the links before it.
  ghost function ReturnedBy(ls: seq<Observed>, i: nat): real
    requires i < |ls|
  {
    SumTo(i, j => if 0 <= j < i && Returns(ls[i].link, ls[j]) then ls[j].link.qty else 0.0)
  }

  // It goes on from the link before it, by what it takes less what it returns.
  ghost predicate Follows(t: Terms, ls: seq<Observed>, i: nat)
    requires i < |ls|
  {
    var k := ls[i].link;
    if i == 0 then k.prev.None? && k.returned == [] && -0.000001 <= k.after - k.qty <= 0.000001
    else
      && k.prev == Some(Ref(t.chain, ls[i - 1].hash))
      && -0.000001 <= ls[i - 1].link.after + k.qty - ReturnedBy(ls, i) - k.after <= 0.000001
  }

  // It returns different earlier releases, however far back, that had expired by then, were
  // taken by nobody, and were not returned before.
  ghost predicate ReturnsFairly(t: Terms, ls: seq<Observed>, i: nat)
    requires i < |ls|
  {
    var k := ls[i].link;
    && (forall p | 0 <= p < |k.returned| ::
          k.returned[p].chain == t.chain && exists j: nat :: j < i && k.returned[p].hash == ls[j].hash)
    && (forall p, q | 0 <= p < q < |k.returned| :: k.returned[p].hash != k.returned[q].hash)
    && forall j: nat | j < i && Returns(k, ls[j]) ::
         && ls[j].expires.Some? && ls[j].expires.value <= ls[i].timestamp && !ls[j].taken
         && forall c: nat | c < i :: !Returns(ls[c].link, ls[j])
  }

  // It names units of the lot, each returned since whenever it was named before; of a lot without
  // numbered units it names none.
  ghost predicate NamesFree(t: Terms, ls: seq<Observed>, i: nat)
    requires i < |ls|
  {
    var k := ls[i].link;
    && (t.units == {} <==> k.units == [])
    && forall u | u in k.units ::
         && u in t.units
         && forall j: nat | j < i && u in ls[j].link.units ::
              exists c: nat :: j < c <= i && Returns(ls[c].link, ls[j])
  }

  ghost predicate WrittenWell(t: Terms, ls: seq<Observed>, i: nat)
    requires i < |ls|
  {
    Follows(t, ls, i) && ReturnsFairly(t, ls, i) && NamesFree(t, ls, i) && ls[i].link.after <= t.qty + 0.000001
  }

  ghost predicate AllWell(t: Terms, ls: seq<Observed>) {
    forall i: nat | i < |ls| :: WrittenWell(t, ls, i)
  }

  // Every link counts, and none names one that is missing.
  ghost predicate Whole(g: Lot)
    requires Listed(g)
  {
    forall h | h in g.m :: Valid(g, h) && !MissesOne(g, Link(g, h))
  }

  // The table that holds exactly this row.
  ghost predicate Holds(g: Lot, t: Terms, ls: seq<Observed>) {
    && Listed(g) && g.chain == t.chain && g.qty == t.qty && g.units == t.units
    && (forall i | 0 <= i < |ls| :: ls[i].hash in g.m && g.m[ls[i].hash] == ls[i])
    && forall h | h in g.m :: exists i: nat :: i < |ls| && ls[i].hash == h
  }

  // ---------- Counting on the table ----------

  lemma {:induction false} OnlyOneNumbered(g: Lot, n: nat, s: nat, at: nat)
    requires Listed(g) && n <= |g.keys| && at < |g.keys|
    requires forall i | 0 <= i < |g.keys| :: Link(g, g.keys[i]).number == s <==> i == at
    ensures NumberCount(g, n, s) == if at < n then 1 else 0
  {
    if n > 0 { OnlyOneNumbered(g, n - 1, s, at); }
  }

  lemma NumberedOnce(g: Lot, t: Terms, ls: seq<Observed>, i: nat)
    requires Holds(g, t, ls) && InRow(ls) && i < |ls|
    ensures Numbered(g, i) == 1
  {
    assert ls[i].hash in g.m && ls[i].hash in g.keys;
    var at: nat :| at < |g.keys| && g.keys[at] == ls[i].hash;
    forall j | 0 <= j < |g.keys| ensures Link(g, g.keys[j]).number == i <==> j == at {
      assert g.keys[j] in g.m;
      var c: nat :| c < |ls| && ls[c].hash == g.keys[j];
    }
    OnlyOneNumbered(g, |g.keys|, i, at);
  }

  lemma {:induction false} OfHashOnce(refs: seq<Ref>, r: nat)
    requires forall p, q | 0 <= p < q < |refs| :: refs[p].hash != refs[q].hash
    ensures OfHash(refs, r) <= 1
    ensures OfHash(refs, r) == 1 ==> exists p :: 0 <= p < |refs| && refs[p].hash == r
  {
    if refs != [] {
      OfHashOnce(refs[..|refs| - 1], r);
      if OfHash(refs[..|refs| - 1], r) == 1 {
        var p :| 0 <= p < |refs| - 1 && refs[..|refs| - 1][p].hash == r;
        assert refs[p].hash == r;
      }
    }
  }

  lemma {:induction false} ReturnedOnce(g: Lot, n: nat, r: nat, d: nat)
    requires Listed(g) && n <= |g.keys|
    requires forall i | 0 <= i < |g.keys| :: OfHash(Link(g, g.keys[i]).returned, r) <= if g.keys[i] == d then 1 else 0
    ensures ReturnCount(g, n, r) <= if d in g.keys[..n] then 1 else 0
  {
    if n > 0 {
      ReturnedOnce(g, n - 1, r, d);
      assert g.keys[..n] == g.keys[..n - 1] + [g.keys[n - 1]];
      assert g.keys[n - 1] !in g.keys[..n - 1];
    }
  }

  // ---------- Written well, a row counts ----------

  lemma ReturnedAtMostOnce(g: Lot, t: Terms, ls: seq<Observed>, j: nat)
    requires Holds(g, t, ls) && InRow(ls) && j < |ls| && forall i: nat | i < |ls| :: ReturnsFairly(t, ls, i)
    ensures Returned(g, ls[j].hash) <= 1
  {
    var r := ls[j].hash;
    var d := if exists i: nat :: i < |ls| && Returns(ls[i].link, ls[j])
             then var i: nat :| i < |ls| && Returns(ls[i].link, ls[j]); i else 0;
    forall k | 0 <= k < |g.keys|
      ensures OfHash(Link(g, g.keys[k]).returned, r) <= if g.keys[k] == ls[d].hash then 1 else 0
    {
      assert g.keys[k] in g.m;
      var i: nat :| i < |ls| && ls[i].hash == g.keys[k];
      assert ReturnsFairly(t, ls, i);
      OfHashOnce(ls[i].link.returned, r);
      if OfHash(ls[i].link.returned, r) == 1 {
        assert Returns(ls[i].link, ls[j]);
        ReturnedByEarlier(t, ls, j, i);
        ReturnedByEarlier(t, ls, j, d);
        assert ReturnsFairly(t, ls, d);
        assert i == d;
      }
    }
    ReturnedOnce(g, |g.keys|, r, ls[d].hash);
  }

  lemma ReturnedByEarlier(t: Terms, ls: seq<Observed>, j: nat, i: nat)
    requires InRow(ls) && j < |ls| && i < |ls| && ReturnsFairly(t, ls, i) && Returns(ls[i].link, ls[j])
    ensures j < i
  {
    var p :| 0 <= p < |ls[i].link.returned| && ls[i].link.returned[p].hash == ls[j].hash;
    var c: nat :| c < i && ls[i].link.returned[p].hash == ls[c].hash;
    assert c == j;
  }

  // The table listed in the order of the row.
  function Arranged(g: Lot, ls: seq<Observed>): Lot {
    g.(keys := seq(|ls|, i requires 0 <= i < |ls| => ls[i].hash))
  }

  lemma ArrangedIsListed(g: Lot, t: Terms, ls: seq<Observed>)
    requires Holds(g, t, ls) && InRow(ls)
    ensures Listed(Arranged(g, ls))
  {
    forall h | h in g.m ensures h in Arranged(g, ls).keys {
      var j: nat :| j < |ls| && ls[j].hash == h;
      assert Arranged(g, ls).keys[j] == h;
    }
  }

  lemma KnownArranged(g: Lot, t: Terms, ls: seq<Observed>, i: nat)
    requires Holds(g, t, ls) && InRow(ls) && i < |ls| && ReturnsFairly(t, ls, i)
    ensures KnownOnce(Arranged(g, ls), ls[i].link.returned)
  {
    var k := ls[i].link;
    forall p | 0 <= p < |k.returned| ensures k.returned[p].hash in g.m {
      ReturnedIsEarlier(t, ls, i, p);
    }
  }

  lemma ReturnedIsEarlier(t: Terms, ls: seq<Observed>, i: nat, p: nat)
    requires i < |ls| && ReturnsFairly(t, ls, i) && p < |ls[i].link.returned|
    ensures exists j: nat :: j < i && ls[j].hash == ls[i].link.returned[p].hash
  {
    assert ls[i].link.returned[p].chain == t.chain;
  }

  lemma BackAtPlace(g: Lot, t: Terms, ls: seq<Observed>, i: nat, j: nat)
    requires Holds(g, t, ls) && InRow(ls) && i < |ls| && ReturnsFairly(t, ls, i) && j < |ls|
    ensures BackAt(Arranged(g, ls), ls[i].link.returned, j) ==
            if j < i && Returns(ls[i].link, ls[j]) then ls[j].link.qty else 0.0
  {
    if Returns(ls[i].link, ls[j]) { ReturnedByEarlier(t, ls, j, i); }
    assert Arranged(g, ls).keys[j] == ls[j].hash;
    hide ReturnsFairly;
  }

  // What a link returns, over the table and over the row.
  lemma BackIsReturnedBy(g: Lot, t: Terms, ls: seq<Observed>, i: nat)
    requires Holds(g, t, ls) && InRow(ls) && i < |ls| && ReturnsFairly(t, ls, i)
    ensures Back(g, ls[i].link.returned) == ReturnedBy(ls, i)
  {
    var k, row := ls[i].link, Arranged(g, ls);
    ArrangedIsListed(g, t, ls);
    KnownArranged(g, t, ls, i);
    forall j: nat | j < |ls|
      ensures BackAt(row, k.returned, j) == if j < i && Returns(k, ls[j]) then ls[j].link.qty else 0.0
    {
      BackAtPlace(g, t, ls, i, j);
    }
    hide Holds, InRow, ReturnsFairly, Returns, BackAt, Listed, KnownOnce;
    BackOverLinks(row, k.returned);
    var at, early := (j: int) => BackAt(row, k.returned, j),
                     (j: int) => if 0 <= j < i && Returns(k, ls[j]) then ls[j].link.qty else 0.0;
    SumToEq(|ls|, at, early);
    SumToTail(i, |ls|, early);
    SumToEq(i, early, j => if 0 <= j < i && Returns(ls[i].link, ls[j]) then ls[j].link.qty else 0.0);
    SumToEq(|ls|, at, j => BackAt(row, k.returned, j));
    SumEq(k.returned, (r: Ref) => if r.chain == g.chain && r.hash in g.m then g.m[r.hash].link.qty else 0.0,
          (r: Ref) => if r.chain == row.chain && r.hash in row.m then row.m[r.hash].link.qty else 0.0);
  }

  lemma {:induction false} SumToTail(i: nat, n: nat, f: int -> real)
    requires i <= n && forall j | i <= j < n :: f(j) == 0.0
    ensures SumTo(n, f) == SumTo(i, f)
  {
    if i < n { SumToTail(i, n - 1, f); }
  }

  lemma WellWrittenIsSound(g: Lot, t: Terms, ls: seq<Observed>, i: nat)
    requires Holds(g, t, ls) && InRow(ls) && i < |ls| && forall j: nat | j < |ls| :: WrittenWell(t, ls, j)
    ensures Sound(g, ls[i].hash) && !MissesOne(g, ls[i].link)
  {
    var k := ls[i].link;
    assert WrittenWell(t, ls, i);
    hide Numbered, Returned, Back, ReturnedBy, NamesFree;
    NumberedOnce(g, t, ls, i);
    BackIsReturnedBy(g, t, ls, i);
    forall p | 0 <= p < |k.returned| ensures k.returned[p].hash in g.m && HonestReturn(g, ls[i], k.returned[p]) {
      var j: nat :| j < i && k.returned[p].hash == ls[j].hash;
      assert Returns(k, ls[j]);
      forall c: nat | c < |ls| ensures ReturnsFairly(t, ls, c) { assert WrittenWell(t, ls, c); }
      ReturnedAtMostOnce(g, t, ls, j);
    }
  }

  lemma WellWrittenTakesFree(g: Lot, t: Terms, ls: seq<Observed>, i: nat)
    requires Holds(g, t, ls) && InRow(ls) && i < |ls| && NamesFree(t, ls, i)
    requires forall j: nat | j < |ls| :: Sound(g, ls[j].hash)
    ensures Valid(g, ls[i].hash)
  {
    var k := ls[i].link;
    forall u, x | u in k.units && StillOut(g, i, u, x) ensures GivesBack(k, x) { OutIsReturned(g, t, ls, i, u, x); }
    hide Sound, TakesFree, HoldersAt, StillOut, GivesBack, Valid, InRow, WrittenWell;
    assert OwnUnitsFree(g, ls[i].hash) by { hide Holds; }
    CountsIfOwnUnitsFree(g, ls[i].hash);
  }

  lemma OutIsReturned(g: Lot, t: Terms, ls: seq<Observed>, i: nat, u: nat, x: nat)
    requires Holds(g, t, ls) && InRow(ls) && i < |ls| && NamesFree(t, ls, i) && u in ls[i].link.units
    requires forall j: nat | j < |ls| :: Sound(g, ls[j].hash)
    requires StillOut(g, i, u, x)
    ensures GivesBack(ls[i].link, x)
  {
    hide Sound, Valid, Listed, StillOut, InRow;
    NotSinceReturned(g, i, u, x);
    var j: nat :| j < |ls| && ls[j].hash == x;
    Numbers(g, t, ls, j);
    var c: nat :| j < c <= i && Returns(ls[c].link, ls[j]);
    hide NamesFree;
    Numbers(g, t, ls, c);
    assert GivesBack(ls[c].link, x);
  }

  lemma Numbers(g: Lot, t: Terms, ls: seq<Observed>, j: nat)
    requires Holds(g, t, ls) && InRow(ls) && j < |ls|
    ensures ls[j].hash in g.m && Link(g, ls[j].hash) == ls[j].link && ls[j].link.number == j
  {
  }

  lemma NotSinceReturned(g: Lot, s: nat, u: nat, x: nat)
    requires Listed(g) && StillOut(g, s, u, x)
    ensures x in g.m && Link(g, x).number < s && u in Link(g, x).units
    ensures forall c | Sound(g, c) && Link(g, c).number < s :: !GivesBack(Link(g, c), x)
  {
    StillOutIsLink(g, s, u, x);
    hide Sound, Valid;
  }

  lemma StillOutIsLink(g: Lot, s: nat, u: nat, x: nat)
    requires Listed(g) && StillOut(g, s, u, x)
    ensures x in g.m
  {
  }

  // ---------- Counting, it is written well ----------

  lemma CountingReturnsFairly(g: Lot, t: Terms, ls: seq<Observed>, i: nat)
    requires Holds(g, t, ls) && InRow(ls) && i < |ls|
    requires forall j: nat | j < |ls| :: Sound(g, ls[j].hash) && !MissesOne(g, ls[j].link)
    ensures ReturnsFairly(t, ls, i)
  {
    var k := ls[i].link;
    hide GoesOn, Numbered;
    assert Sound(g, ls[i].hash);
    forall p | 0 <= p < |k.returned|
      ensures k.returned[p].chain == t.chain && exists j: nat :: j < i && k.returned[p].hash == ls[j].hash
    {
      assert HonestReturn(g, ls[i], k.returned[p]) && k.returned[p].hash in g.m;
      var j: nat :| j < |ls| && ls[j].hash == k.returned[p].hash;
      assert j < i;
    }
    forall p, q | 0 <= p < q < |k.returned| ensures k.returned[p].hash != k.returned[q].hash {
      if k.returned[p].hash == k.returned[q].hash {
        assert HonestReturn(g, ls[i], k.returned[p]);
        var at: nat :| at < |g.keys| && g.keys[at] == ls[i].hash;
        OfHashTwice(k.returned, k.returned[p].hash, p, q);
        CountHoldsOne(g, |g.keys|, k.returned[p].hash, at);
        assert false;
      }
    }
    forall j: nat | j < i && Returns(k, ls[j])
      ensures ls[j].expires.Some? && ls[j].expires.value <= ls[i].timestamp && !ls[j].taken
      ensures forall c: nat | c < i :: !Returns(ls[c].link, ls[j])
    {
      assert GivesBack(k, ls[j].hash);
      NotGivenBackBefore(g, ls[j].hash, ls[i].hash);
      forall c: nat | c < i ensures !Returns(ls[c].link, ls[j]) {
        if Returns(ls[c].link, ls[j]) {
          assert GivesBack(ls[c].link, ls[j].hash);
          OneReturn(g, ls[j].hash, ls[c].hash, ls[i].hash);
          assert false;
        }
      }
    }
  }

  lemma CountingFollows(g: Lot, t: Terms, ls: seq<Observed>, i: nat)
    requires Holds(g, t, ls) && InRow(ls) && Begins(ls) && i < |ls| && ReturnsFairly(t, ls, i)
    requires Sound(g, ls[i].hash) && !MissesOne(g, ls[i].link)
    ensures Follows(t, ls, i) && ls[i].link.after <= t.qty + 0.000001
  {
    hide Numbered, Back, ReturnedBy, HonestReturn, ReturnsFairly;
    BackIsReturnedBy(g, t, ls, i);
    if i > 0 {
      var p := ls[i].link.prev.value;
      var j: nat :| j < |ls| && ls[j].hash == p.hash;
      assert j == i - 1;
    }
  }

  lemma CountingNamesFree(g: Lot, t: Terms, ls: seq<Observed>, i: nat)
    requires Holds(g, t, ls) && InRow(ls) && i < |ls|
    requires forall j: nat | j < |ls| :: Valid(g, ls[j].hash)
    ensures NamesFree(t, ls, i)
  {
    var k := ls[i].link;
    hide Sound, HoldersAt;
    forall u | u in k.units
      ensures u in t.units
      ensures forall j: nat | j < i && u in ls[j].link.units ::
                exists c: nat :: j < c <= i && Returns(ls[c].link, ls[j])
    {
      assert Valid(g, ls[i].hash);
      forall j: nat | j < i && u in ls[j].link.units
        ensures exists c: nat :: j < c <= i && Returns(ls[c].link, ls[j])
      {
        assert Valid(g, ls[j].hash);
        var x := SoldAgainOnlyIfGivenBack(g, ls[j].hash, ls[i].hash, u);
        SoundIsLink(g, x);
        var c: nat :| c < |ls| && ls[c].hash == x;
        assert Returns(ls[c].link, ls[j]);
      }
    }
    assert Valid(g, ls[i].hash);
  }

  lemma SoundIsLink(g: Lot, x: nat)
    requires Listed(g) && Sound(g, x)
    ensures x in g.m
  {
  }

  // ---------- Exactly ----------

  // A row counts from end to end, with nothing missing, exactly when every link is written well.
  lemma CountsExactlyWhenWell(g: Lot, t: Terms, ls: seq<Observed>)
    requires Holds(g, t, ls) && InRow(ls) && Begins(ls)
    ensures Whole(g) <==> AllWell(t, ls)
  {
    hide Valid, MissesOne, InRow, Begins, WrittenWell;
    if AllWell(t, ls) { WellCounts(g, t, ls); }
    if Whole(g) {
      forall i: nat | i < |ls| ensures WrittenWell(t, ls, i) { CountingIsWell(g, t, ls, i); }
    }
  }

  lemma WellCounts(g: Lot, t: Terms, ls: seq<Observed>)
    requires Holds(g, t, ls) && InRow(ls) && AllWell(t, ls)
    ensures Whole(g)
  {
    hide InRow, Sound, MissesOne, Valid;
    forall i: nat | i < |ls| ensures Sound(g, ls[i].hash) && !MissesOne(g, ls[i].link) {
      WellWrittenIsSound(g, t, ls, i);
    }
    forall i: nat | i < |ls| ensures Valid(g, ls[i].hash) {
      assert WrittenWell(t, ls, i);
      WellWrittenTakesFree(g, t, ls, i);
    }
    hide WrittenWell;
  }

  lemma CountingIsWell(g: Lot, t: Terms, ls: seq<Observed>, i: nat)
    requires Holds(g, t, ls) && InRow(ls) && Begins(ls) && Whole(g) && i < |ls|
    ensures WrittenWell(t, ls, i)
  {
    hide InRow, Begins, Sound, MissesOne, TakesFree, HoldersAt, Follows, ReturnsFairly, NamesFree;
    forall j: nat | j < |ls|
      ensures Valid(g, ls[j].hash) && Sound(g, ls[j].hash) && !MissesOne(g, ls[j].link)
    {
      assert ls[j].hash in g.m;
    }
    hide Valid, Holds;
    CountingReturnsFairly(g, t, ls, i);
    CountingFollows(g, t, ls, i);
    CountingNamesFree(g, t, ls, i);
  }

  // Growth: where every link counts and none is missing, a link more that is written well counts
  // too, and takes none of the others' place.
  lemma OneMoreCounts(g: Lot, g': Lot, t: Terms, ls: seq<Observed>, o: Observed)
    requires Holds(g, t, ls) && InRow(ls) && Begins(ls) && Whole(g)
    requires Holds(g', t, ls + [o]) && o.hash !in g.m && o.link.number == |ls|
    requires WrittenWell(t, ls + [o], |ls|)
    ensures Whole(g')
  {
    RowGrows(g, t, ls, o);
    hide Whole, Holds, WrittenWell, InRow, Begins;
    CountsExactlyWhenWell(g, t, ls);
    forall i: nat | i < |ls + [o]| ensures WrittenWell(t, ls + [o], i) {
      if i < |ls| { WellStays(t, ls, o, i); }
    }
    CountsExactlyWhenWell(g', t, ls + [o]);
  }

  lemma RowGrows(g: Lot, t: Terms, ls: seq<Observed>, o: Observed)
    requires Holds(g, t, ls) && InRow(ls) && Begins(ls) && o.hash !in g.m && o.link.number == |ls|
    requires WrittenWell(t, ls + [o], |ls|)
    ensures InRow(ls + [o]) && Begins(ls + [o])
  {
    hide ReturnsFairly, NamesFree, ReturnedBy;
  }

  lemma WellStays(t: Terms, ls: seq<Observed>, o: Observed, i: nat)
    requires i < |ls| && WrittenWell(t, ls, i)
    ensures WrittenWell(t, ls + [o], i)
  {
    var more := ls + [o];
    hide Returns, NamesFree, ReturnsFairly;
    assert forall j | 0 <= j < |ls| :: more[j] == ls[j];
    SumToEq(i, j => if 0 <= j < i && Returns(ls[i].link, ls[j]) then ls[j].link.qty else 0.0,
            j => if 0 <= j < i && Returns(more[i].link, more[j]) then more[j].link.qty else 0.0);
    NamesStay(t, ls, o, i);
    ReturnsStay(t, ls, o, i);
  }

  lemma NamesStay(t: Terms, ls: seq<Observed>, o: Observed, i: nat)
    requires i < |ls| && NamesFree(t, ls, i)
    ensures NamesFree(t, ls + [o], i)
  {
    hide Returns;
    var more := ls + [o];
    assert more[i] == ls[i];
    forall u, j: nat | u in ls[i].link.units && j < i && u in more[j].link.units
      ensures exists c: nat :: j < c <= i && Returns(more[c].link, more[j])
    {
      var c: nat :| j < c <= i && Returns(ls[c].link, ls[j]);
      assert Returns(more[c].link, more[j]);
    }
  }

  lemma ReturnsStay(t: Terms, ls: seq<Observed>, o: Observed, i: nat)
    requires i < |ls| && ReturnsFairly(t, ls, i)
    ensures ReturnsFairly(t, ls + [o], i)
  {
    hide Returns;
    var more := ls + [o];
    assert forall j | 0 <= j < |ls| :: more[j] == ls[j];
  }
}
