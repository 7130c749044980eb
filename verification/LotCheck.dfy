// The digest of a lot's sub-thread, link by link (records/goods_thread, check_lot).
module LotCheck {
  import opened Sums
  import opened Lots
  import opened LotThread

  datatype LotState = LotState(qty: real, valid: set<nat>, invalid: set<nat>, equivocated: set<nat>, gaps: bool,
                               used: real, held: set<nat>)

  // ---------- The table of links ----------

  // The block seen first under a hash is the one that counts.
  ghost predicate SeenAt(links: seq<Observed>, o: Observed, i: nat) {
    i < |links| && links[i] == o && forall j | 0 <= j < i :: links[j].hash != o.hash
  }

  ghost predicate FirstSeen(links: seq<Observed>, m: map<nat, Observed>) {
    && (forall i | 0 <= i < |links| :: links[i].hash in m)
    && forall h | h in m :: m[h].hash == h && exists i :: SeenAt(links, m[h], i)
  }

  method Tabulate(chain: nat, qty: real, links: seq<Observed>, units: seq<nat>) returns (g: Lot)
    ensures Listed(g) && FirstSeen(links, g.m)
    ensures g.chain == chain && g.qty == qty && forall u :: u in g.units <==> u in units
  {
    var keys: seq<nat>, m: map<nat, Observed> := [], map[];
    for i := 0 to |links|
      invariant Distinct(keys) && forall h :: h in keys <==> h in m
      invariant FirstSeen(links[..i], m)
    {
      var l := links[i];
      ghost var before := m;
      assert links[..i + 1] == links[..i] + [l];
      if l.hash !in m {
        keys := keys + [l.hash];
        m := m[l.hash := l];
        assert SeenAt(links[..i + 1], l, i);
      }
      ghost var upto := links[..i + 1];
      forall h | h in before ensures exists p :: SeenAt(upto, m[h], p) {
        var p :| SeenAt(links[..i], before[h], p);
        assert SeenAt(upto, m[h], p);
      }
    }
    assert links[..|links|] == links;
    g := Lot(chain, qty, keys, m, set i | 0 <= i < |units| :: units[i]);
  }

  function At(counts: map<nat, nat>, x: nat): nat { if x in counts then counts[x] else 0 }

  // How many links have a number.
  method CountNumbers(g: Lot) returns (counts: map<nat, nat>)
    requires Listed(g)
    ensures forall s :: At(counts, s) == Numbered(g, s) && (s in counts <==> Numbered(g, s) > 0)
  {
    counts := map[];
    for i := 0 to |g.keys|
      invariant forall s :: At(counts, s) == NumberCount(g, i, s) && (s in counts <==> NumberCount(g, i, s) > 0)
    {
      assert g.keys[i] in g.m;
      var s := Link(g, g.keys[i]).number;
      counts := counts[s := At(counts, s) + 1];
    }
  }

  // How often a link is given back.
  method CountReturns(g: Lot) returns (counts: map<nat, nat>)
    requires Listed(g)
    ensures forall r :: At(counts, r) == Returned(g, r)
  {
    counts := map[];
    for i := 0 to |g.keys|
      invariant forall r :: At(counts, r) == ReturnCount(g, i, r)
    {
      assert g.keys[i] in g.m;
      var refs := Link(g, g.keys[i]).returned;
      for j := 0 to |refs|
        invariant forall r :: At(counts, r) == ReturnCount(g, i, r) + OfHash(refs[..j], r)
      {
        assert refs[..j + 1][..j] == refs[..j];
        counts := counts[refs[j].hash := At(counts, refs[j].hash) + 1];
      }
      assert refs[..|refs|] == refs;
    }
  }

  // ---------- One link ----------

  lemma BackStep(g: Lot, refs: seq<Ref>, i: nat)
    requires i < |refs|
    ensures Back(g, refs[..i + 1]) == Back(g, refs[..i]) +
            if refs[i].chain == g.chain && refs[i].hash in g.m then g.m[refs[i].hash].link.qty else 0.0
  {
    assert refs[..i + 1][..i] == refs[..i];
    SumEq(refs[..i], (r: Ref) => if r.chain == g.chain && r.hash in g.m then g.m[r.hash].link.qty else 0.0,
          (r: Ref) => if r.chain == g.chain && r.hash in g.m then g.m[r.hash].link.qty else 0.0);
  }

  // What the link gives back: whether honestly, whether all of it is known, how much.
  method JudgeReturns(g: Lot, returned: map<nat, nat>, h: nat) returns (honest: bool, known: bool, back: real)
    requires Listed(g) && h in g.m
    requires forall r :: At(returned, r) == Returned(g, r)
    ensures honest <==> forall i | 0 <= i < |g.m[h].link.returned| :: HonestReturn(g, g.m[h], g.m[h].link.returned[i])
    ensures known == ReturnsKnown(g, Link(g, h))
    ensures back == Back(g, Link(g, h).returned)
  {
    hide Back, Returned;
    var o := g.m[h];
    var refs := o.link.returned;
    honest, known, back := true, true, 0.0;
    assert refs[..0] == [];
    BackOfNone(g);
    for i := 0 to |refs|
      invariant honest <==> forall j | 0 <= j < i :: HonestReturn(g, o, refs[j])
      invariant known <==> forall j | 0 <= j < i :: refs[j].chain == g.chain ==> refs[j].hash in g.m
      invariant back == Back(g, refs[..i])
    {
      var r := refs[i];
      BackStep(g, refs, i);
      if r.chain != g.chain { honest := false; continue; }
      if r.hash !in g.m { known := false; continue; }
      var b := g.m[r.hash];
      if b.expires.None? || b.expires.value > o.timestamp || b.taken || At(returned, r.hash) > 1 ||
         b.link.number >= o.link.number {
        honest := false;
      }
      back := back + b.link.qty;
    }
    assert refs[..|refs|] == refs;
  }

  lemma BackOfNone(g: Lot)
    ensures Back(g, []) == 0.0
  {
  }

  method Judge(g: Lot, numbers: map<nat, nat>, returned: map<nat, nat>, h: nat) returns (good: bool, gap: bool)
    requires Listed(g) && h in g.m
    requires forall s :: At(numbers, s) == Numbered(g, s)
    requires forall r :: At(returned, r) == Returned(g, r)
    ensures good == Sound(g, h)
    ensures gap == MissesOne(g, Link(g, h))
  {
    hide Back, Numbered, Returned, HonestReturn;
    var k := Link(g, h);
    good, gap := At(numbers, k.number) == 1, false;
    if k.after > g.qty + EPS { good := false; }
    var honest, known, back := JudgeReturns(g, returned, h);
    if !honest { good := false; }
    if !known { gap := true; }
    if k.prev.None? {
      if Abs(k.after - k.qty) > EPS { good := false; }
    } else if k.prev.value.chain != g.chain {
      good := false;
    } else if k.prev.value.hash !in g.m {
      gap := true;
    } else {
      var p := Link(g, k.prev.value.hash);
      if p.number + 1 != k.number {
        good := false;
      } else if known && Abs(p.after + k.qty - back - k.after) > EPS {
        good := false;
      }
    }
  }

  // ---------- The walk ----------

  predicate Earlier(g: Lot, a: nat, b: nat)
    requires a in g.m && b in g.m
  {
    Link(g, a).number < Link(g, b).number || (Link(g, a).number == Link(g, b).number && a <= b)
  }

  ghost predicate InOrder(g: Lot, order: seq<nat>) {
    && (forall i | 0 <= i < |order| :: order[i] in g.m)
    && forall i, j | 0 <= i < j < |order| :: Earlier(g, order[i], order[j])
  }

  method Insert(g: Lot, order: seq<nat>, h: nat) returns (out: seq<nat>)
    requires InOrder(g, order) && Distinct(order) && h in g.m && h !in order
    ensures InOrder(g, out) && Distinct(out)
    ensures forall x :: x in out <==> x in order || x == h
  {
    var at: nat := |order|;
    while at > 0 && !Earlier(g, order[at - 1], h)
      invariant at <= |order|
      invariant forall j | at <= j < |order| :: Earlier(g, h, order[j])
    {
      at := at - 1;
    }
    out := order[..at] + [h] + order[at..];
    Inserted(order, h, at);
    forall i, j | 0 <= i < j < |out| ensures Earlier(g, out[i], out[j]) {
      if at > 0 { assert Earlier(g, order[at - 1], h); }
    }
  }

  lemma Inserted(order: seq<nat>, h: nat, at: nat)
    requires Distinct(order) && h !in order && at <= |order|
    ensures var out := order[..at] + [h] + order[at..];
            Distinct(out) && forall x :: x in out <==> x in order || x == h
  {
    assert order == order[..at] + order[at..];
  }

  // The links by number.
  method ByNumber(g: Lot) returns (order: seq<nat>)
    requires Listed(g)
    ensures InOrder(g, order) && Distinct(order)
    ensures forall x :: x in order <==> x in g.m
  {
    order := [];
    for i := 0 to |g.keys|
      invariant InOrder(g, order) && Distinct(order)
      invariant forall x :: x in order <==> x in g.keys[..i]
    {
      assert g.keys[i] in g.m && g.keys[i] !in g.keys[..i];
      order := Insert(g, order, g.keys[i]);
    }
  }

  // Nothing changes hands between numbers no sound link has.
  lemma {:induction false} HoldersPast(g: Lot, s: nat, s': nat)
    requires Listed(g) && s <= s' && forall h | Sound(g, h) :: Link(g, h).number < s || s' <= Link(g, h).number
    ensures HoldersAt(g, s) == HoldersAt(g, s')
    decreases s' - s
  {
    hide Sound;
    if s < s' {
      HoldersPast(g, s, s' - 1);
      assert !SomeSoundAt(g, s' - 1);
    }
  }

  method GiveBack(holder: Holders, k: LotLink) returns (freed: Holders)
    ensures freed == Freed(holder, k)
  {
    freed := holder;
    for i := 0 to |k.returned|
      invariant freed == map u | u in holder && !(exists j | 0 <= j < i :: k.returned[j].hash == holder[u]) :: holder[u]
    {
      var r := k.returned[i].hash;
      freed := map u | u in freed && freed[u] != r :: freed[u];
    }
  }

  method MayTake(g: Lot, k: LotLink, holder: Holders) returns (good: bool)
    ensures good == TakesFree(g, k, holder)
  {
    good := (g.units == {}) == (k.units == []);
    for i := 0 to |k.units|
      invariant good <==>
                  && (g.units == {} <==> k.units == [])
                  && forall j | 0 <= j < i :: k.units[j] in g.units && k.units[j] !in holder
    {
      if k.units[i] !in g.units || k.units[i] in holder { good := false; }
    }
  }

  method Take(holder: Holders, units: seq<nat>, h: nat) returns (taken: Holders)
    ensures taken == Taking(holder, units, h)
  {
    taken := holder;
    for i := 0 to |units|
      invariant taken == Taking(holder, units[..i], h)
    {
      assert units[..i + 1] == units[..i] + [units[i]];
      taken := taken[units[i] := h];
    }
    assert units[..|units|] == units;
  }

  // Every sound link among the first i is numbered below s, every later one not.
  ghost predicate Between(g: Lot, order: seq<nat>, i: nat, s: nat)
    requires Listed(g)
  {
    && (forall j | 0 <= j < i && j < |order| :: Sound(g, order[j]) ==> g.m[order[j]].link.number < s)
    && (forall j | i <= j < |order| :: Sound(g, order[j]) ==> s <= g.m[order[j]].link.number)
  }

  ghost predicate ByNumbers(g: Lot, order: seq<nat>)
    requires Listed(g)
  {
    InOrder(g, order) && Distinct(order) && forall x :: x in order <==> x in g.m
  }

  lemma NextIsSound(g: Lot, order: seq<nat>, i: nat, s: nat)
    requires Listed(g) && ByNumbers(g, order) && i < |order| && Between(g, order, i, s) && Sound(g, order[i])
    ensures var n := Link(g, order[i]).number;
            && HoldersAt(g, s) == HoldersAt(g, n) && HoldersAt(g, n + 1) == Held(g, HoldersAt(g, n), order[i])
            && Between(g, order, i + 1, n + 1)
  {
    var h := order[i];
    var n := Link(g, h).number;
    forall o | Sound(g, o) ensures o in g.m && (g.m[o].link.number == n ==> o == h) {
      if g.m[o].link.number == n { OneSoundANumber(g, h, o); }
    }
    forall o | Sound(g, o) ensures g.m[o].link.number < s || n <= g.m[o].link.number {
      var j: nat :| j < |order| && order[j] == o;
      if j > i { assert Earlier(g, order[i], order[j]); }
    }
    hide Sound, Held;
    HoldersPast(g, s, n);
    assert SoundAt(g, n, h);
    assert forall o :: SoundAt(g, n, o) ==> o == h;
    forall j | i + 1 <= j < |order| && Sound(g, order[j]) ensures n + 1 <= g.m[order[j]].link.number {
      assert Earlier(g, order[i], order[j]);
    }
    forall j | 0 <= j < i && Sound(g, order[j]) ensures g.m[order[j]].link.number < n + 1 {
      assert Earlier(g, order[j], order[i]);
    }
  }

  // A unit is held by the link that took it until a later sound link returns that link.
  method Walk(g: Lot, order: seq<nat>, sound: set<nat>) returns (holder: Holders, good: set<nat>)
    requires Listed(g) && ByNumbers(g, order)
    requires forall h :: h in sound <==> Sound(g, h)
    ensures forall h :: h in good <==> Valid(g, h)
    ensures forall s | (forall h | h in g.m :: Link(g, h).number < s) :: holder == HoldersAt(g, s)
  {
    hide Sound, Freed, Taking, TakesFree, HoldersAt;
    holder, good := map[], sound;
    ghost var s: nat := 0;
    NobodyYet(g);
    for i := 0 to |order|
      invariant Between(g, order, i, s) && holder == HoldersAt(g, s)
      invariant forall h | h !in order :: h in good <==> h in sound
      invariant forall j | 0 <= j < i :: order[j] in good <==> Valid(g, order[j])
      invariant forall j | i <= j < |order| :: order[j] in good <==> order[j] in sound
    {
      var h := order[i];
      if h !in good { continue; }
      NextIsSound(g, order, i, s);
      var k := Link(g, h);
      holder := GiveBack(holder, k);
      var may := MayTake(g, k, holder);
      if may {
        holder := Take(holder, k.units, h);
      } else {
        good := good - {h};
      }
      s := k.number + 1;
    }
    SoundAreLinks(g, order);
    forall top: nat | (forall h | h in g.m :: Link(g, h).number < top) ensures holder == HoldersAt(g, top) {
      EndOfWalk(g, order, s, top);
    }
  }

  lemma NobodyYet(g: Lot)
    requires Listed(g)
    ensures HoldersAt(g, 0) == map[]
  {
  }

  lemma SoundAreLinks(g: Lot, order: seq<nat>)
    requires Listed(g) && ByNumbers(g, order)
    ensures forall h | Sound(g, h) :: h in order
  {
  }

  lemma EndOfWalk(g: Lot, order: seq<nat>, s: nat, top: nat)
    requires Listed(g) && ByNumbers(g, order) && Between(g, order, |order|, s)
    requires forall h | h in g.m :: Link(g, h).number < top
    ensures HoldersAt(g, s) == HoldersAt(g, top)
  {
    forall h | Sound(g, h) ensures Link(g, h).number < s {
      var j: nat :| j < |order| && order[j] == h;
    }
    assert forall h | Sound(g, h) :: h in g.m;
    hide Sound;
    if s <= top { HoldersPast(g, s, top); } else { HoldersPast(g, top, s); }
  }

  // ---------- The digest ----------

  ghost predicate NewestValid(g: Lot, t: nat)
    requires Listed(g)
  {
    t in g.m && Valid(g, t) && forall h | h in g.m && Valid(g, h) :: Link(g, h).number <= Link(g, t).number
  }

  // A number below the newest link that counts which no link has.
  ghost predicate Hole(g: Lot, s: nat)
    requires Listed(g)
  {
    Numbered(g, s) == 0 && exists t :: NewestValid(g, t) && s <= Link(g, t).number
  }

  ghost predicate Digests(g: Lot, st: LotState)
    requires Listed(g)
  {
    && st.qty == g.qty
    && (forall h :: h in st.valid <==> Valid(g, h))
    && (forall h :: h in st.invalid <==> h in g.m && !Valid(g, h))
    && (forall s :: s in st.equivocated <==> Numbered(g, s) > 1)
    && (st.gaps <==> (exists h | h in g.m :: MissesOne(g, g.m[h].link)) || (exists s :: Hole(g, s)))
    && (if st.valid == {} then st.used == 0.0 else exists t :: NewestValid(g, t) && st.used == Link(g, t).after)
    && (forall s | (forall h | h in g.m :: Link(g, h).number < s) :: st.held == HoldersAt(g, s).Keys)
  }

  method JudgeAll(g: Lot, numbers: map<nat, nat>, returned: map<nat, nat>) returns (sound: set<nat>, gaps: bool)
    requires Listed(g)
    requires forall s :: At(numbers, s) == Numbered(g, s)
    requires forall r :: At(returned, r) == Returned(g, r)
    ensures forall h :: h in sound <==> Sound(g, h)
    ensures gaps <==> exists h | h in g.m :: MissesOne(g, g.m[h].link)
  {
    sound, gaps := {}, false;
    for i := 0 to |g.keys|
      invariant forall h :: h in sound <==> h in g.keys[..i] && Sound(g, h)
      invariant gaps <==> exists h | h in g.keys[..i] :: h in g.m && MissesOne(g, g.m[h].link)
    {
      hide Sound, MissesOne, Numbered, Returned;
      var h := g.keys[i];
      assert h in g.m && g.keys[..i + 1] == g.keys[..i] + [h];
      var good, gap := Judge(g, numbers, returned, h);
      if good { sound := sound + {h}; }
      if gap { gaps := true; }
    }
    assert g.keys[..|g.keys|] == g.keys;
  }

  // The newest of the links that count, and whether a number below it is missing.
  method Newest(g: Lot, valid: set<nat>, order: seq<nat>, numbers: map<nat, nat>)
    returns (any: bool, top: nat, used: real, hole: bool)
    requires Listed(g) && ByNumbers(g, order)
    requires forall h :: h in valid <==> Valid(g, h)
    requires forall s :: At(numbers, s) == Numbered(g, s) && (s in numbers <==> Numbered(g, s) > 0)
    ensures any <==> valid != {}
    ensures any ==> exists t :: NewestValid(g, t) && used == Link(g, t).after
    ensures hole <==> exists s :: Hole(g, s)
    ensures !any ==> used == 0.0
  {
    hide Valid, Numbered;
    any, top, used, hole := false, 0, 0.0, false;
    ghost var newest: nat := 0;
    ValidAreLinks(g, order);
    for i := 0 to |order|
      invariant any ==>
                  && newest in g.m && Valid(g, newest)
                  && top == Link(g, newest).number && used == Link(g, newest).after
      invariant !any ==> used == 0.0
      invariant forall j | 0 <= j < i && order[j] in valid :: any && Link(g, order[j]).number <= top
    {
      var h := order[i];
      if h in valid && (!any || Link(g, h).number > top) {
        any, top, used := true, Link(g, h).number, Link(g, h).after;
        newest := h;
      }
    }
    hide NewestValid, Hole, ByNumbers, Listed;
    if !any {
      NoneNewest(g, valid);
      return;
    }
    assert NewestValid(g, newest) by { NewestIs(g, valid, order, newest); }
    NewestIsTop(g, newest);
    for s := 0 to top + 1
      invariant !hole && forall x: nat | x < s :: x in numbers
    {
      if s !in numbers {
        hole := true;
        HoleIs(g, newest, s);
        break;
      }
    }
    if !hole { NoHole(g, newest, numbers); }
  }

  lemma NoneNewest(g: Lot, valid: set<nat>)
    requires Listed(g) && valid == {} && forall h :: h in valid <==> Valid(g, h)
    ensures forall s :: !Hole(g, s)
  {
    hide Valid;
    assert forall t :: !NewestValid(g, t);
  }

  lemma NewestIs(g: Lot, valid: set<nat>, order: seq<nat>, t: nat)
    requires Listed(g) && (forall h :: h in valid <==> Valid(g, h)) && (forall h | h in valid :: h in order)
    requires t in g.m && Valid(g, t)
    requires forall j | 0 <= j < |order| && order[j] in valid ::
             order[j] in g.m && Link(g, order[j]).number <= Link(g, t).number
    ensures NewestValid(g, t)
  {
    hide Valid;
  }

  lemma NewestIsTop(g: Lot, newest: nat)
    requires Listed(g) && NewestValid(g, newest)
    ensures newest in g.m && forall t | NewestValid(g, t) :: t in g.m && Link(g, t).number == Link(g, newest).number
  {
    hide Valid;
  }

  lemma HoleIs(g: Lot, newest: nat, s: nat)
    requires Listed(g) && NewestValid(g, newest) && Numbered(g, s) == 0 && s <= Link(g, newest).number
    ensures Hole(g, s)
  {
    hide Valid, Numbered, NewestValid;
  }

  lemma NoHole(g: Lot, newest: nat, numbers: map<nat, nat>)
    requires Listed(g) && NewestValid(g, newest)
    requires forall s: nat | s <= Link(g, newest).number :: s in numbers
    requires forall s :: s in numbers <==> Numbered(g, s) > 0
    ensures forall s :: !Hole(g, s)
  {
    NewestIsTop(g, newest);
    hide Valid, Numbered, NewestValid;
  }

  lemma ValidAreLinks(g: Lot, order: seq<nat>)
    requires Listed(g) && ByNumbers(g, order)
    ensures forall h | Valid(g, h) :: h in order
    ensures forall j | 0 <= j < |order| :: order[j] in g.m
  {
  }

  // The lot as these links tell it.
  ghost predicate Tabulates(chain: nat, qty: real, links: seq<Observed>, units: seq<nat>, g: Lot) {
    Listed(g) && FirstSeen(links, g.m) && g.chain == chain && g.qty == qty && forall u :: u in g.units <==> u in units
  }

  // The terms under which a row of links is read.
  function TermsOf(chain: nat, qty: real, units: seq<nat>): Terms {
    Terms(chain, qty, set i | 0 <= i < |units| :: units[i])
  }

  lemma TabulatedHolds(chain: nat, qty: real, links: seq<Observed>, units: seq<nat>, g: Lot)
    requires Tabulates(chain, qty, links, units, g) && InRow(links)
    ensures Holds(g, TermsOf(chain, qty, units), links)
  {
    forall i | 0 <= i < |links| ensures g.m[links[i].hash] == links[i] {
      var j :| SeenAt(links, g.m[links[i].hash], j);
      assert j == i;
    }
    forall h | h in g.m ensures exists i: nat :: i < |links| && links[i].hash == h {
      var j :| SeenAt(links, g.m[h], j);
    }
    assert g.units == TermsOf(chain, qty, units).units;
  }

  // Of a row of links under their own numbers: nothing is missed and no number skipped exactly
  // when every link finds what it names.
  lemma NoHoleInRow(g: Lot, t: Terms, ls: seq<Observed>, s: nat)
    requires Holds(g, t, ls) && InRow(ls)
    ensures !Hole(g, s)
  {
    hide Valid;
    forall n | NewestValid(g, n) && s <= Link(g, n).number ensures Numbered(g, s) != 0 {
      var i: nat :| i < |ls| && ls[i].hash == n;
      NumberedOnce(g, t, ls, s);
    }
  }

  lemma RowDigest(g: Lot, t: Terms, ls: seq<Observed>, st: LotState)
    requires Holds(g, t, ls) && InRow(ls) && Begins(ls) && Digests(g, st)
    ensures st.invalid == {} && !st.gaps <==> AllWell(t, ls)
    ensures st.invalid == {} && ls != [] ==> st.used == ls[|ls| - 1].link.after
  {
    CountsExactlyWhenWell(g, t, ls);
    forall s ensures !Hole(g, s) { NoHoleInRow(g, t, ls, s); }
    hide Valid, AllWell, MissesOne, HoldersAt, Hole, Begins, Numbered;
    if st.invalid == {} && ls != [] { UsedByLast(g, t, ls, st); }
    hide Holds, InRow, Listed;
    assert st.invalid == {} <==> forall h | h in g.m :: Valid(g, h);
  }

  lemma UsedByLast(g: Lot, t: Terms, ls: seq<Observed>, st: LotState)
    requires Holds(g, t, ls) && InRow(ls) && Digests(g, st) && st.invalid == {} && ls != []
    ensures st.used == ls[|ls| - 1].link.after
  {
    hide Valid, MissesOne, HoldersAt, Hole, Numbered;
    var last := ls[|ls| - 1].hash;
    assert Valid(g, last) && last in st.valid;
    var n :| NewestValid(g, n) && st.used == Link(g, n).after;
    var i: nat :| i < |ls| && ls[i].hash == n;
    assert Link(g, last).number <= Link(g, n).number;
  }

  method CheckLot(chain: nat, qty: real, links: seq<Observed>, units: seq<nat>) returns (st: LotState)
    ensures exists g :: Tabulates(chain, qty, links, units, g) && Digests(g, st)
    ensures InRow(links) && Begins(links) ==>
              && (st.invalid == {} && !st.gaps <==> AllWell(TermsOf(chain, qty, units), links))
              && (st.invalid == {} && links != [] ==> st.used == links[|links| - 1].link.after)
  {
    hide Valid, Sound, Numbered, Returned, HoldersAt, MissesOne, InRow, Begins, AllWell, Holds;
    var lot := Tabulate(chain, qty, links, units);
    assert Tabulates(chain, qty, links, units, lot);
    var numbers := CountNumbers(lot);
    var returned := CountReturns(lot);
    var sound, gaps := JudgeAll(lot, numbers, returned);
    var order := ByNumber(lot);
    var holder, valid := Walk(lot, order, sound);
    var invalid := set h | h in lot.m.Keys && h !in valid;
    var equivocated := set s | s in numbers.Keys && numbers[s] > 1;
    var any, top, used, hole := Newest(lot, valid, order, numbers);
    assert forall s :: s in equivocated <==> Numbered(lot, s) > 1 by {
      assert forall s :: At(numbers, s) == Numbered(lot, s);
    }
    st := LotState(qty, valid, invalid, equivocated, gaps || hole, used, holder.Keys);
    assert Digests(lot, st);
    if InRow(links) && Begins(links) {
      hide Digests, Tabulates;
      TabulatedHolds(chain, qty, links, units, lot);
      RowDigest(lot, TermsOf(chain, qty, units), links, st);
    }
  }
}
