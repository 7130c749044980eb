// The deals and moves on the table (aggregator/recognition): which happened, which paper is
// backed, and what each bill holds — defined by recursion on the age of blocks.
module DealsTable {
  import opened Options
  import opened Settlement

  // A deal (an offer) or a move between own branches, as found in a block.
  // `terms` stands for the acceptance rules of the deal itself; `standsOn` is the purchase
  // a resale or buyback needs to have happened; `buybackOf` the purchase it buys back.
  datatype Carrier =
    Carrier(hash: Hash, author: ChainId, node: nat, index: nat, t: Transfer,
            terms: bool, standsOn: Option<nat>, buybackOf: Option<nat>, answer: Answer, arrived: Option<nat>)

  // Deals first (positions below `deals`), then moves. `age` orders the blocks as they came
  // to exist; no rule reads it.
  datatype Table = Table(carriers: seq<Carrier>, deals: nat, age: seq<nat>)

  // Whose hands, the block the paper came in, whose paper.
  datatype BillKey = BillKey(holder: ChainId, src: Ref, issuer: ChainId)

  // A portion of a carrier.
  datatype Spend = Spend(c: nat, p: nat)

  // What the codec and the scan guarantee of every table.
  ghost predicate WellFormed(T: Table) {
    && T.deals <= |T.carriers| == |T.age|
    && (forall c, d | 0 <= c < d < |T.carriers| :: T.carriers[c].hash != T.carriers[d].hash)
    && (forall c | 0 <= c < |T.carriers| :: WellFormedCarrier(T, c))
  }

  ghost predicate WellFormedCarrier(T: Table, c: nat)
    requires c < |T.carriers|
  {
    var k := T.carriers[c];
    && k.t.from == k.author
    && (c < T.deals ==> k.t.to != k.t.from)
    && (c >= T.deals ==> k.t.to == k.t.from)
    && (forall p | 0 <= p < |k.t.origins| ::
          && k.t.origins[p].units > 0.0
          && (k.t.origins[p].issuer != k.author <==> k.t.origins[p].src.Some?)
          && (c >= T.deals ==> k.t.origins[p].issuer != k.author))
    && (forall p, q | 0 <= p < q < |k.t.origins| && k.t.origins[p].src.Some? ::
          k.t.origins[p].issuer != k.t.origins[q].issuer || k.t.origins[p].src != k.t.origins[q].src)
    && (k.standsOn.Some? ==> k.standsOn.value < T.deals)
    && (k.buybackOf.Some? ==> k.buybackOf.value < T.deals)
  }

  // ---------- Lookup ----------

  function FindFrom(T: Table, r: Ref, c: nat): Option<nat>
    requires c <= |T.carriers|
    ensures FindFrom(T, r, c).Some? ==>
              var s := FindFrom(T, r, c).value;
              s < c && T.carriers[s].hash == r.hash && T.carriers[s].author == r.chain
    ensures FindFrom(T, r, c).None? ==>
              forall s | 0 <= s < c :: T.carriers[s].hash != r.hash || T.carriers[s].author != r.chain
  {
    if c == 0 then None
    else if T.carriers[c - 1].hash == r.hash && T.carriers[c - 1].author == r.chain then Some(c - 1)
    else FindFrom(T, r, c - 1)
  }

  // The carrier a reference names.
  function Find(T: Table, r: Ref): Option<nat> {
    FindFrom(T, r, |T.carriers|)
  }

  predicate IsPortion(T: Table, s: Spend) {
    s.c < |T.carriers| && s.p < |T.carriers[s.c].t.origins| && T.carriers[s.c].t.origins[s.p].src.Some?
  }

  function OriginOf(T: Table, s: Spend): Origin
    requires IsPortion(T, s)
  {
    T.carriers[s.c].t.origins[s.p]
  }

  function KeyOf(T: Table, s: Spend): BillKey
    requires IsPortion(T, s)
  {
    var o := OriginOf(T, s);
    BillKey(T.carriers[s.c].author, o.src.value, o.issuer)
  }

  // ---------- Each bill's spends in branch order ----------

  predicate Precedes(T: Table, a: Spend, b: Spend) {
    && a.c < |T.carriers| && b.c < |T.carriers|
    && var x, y := T.carriers[a.c], T.carriers[b.c];
       x.index < y.index || (x.index == y.index && x.hash < y.hash)
  }

  function InsertSpend(T: Table, s: Spend, list: seq<Spend>): seq<Spend> {
    if list == [] || !Precedes(T, list[0], s) then [s] + list else [list[0]] + InsertSpend(T, s, list[1..])
  }

  // The spends of bill `k` among the first c carriers and the first p portions of the c-th.
  function SpendsUpTo(T: Table, k: BillKey, c: nat, p: nat): seq<Spend>
    requires c <= |T.carriers| && p <= (if c < |T.carriers| then |T.carriers[c].t.origins| else 0)
    decreases c, p
  {
    if p > 0 then
      var rest := SpendsUpTo(T, k, c, p - 1);
      if IsPortion(T, Spend(c, p - 1)) && KeyOf(T, Spend(c, p - 1)) == k then InsertSpend(T, Spend(c, p - 1), rest)
        else rest
    else if c > 0 then SpendsUpTo(T, k, c - 1, |T.carriers[c - 1].t.origins|)
    else []
  }

  function SpendsOf(T: Table, k: BillKey): seq<Spend> {
    SpendsUpTo(T, k, |T.carriers|, 0)
  }

  ghost predicate SpendList(T: Table, k: BillKey, list: seq<Spend>) {
    && (forall i | 0 <= i < |list| :: IsPortion(T, list[i]) && KeyOf(T, list[i]) == k)
    && (forall i, j | 0 <= i < j < |list| :: Precedes(T, list[i], list[j]))
  }

  lemma {:induction false} InsertKeeps(T: Table, k: BillKey, s: Spend, list: seq<Spend>)
    requires WellFormed(T) && SpendList(T, k, list) && IsPortion(T, s) && KeyOf(T, s) == k
    requires forall i | 0 <= i < |list| :: list[i].c != s.c
    ensures SpendList(T, k, InsertSpend(T, s, list))
    ensures forall x :: x in InsertSpend(T, s, list) <==> x == s || x in list
  {
    var r := InsertSpend(T, s, list);
    if list == [] || !Precedes(T, list[0], s) {
      if list != [] {
        assert T.carriers[list[0].c].hash != T.carriers[s.c].hash;
        assert Precedes(T, s, list[0]);
      }
      assert r == [s] + list;
    } else {
      assert list == [list[0]] + list[1..];
      InsertKeeps(T, k, s, list[1..]);
      forall x | x in list[1..] ensures Precedes(T, list[0], x) {}
    }
  }

  // One bill pays at most one portion of a carrier.
  lemma OnePortion(T: Table, a: Spend, b: Spend)
    requires WellFormed(T) && IsPortion(T, a) && IsPortion(T, b) && a.c == b.c && KeyOf(T, a) == KeyOf(T, b)
    ensures a == b
  {
    assert WellFormedCarrier(T, a.c);
  }

  lemma {:induction false} SpendsUpToIsList(T: Table, k: BillKey, c: nat, p: nat)
    requires WellFormed(T)
    requires c <= |T.carriers| && p <= (if c < |T.carriers| then |T.carriers[c].t.origins| else 0)
    ensures SpendList(T, k, SpendsUpTo(T, k, c, p))
    ensures forall s :: s in SpendsUpTo(T, k, c, p) <==>
                        IsPortion(T, s) && KeyOf(T, s) == k && (s.c < c || (s.c == c && s.p < p))
    decreases c, p
  {
    hide Precedes, InsertSpend, WellFormedCarrier;
    if p > 0 {
      SpendsUpToIsList(T, k, c, p - 1);
      var s, rest := Spend(c, p - 1), SpendsUpTo(T, k, c, p - 1);
      if IsPortion(T, s) && KeyOf(T, s) == k {
        forall i | 0 <= i < |rest| ensures rest[i].c != s.c {
          assert rest[i] in rest;
          if rest[i].c == s.c { OnePortion(T, rest[i], s); }
        }
        InsertKeeps(T, k, s, rest);
      }
    } else if c > 0 {
      SpendsUpToIsList(T, k, c - 1, |T.carriers[c - 1].t.origins|);
    }
  }

  // The list of a bill holds its spends, all of them, each once, in branch order.
  lemma SpendsOfIsList(T: Table, k: BillKey)
    requires WellFormed(T)
    ensures SpendList(T, k, SpendsOf(T, k))
    ensures forall s :: s in SpendsOf(T, k) <==> IsPortion(T, s) && KeyOf(T, s) == k
  {
    SpendsUpToIsList(T, k, |T.carriers|, 0);
  }

  // ---------- What happened ----------

  datatype Credit = Credit(purse: nat, credited: real, arrived: Option<nat>)

  // The terms on which a bill opens, once it is known whether its source stands.
  ghost function CreditIf(T: Table, k: BillKey, stands: bool): Credit {
    match Find(T, k.src)
    case None => Credit(0, 0.0, None)
    case Some(s) =>
      var t := T.carriers[s].t;
      if t.to != k.holder || !stands then Credit(t.toNode, 0.0, None)
      else Credit(t.toNode, BillCredit(t, k.issuer), if s < T.deals then T.carriers[s].arrived else None)
  }

  function SpendOf(T: Table, s: Spend, stands: bool, frozen: bool): BillSpend
    requires IsPortion(T, s)
  {
    var k, o := T.carriers[s.c], OriginOf(T, s);
    var isDeal := s.c < T.deals;
    BillSpend(k.hash, k.node, k.index, k.t.timestamp, o.units, o.prev, !isDeal,
              if isDeal then k.answer else NoAnswer,
              if isDeal && k.t.until.Some? then k.t.until.value else 0, stands, frozen)
  }

  function NextOnList(T: Table, list: seq<Spend>, i: nat): Option<int>
    requires i < |list| && forall j | 0 <= j < |list| :: IsPortion(T, list[j])
  {
    if i + 1 < |list| then assert IsPortion(T, list[i + 1]); Some(T.carriers[list[i + 1].c].t.timestamp) else None
  }

  // The purchase whose deposit a spend of this paper would touch.
  function DepositOf(T: Table, s: Spend): Option<nat>
    requires IsPortion(T, s)
  {
    match Find(T, OriginOf(T, s).src.value)
    case None => None
    case Some(h) =>
      if h < T.deals && T.carriers[h].t.buyback.Some? && T.carriers[h].t.buyback.value.deposit &&
         T.carriers[s.c].author == T.carriers[h].t.to
      then Some(h) else None
  }

  predicate IsBuyback(T: Table, c: nat, h: nat)
    requires c < |T.carriers|
  {
    c < T.deals && T.carriers[c].buybackOf == Some(h)
  }

  // ---------- Verdicts and the rules that tie them ----------

  // What a reader holds true: which deals happened, are addressed, hold hours, are backed;
  // per bill its list, whether its source stands, the run before each spend, and whether
  // each spend is frozen and fits.
  datatype Verdicts =
    Verdicts(eff: nat -> bool, addr: nat -> bool, hold: nat -> bool, back: nat -> bool,
             list: BillKey -> seq<Spend>, stands: BillKey -> bool, run: (BillKey, nat) -> Run,
             frozen: (BillKey, nat) -> bool, fit: (BillKey, nat) -> bool)

  // A deal happened: addressed, answered, backed.
  ghost predicate EffLaw(T: Table, V: Verdicts, c: nat)
    requires c < |T.carriers|
  {
    V.eff(c) == (V.addr(c) && T.carriers[c].answer == Accepted && V.back(c))
  }

  ghost predicate AddrLaw(T: Table, V: Verdicts, c: nat)
    requires c < |T.carriers|
  {
    V.addr(c) == (T.carriers[c].terms && (T.carriers[c].standsOn.Some? ==> V.eff(T.carriers[c].standsOn.value)))
  }

  // Whether a spend by this carrier could hold hours at all.
  ghost predicate HoldLaw(T: Table, V: Verdicts, c: nat) {
    V.hold(c) == ((c < T.deals ==> V.addr(c)) && V.back(c))
  }

  ghost predicate PortionCovered(T: Table, V: Verdicts, s: Spend)
    requires IsPortion(T, s)
  {
    var k := KeyOf(T, s);
    forall i | 0 <= i < |V.list(k)| && V.list(k)[i] == s :: V.fit(k, i)
  }

  // Every portion of somebody else's paper is a spend its bill covers.
  ghost predicate BackLaw(T: Table, V: Verdicts, c: nat)
    requires c < |T.carriers|
  {
    V.back(c) == forall p | 0 <= p < |T.carriers[c].t.origins| && IsPortion(T, Spend(c, p)) ::
      PortionCovered(T, V, Spend(c, p))
  }

  // The list of a bill holds its spends, all of them, each once, in branch order.
  ghost predicate ListLaw(T: Table, V: Verdicts, k: BillKey) {
    && SpendList(T, k, V.list(k))
    && forall s :: s in V.list(k) <==> IsPortion(T, s) && KeyOf(T, s) == k
  }

  // The source of a bill stands: the deal happened, the move is backed.
  ghost predicate StandsLaw(T: Table, V: Verdicts, k: BillKey) {
    V.stands(k) == match Find(T, k.src)
                   case None => false
                   case Some(s) => if s < T.deals then V.eff(s) else V.back(s)
  }

  ghost predicate EarlierBuyback(T: Table, V: Verdicts, k: BillKey, j: nat, h: nat)
    requires j < |V.list(k)| && IsPortion(T, V.list(k)[j])
  {
    var c := V.list(k)[j].c;
    IsBuyback(T, c, h) && T.carriers[c].answer == Accepted && V.hold(c)
  }

  // Until its term a deposit is frozen, unless bought back by this spend or an earlier one.
  ghost predicate FrozenLaw(T: Table, V: Verdicts, k: BillKey, i: nat)
    requires i < |V.list(k)| && SpendList(T, k, V.list(k))
  {
    var s := V.list(k)[i];
    V.frozen(k, i) ==
    match DepositOf(T, s)
    case None => false
    case Some(h) =>
      DepositFrozen(T.carriers[h].t, T.carriers[s.c].t.timestamp,
                    IsBuyback(T, s.c, h) || exists j | 0 <= j < i :: EarlierBuyback(T, V, k, j, h))
  }

  ghost predicate OpeningLaw(T: Table, V: Verdicts, k: BillKey) {
    var c := CreditIf(T, k, V.stands(k));
    V.run(k, 0) == NewRun(k.holder, c.purse, c.credited, c.arrived)
  }

  ghost predicate RunLaw(T: Table, V: Verdicts, k: BillKey, i: nat)
    requires i < |V.list(k)| && SpendList(T, k, V.list(k))
  {
    var s := V.list(k)[i];
    && V.fit(k, i) == Fits(V.run(k, i), SpendOf(T, s, true, V.frozen(k, i)))
    && V.run(k, i + 1) == Taken(V.run(k, i), SpendOf(T, s, V.hold(s.c), V.frozen(k, i)), NextOnList(T, V.list(k), i))
  }

  ghost predicate BillLaws(T: Table, V: Verdicts, k: BillKey) {
    && ListLaw(T, V, k) && StandsLaw(T, V, k) && OpeningLaw(T, V, k)
    && (forall i | 0 <= i < |V.list(k)| :: FrozenLaw(T, V, k, i))
    && (forall i | 0 <= i < |V.list(k)| :: RunLaw(T, V, k, i))
  }

  // Verdicts that obey the rules of the table everywhere.
  ghost predicate Coherent(T: Table, V: Verdicts) {
    && WellFormed(T)
    && (forall c | 0 <= c < T.deals :: EffLaw(T, V, c))
    && (forall c | 0 <= c < T.deals :: AddrLaw(T, V, c))
    && (forall c | 0 <= c < |T.carriers| :: HoldLaw(T, V, c))
    && (forall c | 0 <= c < |T.carriers| :: BackLaw(T, V, c))
    && (forall k :: BillLaws(T, V, k))
  }

  // ---------- The bill as one batch ----------

  // The spends of a bill as they finally ended.
  ghost function FinalSpends(T: Table, V: Verdicts, k: BillKey, n: nat): (r: seq<BillSpend>)
    requires n <= |V.list(k)| && SpendList(T, k, V.list(k))
    ensures |r| == n
    ensures forall i | 0 <= i < n :: r[i] == SpendOf(T, V.list(k)[i], V.hold(V.list(k)[i].c), V.frozen(k, i))
  {
    if n == 0 then []
    else
      var s := V.list(k)[n - 1];
      FinalSpends(T, V, k, n - 1) + [SpendOf(T, s, V.hold(s.c), V.frozen(k, n - 1))]
  }

  // The step of the law of runs is the step of the batch.
  lemma RunStep(T: Table, V: Verdicts, k: BillKey, i: nat)
    requires Coherent(T, V) && i < |V.list(k)| && SpendList(T, k, V.list(k))
    ensures var all := FinalSpends(T, V, k, |V.list(k)|);
            V.run(k, i + 1) == Taken(V.run(k, i), all[i], NextTimestamp(all, i))
  {
    hide Precedes, FrozenLaw, OpeningLaw, StandsLaw, ListLaw, Taken;
    assert BillLaws(T, V, k);
    assert RunLaw(T, V, k, i);
  }

  // Spend by spend, with the ends known only as they are reached, a bill is walked exactly
  // as the batch walks it knowing all the ends.
  lemma {:induction false} RunIsBatchPrefix(T: Table, V: Verdicts, k: BillKey, i: nat)
    requires Coherent(T, V) && i <= |V.list(k)|
    ensures SpendList(T, k, V.list(k))
    ensures V.run(k, i) == RunAfter(V.run(k, 0), FinalSpends(T, V, k, |V.list(k)|), i)
  {
    hide Coherent, SpendList, Taken, FinalSpends;
    ListIsOfBill(T, V, k);
    if i > 0 {
      RunIsBatchPrefix(T, V, k, i - 1);
      RunStep(T, V, k, i - 1);
    }
  }

  lemma ListIsOfBill(T: Table, V: Verdicts, k: BillKey)
    requires Coherent(T, V)
    ensures SpendList(T, k, V.list(k))
  {
    hide Precedes, FrozenLaw, OpeningLaw, StandsLaw, RunLaw;
    assert BillLaws(T, V, k);
  }

  // The finally known spends, each block once, are in branch order: check_bill handed
  // them walks this very list.
  lemma FinalSpendsInOrder(T: Table, V: Verdicts, k: BillKey)
    requires Coherent(T, V)
    ensures SpendList(T, k, V.list(k))
    ensures var f := FinalSpends(T, V, k, |V.list(k)|);
            InBranchOrder(f) && DistinctHashes(f) && Unique(Sort(f)) == f
  {
    hide FrozenLaw, OpeningLaw, StandsLaw, RunLaw;
    assert BillLaws(T, V, k);
    var list, f := V.list(k), FinalSpends(T, V, k, |V.list(k)|);
    forall i, j | 0 <= i < j < |f|
      ensures SpendBefore(f[i], f[j]) && f[i].hash != f[j].hash
    {
      assert Precedes(T, list[i], list[j]);
      if list[i].c == list[j].c { assert false; }
    }
    SortedIsWalkedAsGiven(f);
  }

  // A carrier whose portion does not fit its bill holds nothing.
  lemma UnfitHoldsNothing(T: Table, V: Verdicts, k: BillKey, i: nat)
    requires Coherent(T, V) && i < |V.list(k)| && !V.fit(k, i)
    ensures IsPortion(T, V.list(k)[i]) && !V.back(V.list(k)[i].c) && !V.hold(V.list(k)[i].c)
  {
    assert BillLaws(T, V, k);
    var s := V.list(k)[i];
    assert KeyOf(T, s) == k && s == Spend(s.c, s.p);
    assert !PortionCovered(T, V, s);
    assert BackLaw(T, V, s.c) && HoldLaw(T, V, s.c);
  }

  // A portion is covered exactly when its place on the bill's list fits.
  lemma FitDecidesPortion(T: Table, V: Verdicts, k: BillKey, pos: nat)
    requires Coherent(T, V) && pos < |V.list(k)|
    ensures var s := V.list(k)[pos]; IsPortion(T, s) && KeyOf(T, s) == k && PortionCovered(T, V, s) == V.fit(k, pos)
  {
    assert BillLaws(T, V, k);
    var list := V.list(k);
    forall i | 0 <= i < |list| && list[i] == list[pos] ensures i == pos {
      assert i < pos ==> Precedes(T, list[i], list[pos]);
      assert pos < i ==> Precedes(T, list[pos], list[i]);
    }
  }
}
