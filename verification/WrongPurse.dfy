// A table on which the walk lets paper be spent twice. H is paid five hours of I's paper (LENT)
// and twice five of A's, into two purses (KEPT, OTHER). He spends the last bill out of two
// branches: on its list first W, out of its purse, then Q, out of the wrong one — though Q is
// the older. So to judge Q, whose other spend Z goes on from, the walk asks whether W holds; W
// is paid with what V moved, and V spends I's bill after Z: the walk asks for Z while Z is
// being decided, is refused, and takes Z's spend to hold nothing.
module WrongPurse {
  import opened Options
  import opened Sums
  import opened Settlement
  import opened DealsTable
  import opened Happened
  import opened WalkSteps
  import opened WalkTruth
  import opened WalkOrder
  import opened WalkTraces
  import opened WalkConservation

  const A: ChainId := 1
  const I: ChainId := 2
  const H: ChainId := 3
  const E: ChainId := 4

  function Deal(hash: Hash, author: ChainId, node: nat, index: nat, to: ChainId, toNode: nat, origins: seq<Origin>,
      arrived: nat): Carrier {
    Carrier(hash, author, node, index, Transfer(author, to, toNode, origins, 10, Some(99), None), true, None, None,
      Accepted, Some(arrived))
  }

  function Paper(issuer: ChainId, units: real, src: Ref, prev: Option<Ref>): Origin {
    Origin(issuer, units, Some(src), prev)
  }

  const Z := Deal(1, H, 0, 6, E, 0, [Paper(A, 1.0, Ref(A, 4), Some(Ref(H, 3))), Paper(I, 5.0, Ref(I, 6), None)], 1)
  const W := Deal(2, H, 1, 2, E, 0, [Paper(A, 1.0, Ref(A, 5), None), Paper(I, 5.0, Ref(H, 7), None)], 2)
  const Q := Deal(3, H, 0, 5, E, 0, [Paper(A, 1.0, Ref(A, 4), None), Paper(A, 1.0, Ref(A, 5), None)], 0)
  const KEPT := Deal(4, A, 0, 0, H, 0, [Origin(A, 5.0, None, None)], 0)
  const OTHER := Deal(5, A, 0, 1, H, 1, [Origin(A, 5.0, None, None)], 0)
  const LENT := Deal(6, I, 0, 0, H, 0, [Origin(I, 5.0, None, None)], 1)
  const V := Carrier(7, H, 0, 7, Transfer(H, H, 1, [Paper(I, 5.0, Ref(I, 6), Some(Ref(H, 1)))], 10, None, None), true,
    None, None, NoAnswer, None)

  function Spent(): Table { Table([Z, W, Q, KEPT, OTHER, LENT, V], 6, [4, 6, 3, 0, 1, 2, 5]) }

  const KEPT_BILL := BillKey(H, Ref(A, 4), A)
  const OTHER_BILL := BillKey(H, Ref(A, 5), A)
  const LENT_BILL := BillKey(H, Ref(I, 6), I)
  const MOVED_BILL := BillKey(H, Ref(H, 7), I)

  // ---------- What is on the table ----------

  lemma OnTheTable()
    ensures var T := Spent();
            && |T.carriers| == 7 == |T.age| && T.deals == 6
            && T.carriers[0] == Z && T.carriers[1] == W && T.carriers[2] == Q && T.carriers[3] == KEPT
            && T.carriers[4] == OTHER && T.carriers[5] == LENT && T.carriers[6] == V
            && T.age[0] == 4 && T.age[1] == 6 && T.age[2] == 3 && T.age[3] == 0 && T.age[4] == 1 && T.age[5] == 2 &&
               T.age[6] == 5
  {
  }

  lemma TableIsWell()
    ensures WellFormed(Spent())
  {
    OnTheTable();
    var T := Spent();
    hide Spent;
    forall c | 0 <= c < 7 ensures WellFormedCarrier(T, c) {
      assert c == 0 || c == 1 || c == 2 || c == 3 || c == 4 || c == 5 || c == 6;
    }
  }

  lemma PortionsAre(s: Spend)
    ensures IsPortion(Spent(), s) <==>
            s == Spend(0, 0) || s == Spend(0, 1) || s == Spend(1, 0) || s == Spend(1, 1) ||
            s == Spend(2, 0) || s == Spend(2, 1) || s == Spend(6, 0)
  {
    OnTheTable();
    var T := Spent();
    hide Spent;
    if s.c < 7 { assert s.c == 0 || s.c == 1 || s.c == 2 || s.c == 3 || s.c == 4 || s.c == 5 || s.c == 6; }
  }

  lemma KeysAre()
    ensures var T := Spent();
            && IsPortion(T, Spend(0, 0)) && KeyOf(T, Spend(0, 0)) == KEPT_BILL && IsPortion(T, Spend(0, 1)) &&
               KeyOf(T, Spend(0, 1)) == LENT_BILL
            && IsPortion(T, Spend(1, 0)) && KeyOf(T, Spend(1, 0)) == OTHER_BILL && IsPortion(T, Spend(1, 1)) &&
               KeyOf(T, Spend(1, 1)) == MOVED_BILL
            && IsPortion(T, Spend(2, 0)) && KeyOf(T, Spend(2, 0)) == KEPT_BILL && IsPortion(T, Spend(2, 1)) &&
               KeyOf(T, Spend(2, 1)) == OTHER_BILL
            && IsPortion(T, Spend(6, 0)) && KeyOf(T, Spend(6, 0)) == LENT_BILL
  {
    OnTheTable();
    hide Spent;
  }

  lemma SourcesAre()
    ensures var T := Spent();
            && Find(T, Ref(A, 4)) == Some(3) && Find(T, Ref(A, 5)) == Some(4) && Find(T, Ref(I, 6)) == Some(5) &&
               Find(T, Ref(H, 7)) == Some(6)
  {
    OnTheTable();
    var T := Spent();
    hide Spent, FindFrom;
    forall c: nat, d: nat | c < 7 && d < 7 && T.carriers[c].hash == T.carriers[d].hash ensures c == d {
      assert c == 0 || c == 1 || c == 2 || c == 3 || c == 4 || c == 5 || c == 6;
      assert d == 0 || d == 1 || d == 2 || d == 3 || d == 4 || d == 5 || d == 6;
    }
  }

  lemma ListsAre()
    ensures var T := Spent();
            && SpendsOf(T, KEPT_BILL) == [Spend(2, 0), Spend(0, 0)] &&
               SpendsOf(T, OTHER_BILL) == [Spend(1, 0), Spend(2, 1)]
            && SpendsOf(T, LENT_BILL) == [Spend(0, 1), Spend(6, 0)] && SpendsOf(T, MOVED_BILL) == [Spend(1, 1)]
  {
    var T := Spent();
    TableIsWell();
    OnTheTable();
    KeysAre();
    hide Spent, WellFormed, SpendsOf, IsPortion, KeyOf;
    forall s | IsPortion(T, s)
      ensures s in [Spend(0, 0), Spend(0, 1), Spend(1, 0), Spend(1, 1), Spend(2, 0), Spend(2, 1), Spend(6, 0)]
    {
      PortionsAre(s);
    }
    ListIs(T, KEPT_BILL, [Spend(2, 0), Spend(0, 0)]);
    ListIs(T, OTHER_BILL, [Spend(1, 0), Spend(2, 1)]);
    ListIs(T, LENT_BILL, [Spend(0, 1), Spend(6, 0)]);
    ListIs(T, MOVED_BILL, [Spend(1, 1)]);
  }

  lemma TableIsStratified()
    ensures Stratified(Spent())
  {
    var T := Spent();
    TableIsWell();
    OnTheTable();
    SourcesAre();
    hide Spent, WellFormed, Find;
    forall s | IsPortion(T, s) ensures NamesEarlier(T, s) { PortionsAre(s); }
    forall c: nat, d: nat | c < 7 && d < 7 ensures BranchGrows(T, c, d) {
      assert c == 0 || c == 1 || c == 2 || c == 3 || c == 4 || c == 5 || c == 6;
      assert d == 0 || d == 1 || d == 2 || d == 3 || d == 4 || d == 5 || d == 6;
    }
    forall c: nat | c < 7 ensures StandsOnEarlier(T, c) {
      assert c == 0 || c == 1 || c == 2 || c == 3 || c == 4 || c == 5 || c == 6;
    }
  }

  // Z goes on from Q's spend and V from Z's; nobody buys anything back.
  lemma PreviousAreEarlier()
    ensures OthersEarlier(Spent())
  {
    var T := Spent();
    OnTheTable();
    FindsOwn(2);
    FindsOwn(0);
    hide Spent, Find;
    forall s | IsPortion(T, s) ensures PreviousEarlier(T, s) { PortionsAre(s); }
    forall c: nat | c < 7 ensures ReturnEarlier(T, c) {
      assert c == 0 || c == 1 || c == 2 || c == 3 || c == 4 || c == 5 || c == 6;
    }
  }

  // A block is found by its own reference.
  lemma FindsOwn(c: nat)
    requires c < 7
    ensures |Spent().carriers| == 7
    ensures Find(Spent(), Ref(Spent().carriers[c].author, Spent().carriers[c].hash)) == Some(c)
  {
    OnTheTable();
    TableIsWell();
    hide Spent, FindFrom;
  }

  lemma CreditsAre()
    ensures CreditIf(Spent(), KEPT_BILL, true) == Credit(0, 5.0, Some(0))
    ensures CreditIf(Spent(), OTHER_BILL, true) == Credit(1, 5.0, Some(0))
    ensures CreditIf(Spent(), LENT_BILL, true) == Credit(0, 5.0, Some(1))
    ensures CreditIf(Spent(), MOVED_BILL, true) == Credit(1, 5.0, None)
  {
    OnTheTable();
    SourcesAre();
    hide Spent, Find;
    OneCredit(KEPT.t, A);
    OneCredit(OTHER.t, A);
    OneCredit(LENT.t, I);
    OneCredit(V.t, I);
    hide BillCredit;
  }


  // ---------- The walk over this table ----------

  lemma NoDeposits(s: Spend)
    requires IsPortion(Spent(), s)
    ensures DepositOf(Spent(), s).None?
  {
    OnTheTable();
    SourcesAre();
    PortionsAre(s);
    hide Spent, Find;
  }

  lemma SpendsAre(stands: bool)
    ensures var T := Spent();
            && IsPortion(T, Spend(2, 0)) &&
               SpendOf(T, Spend(2, 0), stands, false) ==
                 BillSpend(3, 0, 5, 10, 1.0, None, false, Accepted, 99, stands, false)
            && IsPortion(T, Spend(0, 0)) &&
               SpendOf(T, Spend(0, 0), stands, false) ==
                 BillSpend(1, 0, 6, 10, 1.0, Some(Ref(H, 3)), false, Accepted, 99, stands, false)
            && IsPortion(T, Spend(1, 0)) &&
               SpendOf(T, Spend(1, 0), stands, false) ==
                 BillSpend(2, 1, 2, 10, 1.0, None, false, Accepted, 99, stands, false)
            && IsPortion(T, Spend(2, 1)) &&
               SpendOf(T, Spend(2, 1), stands, false) ==
                 BillSpend(3, 0, 5, 10, 1.0, None, false, Accepted, 99, stands, false)
            && IsPortion(T, Spend(0, 1)) &&
               SpendOf(T, Spend(0, 1), stands, false) ==
                 BillSpend(1, 0, 6, 10, 5.0, None, false, Accepted, 99, stands, false)
            && IsPortion(T, Spend(6, 0)) &&
               SpendOf(T, Spend(6, 0), stands, false) ==
                 BillSpend(7, 0, 7, 10, 5.0, Some(Ref(H, 1)), true, NoAnswer, 0, stands, false)
            && IsPortion(T, Spend(1, 1)) &&
               SpendOf(T, Spend(1, 1), stands, false) ==
                 BillSpend(2, 1, 2, 10, 5.0, None, false, Accepted, 99, stands, false)
  {
    OnTheTable();
    hide Spent;
  }

  lemma TwoSpendsIs(k: BillKey, d: nat, x: Spend, y: Spend)
    requires IsPortion(Spent(), x) && IsPortion(Spent(), y) && Precedes(Spent(), x, y) &&
             KeyOf(Spent(), x) == k == KeyOf(Spent(), y)
    requires Find(Spent(), k.src) == Some(d) && SpendsOf(Spent(), k) == [x, y]
    requires 3 <= d < 6 && Spent().carriers[d].t.to == k.holder
    requires Fits(Opening(Spent(), k, true), SpendOf(Spent(), x, true, false))
    ensures TwoSpends(Spent(), k, d, x, y)
  {
    OnTheTable();
    NoDeposits(x);
    NoDeposits(y);
    assert d == 3 || d == 4 || d == 5;
    hide Spent, Find, SpendsOf, DepositOf, Opening, SpendOf, Fits, Precedes;
  }

  // What Z waits for: Q's spend of this bill, found to hold nothing, leaves Z's next on the thread.
  lemma KeptBill()
    ensures TwoSpends(Spent(), KEPT_BILL, 3, Spend(2, 0), Spend(0, 0))
    ensures Fits(FirstSettled(Spent(), KEPT_BILL, 3, Spend(2, 0), Spend(0, 0), false),
            SpendOf(Spent(), Spend(0, 0), true, false))
  {
    OnTheTable();
    KeysAre();
    SourcesAre();
    ListsAre();
    CreditsAre();
    SpendsAre(true);
    SpendsAre(false);
    hide Spent, Find, SpendsOf, CreditIf, SpendOf, IsPortion, KeyOf, TwoSpends;
    TwoSpendsIs(KEPT_BILL, 3, Spend(2, 0), Spend(0, 0));
  }

  // Q spends the other bill after W, out of the wrong purse.
  lemma OtherBill(held: bool)
    ensures TwoSpends(Spent(), OTHER_BILL, 4, Spend(1, 0), Spend(2, 1))
    ensures !Fits(FirstSettled(Spent(), OTHER_BILL, 4, Spend(1, 0), Spend(2, 1), held),
            SpendOf(Spent(), Spend(2, 1), true, false))
  {
    OnTheTable();
    KeysAre();
    SourcesAre();
    ListsAre();
    CreditsAre();
    SpendsAre(true);
    SpendsAre(held);
    hide Spent, Find, SpendsOf, CreditIf, SpendOf, IsPortion, KeyOf, TwoSpends;
    TwoSpendsIs(OTHER_BILL, 4, Spend(1, 0), Spend(2, 1));
  }

  // V moves what Z spends: it fits only if Z's spend holds nothing.
  lemma LentBill(held: bool)
    ensures TwoSpends(Spent(), LENT_BILL, 5, Spend(0, 1), Spend(6, 0))
    ensures var run := FirstSettled(Spent(), LENT_BILL, 5, Spend(0, 1), Spend(6, 0), held);
            Fits(run, SpendOf(Spent(), Spend(6, 0), true, false)) <==> !held
  {
    OnTheTable();
    KeysAre();
    SourcesAre();
    ListsAre();
    CreditsAre();
    SpendsAre(true);
    SpendsAre(held);
    hide Spent, Find, SpendsOf, CreditIf, SpendOf, IsPortion, KeyOf, TwoSpends;
    TwoSpendsIs(LENT_BILL, 5, Spend(0, 1), Spend(6, 0));
  }

  lemma MovedBill()
    ensures Find(Spent(), MOVED_BILL.src) == Some(6) && SpendsOf(Spent(), MOVED_BILL) == [Spend(1, 1)]
    ensures IsPortion(Spent(), Spend(1, 1)) &&
            Fits(Opening(Spent(), MOVED_BILL, true), SpendOf(Spent(), Spend(1, 1), true, false))
  {
    SourcesAre();
    ListsAre();
    CreditsAre();
    SpendsAre(true);
    hide Spent, Find, SpendsOf, CreditIf, SpendOf, IsPortion, KeyOf;
  }

  // ---------- Down the loop ----------

  // Z is being decided, and nothing below it has been asked yet.
  ghost predicate ZPending(m: Memory) {
    && Shape(Spent(), m)
    && IsAddressed(0) in m.memo && m.memo[IsAddressed(0)] == Yes && IsBacked(0) in m.memo &&
       m.memo[IsBacked(0)] == Deciding
    && Holding(0) !in m.memo && Happens(1) !in m.memo && Unheard(m, 5) && LENT_BILL !in m.runs
  }

  // Z was refused, and its spend of the lent bill taken to hold nothing.
  ghost predicate Spoiled(m: Memory) {
    && Shape(Spent(), m)
    && Happens(5) in m.memo && m.memo[Happens(5)] == Yes && Happens(1) !in m.memo && IsBacked(0) in m.refused
    && LENT_BILL in m.runs && m.runs[LENT_BILL].run.Some? && m.runs[LENT_BILL].fit == [true, true]
  }

  // Z's hours, asked about while Z is being decided.
  lemma ZHoldsNot(m: Memory)
    requires Shape(Spent(), m) && Holding(0) !in m.memo && Holding(0) in Questions(Spent())
    requires IsAddressed(0) in m.memo && m.memo[IsAddressed(0)] == Yes && IsBacked(0) in m.memo &&
             m.memo[IsBacked(0)] == Deciding
    ensures var r := Ask(Spent(), m, Holding(0));
            !r.yes && IsBacked(0) in r.m.refused && r.m.memo == m.memo[Holding(0) := Deciding][Holding(0) := No]
  {
    OnTheTable();
    var T, b := Spent(), Begin(m, Holding(0));
    hide Spent, Shape, Questions;
    AskIs(T, m, Holding(0));
    assert Ask(T, b, IsAddressed(0)) == Told(true, b);
    assert Ask(T, b, IsBacked(0)) == Told(false, Refuse(b, IsBacked(0)));
    assert AskBoth(T, b, IsAddressed(0), IsBacked(0)) == Told(false, Refuse(b, IsBacked(0)));
  }

  lemma ZWaits(m: Memory, a: Memory)
    requires ZPending(m) && TwoSpends(Spent(), LENT_BILL, 5, Spend(0, 1), Spend(6, 0))
    requires a == Waiting(Spent(), m, LENT_BILL, 5, Spend(0, 1), Spend(6, 0)) && Shape(Spent(), a) &&
             Holding(0) in Questions(Spent())
    ensures var r := Ask(Spent(), a, Holding(0));
            !r.yes && IsBacked(0) in r.m.refused && Happens(5) in r.m.memo && r.m.memo[Happens(5)] == Yes &&
              Happens(1) !in r.m.memo
  {
    hide Spent, SpendsOf, TwoSpends, Shape, SpendOf, Questions, Fits, Ask, RunsKept, Judged, Opening;
    assert Happens(5) in a.memo && a.memo[Happens(5)] == Yes;
    ZHoldsNot(a);
  }

  lemma VFits(m: Memory)
    requires ZPending(m)
    ensures |SpendsOf(Spent(), LENT_BILL)| == 2
    ensures var r := AskFit(Spent(), m, LENT_BILL, 1); r.yes && Spoiled(r.m)
  {
    var T, k := Spent(), LENT_BILL;
    LentBill(false);
    assert SpendsOf(T, k) == [Spend(0, 1), Spend(6, 0)];
    hide Spent, SpendsOf, TwoSpends, Shape, FirstSettled, SpendOf, Questions, Fits, AskFit, Ask, Kept, Waiting;
    Second(T, m, k, 5, Spend(0, 1), Spend(6, 0));
    ZWaits(m, Waiting(T, m, k, 5, Spend(0, 1), Spend(6, 0)));
  }

  lemma VIsBacked(m: Memory)
    requires ZPending(m) && IsBacked(6) !in m.memo
    ensures IsBacked(6) in Questions(Spent()) && Ask(Spent(), m, IsBacked(6)).yes &&
            Spoiled(Ask(Spent(), m, IsBacked(6)).m)
  {
    var T, m1 := Spent(), Begin(m, IsBacked(6));
    OnTheTable();
    KeysAre();
    ListsAre();
    assert |V.t.origins| == 1 && Shape(T, m);
    hide Spent, SpendsOf, KeyOf, IsPortion, Shape, Questions, Spoiled, AskFit, Ask, Kept;
    BackedOfOne(T, m, 6, 1);
    StillZPending(m);
    hide ZPending;
    VFits(m1);
    SpoiledMore(AskFit(T, m1, LENT_BILL, 1).m, IsBacked(6));
  }

  lemma StillZPending(m: Memory)
    requires ZPending(m) && Shape(Spent(), Begin(m, IsBacked(6)))
    ensures ZPending(Begin(m, IsBacked(6)))
  {
    hide Spent, Shape;
  }

  lemma SpoiledMore(m: Memory, q: Question)
    requires Spoiled(m) && Shape(Spent(), End(m, q, true)) && q != Happens(1)
    ensures Spoiled(End(m, q, true))
  {
    hide Shape, Spent;
  }

  ghost predicate BeforeW(m: Memory) {
    ZPending(m) && IsBacked(6) !in m.memo && MOVED_BILL !in m.runs
  }

  lemma StillBeforeW(m: Memory, e: Entry)
    requires BeforeW(m) && Shape(Spent(), m.(runs := m.runs[MOVED_BILL := e]))
    ensures ZPending(m.(runs := m.runs[MOVED_BILL := e]))
  {
    hide Spent, Shape;
  }

  lemma SpoiledAgain(a: Memory, b: Memory, k: BillKey)
    requires Spoiled(a) && Shape(Spent(), b) && k != LENT_BILL && k in b.runs
    requires b.memo == a.memo && b.refused == a.refused && b.runs == a.runs[k := b.runs[k]]
    ensures Spoiled(b)
  {
    hide Spent, Shape;
  }

  lemma WFits(m: Memory)
    requires BeforeW(m)
    ensures |SpendsOf(Spent(), MOVED_BILL)| == 1
    ensures var r := AskFit(Spent(), m, MOVED_BILL, 0); r.yes && Spoiled(r.m)
  {
    var T, k := Spent(), MOVED_BILL;
    OnTheTable();
    KeysAre();
    MovedBill();
    NoDeposits(Spend(1, 1));
    assert SourceQuestion(T, 6) == IsBacked(6);
    var o := m.(runs := m.runs[k := OPENED]);
    hide Spent, SpendsOf, KeyOf, Find, IsPortion, Fits, SpendOf, Opening, AskFit, DepositOf, Ask, Shape, Questions,
         Kept, Spoiled;
    First(T, m, k, 6, Spend(1, 1));
    StillBeforeW(m, OPENED);
    hide ZPending;
    VIsBacked(o);
    SpoiledAgain(Ask(T, o, IsBacked(6)).m, AskFit(T, m, k, 0).m, k);
  }

  ghost predicate BeforeWHolds(m: Memory) {
    BeforeW(m) && Unheard(m, 1) && Holding(1) !in m.memo
  }

  ghost predicate Misled(m: Memory) {
    Spoiled(m) && IsAddressed(1) in m.memo && m.memo[IsAddressed(1)] == Yes && IsBacked(1) in m.memo &&
      m.memo[IsBacked(1)] == Yes
  }

  lemma WHolds(m: Memory)
    requires BeforeWHolds(m) && OTHER_BILL in m.runs && m.runs[OTHER_BILL].run.Some? && m.runs[OTHER_BILL].fit == [true]
    ensures Holding(1) in Questions(Spent())
    ensures var r := Ask(Spent(), m, Holding(1)); r.yes && Misled(r.m)
  {
    var T := Spent();
    OnTheTable();
    KeysAre();
    ListsAre();
    hide Spent, SpendsOf, KeyOf, IsPortion, Shape, AskFit, AskPortions, Ask, Questions, Kept;
    HoldingIs(T, m, 1);
    var b := m.(memo := m.memo[Holding(1) := Deciding][IsAddressed(1) := Yes][IsBacked(1) := Deciding]);
    WFits(b);
    TwoPortions(T, b, 1, 0, 0);
    FitKnown(T, b, OTHER_BILL, 0);
    var a := AskPortions(T, b, 1, 0);
    assert IsAddressed(1) in a.m.memo && a.m.memo[IsAddressed(1)] == Yes by { KeepsMemo(T, b, a.m, IsAddressed(1)); }
  }

  lemma KeepsMemo(T: Table, a: Memory, b: Memory, q: Question)
    requires Kept(T, a, b) && q in a.memo
    ensures q in b.memo && b.memo[q] == a.memo[q]
  {
    hide RunsKept;
  }

  ghost predicate BeforeQ(m: Memory) {
    BeforeWHolds(m) && Unheard(m, 4) && OTHER_BILL !in m.runs
  }

  lemma WWaits(m: Memory, a: Memory)
    requires BeforeQ(m) && TwoSpends(Spent(), OTHER_BILL, 4, Spend(1, 0), Spend(2, 1))
    requires a == Waiting(Spent(), m, OTHER_BILL, 4, Spend(1, 0), Spend(2, 1)) && Shape(Spent(), a) &&
             Holding(1) in Questions(Spent())
    ensures var r := Ask(Spent(), a, Holding(1)); r.yes && Misled(r.m)
  {
    hide Spent, SpendsOf, TwoSpends, Shape, SpendOf, Questions, Fits, Ask, Judged, Opening, Misled;
    WHolds(a);
  }

  lemma MisledAgain(a: Memory, b: Memory, k: BillKey)
    requires Misled(a) && Shape(Spent(), b) && k != LENT_BILL && k in b.runs
    requires b.memo == a.memo && b.refused == a.refused && b.runs == a.runs[k := b.runs[k]]
    ensures Misled(b)
  {
    hide Spent, Shape;
  }

  lemma QUnfit(m: Memory)
    requires BeforeQ(m)
    ensures |SpendsOf(Spent(), OTHER_BILL)| == 2
    ensures var r := AskFit(Spent(), m, OTHER_BILL, 1); !r.yes && Misled(r.m)
  {
    var T, k := Spent(), OTHER_BILL;
    OtherBill(true);
    assert SpendsOf(T, k) == [Spend(1, 0), Spend(2, 1)];
    hide Spent, SpendsOf, TwoSpends, Shape, FirstSettled, SpendOf, Questions, Fits, AskFit, Ask, Kept, Waiting, Misled;
    Second(T, m, k, 4, Spend(1, 0), Spend(2, 1));
    var a := Waiting(T, m, k, 4, Spend(1, 0), Spend(2, 1));
    WWaits(m, a);
    MisledAgain(Ask(T, a, Holding(1)).m, AskFit(T, m, k, 1).m, k);
  }

  ghost predicate BeforeQHolds(m: Memory) {
    BeforeQ(m) && Unheard(m, 2) && Holding(2) !in m.memo
  }

  lemma QHoldsNot(m: Memory)
    requires BeforeQHolds(m) && KEPT_BILL in m.runs && m.runs[KEPT_BILL].run.Some? && m.runs[KEPT_BILL].fit == [true]
    ensures Holding(2) in Questions(Spent())
    ensures var r := Ask(Spent(), m, Holding(2)); !r.yes && Misled(r.m)
  {
    var T := Spent();
    OnTheTable();
    KeysAre();
    ListsAre();
    hide Spent, SpendsOf, KeyOf, IsPortion, Shape, AskFit, AskPortions, Ask, Questions, Kept;
    HoldingIs(T, m, 2);
    var b := m.(memo := m.memo[Holding(2) := Deciding][IsAddressed(2) := Yes][IsBacked(2) := Deciding]);
    QUnfit(b);
    TwoPortions(T, b, 2, 0, 1);
    FitKnown(T, b, KEPT_BILL, 0);
  }

  ghost predicate BeforeZ(m: Memory) {
    BeforeQHolds(m) && Unheard(m, 3) && KEPT_BILL !in m.runs
  }

  lemma QWaits(m: Memory, a: Memory)
    requires BeforeZ(m) && TwoSpends(Spent(), KEPT_BILL, 3, Spend(2, 0), Spend(0, 0))
    requires a == Waiting(Spent(), m, KEPT_BILL, 3, Spend(2, 0), Spend(0, 0)) && Shape(Spent(), a) &&
             Holding(2) in Questions(Spent())
    ensures var r := Ask(Spent(), a, Holding(2)); !r.yes && Misled(r.m)
  {
    hide Spent, SpendsOf, TwoSpends, Shape, SpendOf, Questions, Fits, Ask, Judged, Opening, Misled;
    QHoldsNot(a);
  }

  lemma ZFits(m: Memory)
    requires BeforeZ(m)
    ensures |SpendsOf(Spent(), KEPT_BILL)| == 2
    ensures var r := AskFit(Spent(), m, KEPT_BILL, 1); r.yes && Misled(r.m)
  {
    var T, k := Spent(), KEPT_BILL;
    KeptBill();
    assert SpendsOf(T, k) == [Spend(2, 0), Spend(0, 0)];
    hide Spent, SpendsOf, TwoSpends, Shape, FirstSettled, SpendOf, Questions, Fits, AskFit, Ask, Kept, Waiting, Misled;
    Second(T, m, k, 3, Spend(2, 0), Spend(0, 0));
    var a := Waiting(T, m, k, 3, Spend(2, 0), Spend(0, 0));
    QWaits(m, a);
    MisledAgain(Ask(T, a, Holding(2)).m, AskFit(T, m, k, 1).m, k);
  }

  lemma MisledHas(m: Memory)
    requires Misled(m)
    ensures CanWalk(Spent(), m, LENT_BILL) && m.runs[LENT_BILL].fit == [true, true]
  {
    hide Spent, Shape;
  }

  lemma ZPortions(m: Memory)
    requires BeforeZ(m)
    ensures |Spent().carriers| == 7
    ensures var r := AskPortions(Spent(), m, 0, 0); r.yes && Misled(r.m)
  {
    var T := Spent();
    OnTheTable();
    KeysAre();
    ListsAre();
    assert |Z.t.origins| == 2 && Shape(T, m);
    hide Spent, SpendsOf, KeyOf, IsPortion, AskFit, AskPortions, Ask, Questions, Kept, WellFormed, Shape, Misled;
    ZFits(m);
    hide BeforeZ;
    TwoPortions(T, m, 0, 1, 0);
    var a := AskFit(T, m, KEPT_BILL, 1);
    MisledHas(a.m);
    FitKnown(T, a.m, LENT_BILL, 0);
  }

  // Asked first of all, Z happens, and W, which was judged meanwhile, holds too.
  lemma ZHappens()
    ensures Shape(Spent(), NOTHING_ASKED) && Happens(0) in Questions(Spent())
    ensures var r := Ask(Spent(), NOTHING_ASKED, Happens(0)); r.yes && Misled(r.m) && Recalls(r.m, Happens(0), true)
  {
    var T, m := Spent(), NOTHING_ASKED;
    TableIsWell();
    OnTheTable();
    hide Spent, SpendsOf, AskPortions, Ask, Questions, Kept, WellFormed;
    HappensIs(T, m, 0);
    hide Shape;
    ZPortions(m.(memo := m.memo[Happens(0) := Deciding][IsAddressed(0) := Yes][IsBacked(0) := Deciding]));
  }

  // ---------- What comes of it ----------

  lemma FirstTwoHappen()
    requires WellFormed(Spent())
    ensures var m := After(Spent(), 2);
            Recalls(m, Happens(0), true) && Recalls(m, Happens(1), true) && Recalls(m, Happens(5), true) &&
              IsBacked(0) in m.refused
  {
    var T := Spent();
    OnTheTable();
    AfterEnds(T);
    AfterStep(T, 0);
    AfterStep(T, 1);
    ZHappens();
    hide Spent, Shape, After, WellFormed, Ask;
    var m := After(T, 1);
    assert TopQuestion(T, 0) == Happens(0) && TopQuestion(T, 1) == Happens(1);
    assert Recalls(m, Happens(5), true);
    WHappens(m);
  }

  lemma WHappens(m: Memory)
    requires Misled(m)
    ensures Happens(1) in Questions(Spent())
    ensures Ask(Spent(), m, Happens(1)).yes && m.refused <= Ask(Spent(), m, Happens(1)).m.refused
  {
    var T, q := Spent(), Happens(1);
    OnTheTable();
    hide Spent, Shape, Questions;
    assert q in Questions(T) by { WInQuestions(); }
    AskIs(T, m, q);
    var b := Begin(m, q);
    assert Ask(T, b, IsAddressed(1)) == Told(true, b);
    assert Ask(T, b, IsBacked(1)) == Told(true, b);
    assert AskBoth(T, b, IsAddressed(1), IsBacked(1)) == Told(true, b);
  }

  lemma WInQuestions()
    ensures Happens(1) in Questions(Spent()) && IsBacked(1) in Questions(Spent()) &&
            IsAddressed(1) in Questions(Spent())
  {
  }

  lemma FourHappen()
    requires WellFormed(Spent()) && |Spent().carriers| == 7 && Spent().deals == 6
    ensures var happened := HappenedBy(Spent(), Judgement(Spent()), 6);
            Z.hash in happened && W.hash in happened && LENT.hash in happened
  {
    var T := Spent();
    OnTheTable();
    FirstTwoHappen();
    hide Spent, After, WellFormed, Judgement, Recalls;
    AfterEnds(T);
    StillRecalled(T, Happens(0), 2, 13);
    StillRecalled(T, Happens(1), 2, 13);
    StillRecalled(T, Happens(5), 2, 13);
  }

  lemma HoursAre()
    ensures BillCredit(Z.t, I) == 5.0 == BillCredit(W.t, I) && BillCredit(Q.t, I) == 0.0 && BillCredit(LENT.t, I) == 5.0
    ensures BillCredit(KEPT.t, I) == 0.0 == BillCredit(OTHER.t, I)
  {
    OneCredit(LENT.t, I);
    TwoCredit(Z.t);
    TwoCredit(W.t);
    TwoCredit(Q.t);
    NoCredit(KEPT.t);
    NoCredit(OTHER.t);
  }

  lemma {:induction false} TwoCredit(t: Transfer)
    requires |t.origins| == 2 && t.origins[0].issuer != I
    ensures BillCredit(t, I) == if t.origins[1].issuer == I then t.origins[1].units else 0.0
  {
    var f := (o: Origin) => if o.issuer == I then o.units else 0.0;
    assert t.origins[..1][..0] == [] && Sum(t.origins[..1][..0], f) == 0.0;
    assert Sum(t.origins[..1], f) == f(t.origins[0]);
    SumEq(t.origins, f, (o: Origin) => if o.issuer == I then o.units else 0.0);
  }

  lemma {:induction false} NoCredit(t: Transfer)
    requires |t.origins| == 1 && t.origins[0].issuer != I
    ensures BillCredit(t, I) == 0.0
  {
    var f := (o: Origin) => if o.issuer == I then o.units else 0.0;
    assert Sum(t.origins[..0], f) == 0.0;
    SumEq(t.origins, f, (o: Origin) => if o.issuer == I then o.units else 0.0);
  }

  lemma SixTerms(f: int -> real)
    ensures SumTo(6, f) == f(0) + f(1) + f(2) + f(3) + f(4) + f(5)
  {
    assert SumTo(2, f) == f(0) + f(1);
    assert SumTo(4, f) == SumTo(2, f) + f(2) + f(3);
  }

  // Every reference names an earlier block, and still the walk lets H pass on ten hours of
  // I's paper, having been paid five: Z and W both happen.
  lemma SpentTwice()
    ensures var T := Spent();
            && Stratified(T) && OthersEarlier(T) && !Ranked(T) && WellFormed(T) && |T.carriers| == 7 && T.deals == 6
            && var happened := HappenedBy(T, Judgement(T), 6);
               PaidBy(T, happened, H, I) == 10.0 && PaidTo(T, happened, H, I) == 5.0
  {
    var T := Spent();
    TableIsWell();
    TableIsStratified();
    PreviousAreEarlier();
    OnTheTable();
    NotRanked();
    FourHappen();
    HoursAre();
    hide Spent, Judgement, HappenedBy, BillCredit, Stratified, OthersEarlier, Ranked, WellFormed;
    var happened := HappenedBy(T, Judgement(T), 6);
    SixTerms(c => if 0 <= c < T.deals && T.carriers[c].hash in happened && T.carriers[c].author == H
                  then BillCredit(T.carriers[c].t, I) else 0.0);
    SixTerms(c => if 0 <= c < T.deals && T.carriers[c].hash in happened && T.carriers[c].t.to == H
                  then BillCredit(T.carriers[c].t, I) else 0.0);
  }

  // Round the loop: W before Q and Q before Z on the lists of their bills, Z before V on the
  // lent bill's, and V moved what W spends.
  lemma NotRanked()
    ensures !Ranked(Spent())
  {
    var T := Spent();
    OnTheTable();
    KeysAre();
    SourcesAre();
    hide Spent, KeyOf, IsPortion, Find, Ranks;
    assert SourceOf(T, MOVED_BILL) == Some(6);
    if rank: seq<nat> :| |rank| == |T.carriers| && Ranks(T, rank) {
      RankGrows(T, rank, Spend(1, 0), Spend(2, 1));
      RankGrows(T, rank, Spend(2, 0), Spend(0, 0));
      RankGrows(T, rank, Spend(0, 1), Spend(6, 0));
      SourceFirst(T, rank, Spend(1, 1));
    }
  }
}
