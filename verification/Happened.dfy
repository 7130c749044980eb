// The one reading of a table whose references name earlier blocks: every question is
// answered by recursion on the age of the blocks it is about.
module Happened {
  import opened Options
  import opened Settlement
  import opened DealsTable

  // ---------- When references name earlier blocks ----------

  ghost function AgeOf(T: Table, c: nat): nat
    requires c < |T.age|
  {
    T.age[c] + 1
  }

  ghost predicate NamesEarlier(T: Table, s: Spend)
    requires |T.age| == |T.carriers| && IsPortion(T, s)
  {
    var src := Find(T, OriginOf(T, s).src.value);
    src.Some? ==> AgeOf(T, src.value) < AgeOf(T, s.c)
  }

  ghost predicate StandsOnEarlier(T: Table, c: nat)
    requires |T.age| == |T.carriers| && c < |T.carriers|
  {
    T.carriers[c].standsOn.Some? ==>
      T.carriers[c].standsOn.value < |T.age| && AgeOf(T, T.carriers[c].standsOn.value) < AgeOf(T, c)
  }

  // In one branch, positions are unique and grow with age.
  ghost predicate BranchGrows(T: Table, c: nat, d: nat)
    requires |T.age| == |T.carriers| && c < |T.carriers| && d < |T.carriers|
  {
    var x, y := T.carriers[c], T.carriers[d];
    c != d && x.author == y.author && x.node == y.node ==>
      x.index != y.index && (x.index < y.index ==> AgeOf(T, c) < AgeOf(T, d))
  }

  // The previous spend a portion names, and the purchase a deal buys back.
  ghost predicate PreviousEarlier(T: Table, s: Spend)
    requires |T.age| == |T.carriers| && IsPortion(T, s)
  {
    var prev := OriginOf(T, s).prev;
    prev.Some? && Find(T, prev.value).Some? ==> AgeOf(T, Find(T, prev.value).value) < AgeOf(T, s.c)
  }

  ghost predicate ReturnEarlier(T: Table, c: nat)
    requires |T.age| == |T.carriers| && c < |T.carriers|
  {
    var h := T.carriers[c].buybackOf;
    h.Some? ==> h.value < |T.age| && AgeOf(T, h.value) < AgeOf(T, c)
  }

  // The references no verdict waits for. No theorem needs them earlier; a table that can be
  // written has them so.
  ghost predicate OthersEarlier(T: Table) {
    && |T.age| == |T.carriers|
    && (forall s | IsPortion(T, s) :: PreviousEarlier(T, s))
    && (forall c | 0 <= c < |T.carriers| :: ReturnEarlier(T, c))
  }

  // Every source and every purchase stood on is an earlier block, branches grow.
  ghost predicate Stratified(T: Table) {
    && WellFormed(T)
    && (forall s | IsPortion(T, s) :: NamesEarlier(T, s))
    && (forall c | 0 <= c < |T.carriers| :: StandsOnEarlier(T, c))
    && (forall c, d | 0 <= c < |T.carriers| && 0 <= d < |T.carriers| :: BranchGrows(T, c, d))
  }

  ghost function SourceAge(T: Table, k: BillKey): nat
    requires |T.age| == |T.carriers|
  {
    match Find(T, k.src) case None => 0 case Some(s) => AgeOf(T, s)
  }

  // The age of what the run of a bill has seen before its i-th spend: its source, or a spend.
  ghost function RunAge(T: Table, k: BillKey, i: nat): nat
    requires WellFormed(T) && i <= |SpendsOf(T, k)|
  {
    SpendsOfIsList(T, k);
    if i == 0 then SourceAge(T, k) else AgeOf(T, SpendsOf(T, k)[i - 1].c)
  }

  // ---------- The purse of a bill ----------

  function PurseOf(T: Table, k: BillKey): nat {
    match Find(T, k.src) case None => 0 case Some(s) => T.carriers[s].t.toNode
  }

  // The first `n` spends of a bill come out of its purse.
  ghost predicate InPurse(T: Table, k: BillKey, n: nat)
    requires WellFormed(T)
  {
    SpendsOfIsList(T, k);
    n <= |SpendsOf(T, k)| && forall i | 0 <= i < n :: T.carriers[SpendsOf(T, k)[i].c].node == PurseOf(T, k)
  }

  // As long as they do, later on the list is later in time; and the bill's source is before
  // them all.
  lemma RunAgeGrows(T: Table, k: BillKey)
    requires Stratified(T)
    ensures SpendList(T, k, SpendsOf(T, k))
    ensures forall i, j | 0 <= i < j <= |SpendsOf(T, k)| && InPurse(T, k, j) :: RunAge(T, k, i) < RunAge(T, k, j)
  {
    SpendsOfIsList(T, k);
    var list := SpendsOf(T, k);
    forall i, j | 0 <= i < j <= |list| && InPurse(T, k, j) ensures RunAge(T, k, i) < RunAge(T, k, j) {
      var b := list[j - 1];
      assert KeyOf(T, b) == k;
      if i == 0 {
        assert NamesEarlier(T, b);
      } else {
        var a := list[i - 1];
        assert Precedes(T, a, b) && KeyOf(T, a) == k;
        assert BranchGrows(T, a.c, b.c);
      }
    }
  }

  // A deal happened: addressed, answered, backed.
  ghost predicate Effective(T: Table, c: nat)
    requires Stratified(T) && c < T.deals
    decreases AgeOf(T, c), 4
  {
    Addressed(T, c) && T.carriers[c].answer == Accepted && Backed(T, c)
  }

  ghost predicate Addressed(T: Table, c: nat)
    requires Stratified(T) && c < T.deals
    decreases AgeOf(T, c), 2
  {
    && T.carriers[c].terms
    && (T.carriers[c].standsOn.Some? ==>
          assert WellFormedCarrier(T, c) && StandsOnEarlier(T, c);
          Effective(T, T.carriers[c].standsOn.value))
  }

  // Whether a spend by this carrier could hold hours at all.
  ghost predicate Holds(T: Table, c: nat)
    requires Stratified(T) && c < |T.carriers|
    decreases AgeOf(T, c), 3
  {
    (c < T.deals ==> Addressed(T, c)) && Backed(T, c)
  }

  // Every portion of somebody else's paper is a spend its bill covers.
  ghost predicate Backed(T: Table, c: nat)
    requires Stratified(T) && c < |T.carriers|
    decreases AgeOf(T, c), 1
  {
    forall p | 0 <= p < |T.carriers[c].t.origins| && IsPortion(T, Spend(c, p)) :: PortionFits(T, c, p)
  }

  ghost predicate PortionFits(T: Table, c: nat, p: nat)
    requires Stratified(T) && IsPortion(T, Spend(c, p))
    decreases AgeOf(T, c), 0, 3
  {
    var k := KeyOf(T, Spend(c, p));
    RunAgeGrows(T, k);
    forall i | 0 <= i < |SpendsOf(T, k)| && SpendsOf(T, k)[i] == Spend(c, p) :: InPurse(T, k, i + 1) && FitAt(T, k, i)
  }

  // Whether the source of a bill stands: the deal happened, the move is backed.
  ghost predicate SourceStands(T: Table, k: BillKey)
    requires Stratified(T)
    decreases SourceAge(T, k), 5
  {
    match Find(T, k.src)
    case None => false
    case Some(s) => if s < T.deals then Effective(T, s) else Backed(T, s)
  }

  // Whether the deposit of the bill was bought back before the i-th spend, or by it.
  ghost predicate BoughtBack(T: Table, k: BillKey, i: nat, h: nat)
    requires Stratified(T) && i < |SpendsOf(T, k)| && InPurse(T, k, i + 1)
    decreases RunAge(T, k, i + 1), 0, 0
  {
    RunAgeGrows(T, k);
    var list := SpendsOf(T, k);
    || IsBuyback(T, list[i].c, h)
    || exists j | 0 <= j < i ::
         assert RunAge(T, k, j + 1) < RunAge(T, k, i + 1);
         IsBuyback(T, list[j].c, h) && T.carriers[list[j].c].answer == Accepted && Holds(T, list[j].c)
  }

  ghost predicate Frozen(T: Table, k: BillKey, i: nat)
    requires Stratified(T) && i < |SpendsOf(T, k)| && InPurse(T, k, i + 1)
    decreases RunAge(T, k, i + 1), 0, 1
  {
    RunAgeGrows(T, k);
    var s := SpendsOf(T, k)[i];
    DepositOf(T, s).Some? &&
    DepositFrozen(T.carriers[DepositOf(T, s).value].t, T.carriers[s.c].t.timestamp,
      BoughtBack(T, k, i, DepositOf(T, s).value))
  }

  // The run of a bill when its i-th spend comes to be judged, all before it in the purse.
  ghost function RunBefore(T: Table, k: BillKey, i: nat): Run
    requires Stratified(T) && InPurse(T, k, i)
    decreases RunAge(T, k, i), 6
  {
    RunAgeGrows(T, k);
    var list := SpendsOf(T, k);
    if i == 0 then
      var c := CreditIf(T, k, SourceStands(T, k));
      NewRun(k.holder, c.purse, c.credited, c.arrived)
    else
      Taken(RunBefore(T, k, i - 1), SpendOf(T, list[i - 1], Holds(T, list[i - 1].c), Frozen(T, k, i - 1)),
            NextOnList(T, list, i - 1))
  }

  // Whether the i-th spend of a bill is covered.
  ghost predicate FitAt(T: Table, k: BillKey, i: nat)
    requires Stratified(T) && InPurse(T, k, i + 1)
    decreases RunAge(T, k, i + 1), 0, 2
  {
    RunAgeGrows(T, k);
    Fits(RunBefore(T, k, i), SpendOf(T, SpendsOf(T, k)[i], true, Frozen(T, k, i)))
  }

  // ---------- The whole list ----------

  ghost predicate BoughtBackBy(T: Table, k: BillKey, j: nat, h: nat)
    requires Stratified(T) && j < |SpendsOf(T, k)|
  {
    SpendsOfIsList(T, k);
    var c := SpendsOf(T, k)[j].c;
    IsBuyback(T, c, h) && T.carriers[c].answer == Accepted && Holds(T, c)
  }

  ghost predicate FrozenOf(T: Table, k: BillKey, i: nat)
    requires Stratified(T) && i < |SpendsOf(T, k)|
  {
    SpendsOfIsList(T, k);
    var s := SpendsOf(T, k)[i];
    match DepositOf(T, s)
    case None => false
    case Some(h) =>
      DepositFrozen(T.carriers[h].t, T.carriers[s.c].t.timestamp,
                    IsBuyback(T, s.c, h) || exists j | 0 <= j < i :: BoughtBackBy(T, k, j, h))
  }

  ghost function RunOf(T: Table, k: BillKey, i: nat): Run
    requires Stratified(T) && i <= |SpendsOf(T, k)|
  {
    SpendsOfIsList(T, k);
    var list := SpendsOf(T, k);
    if i == 0 then
      var c := CreditIf(T, k, SourceStands(T, k));
      NewRun(k.holder, c.purse, c.credited, c.arrived)
    else
      Taken(RunOf(T, k, i - 1), SpendOf(T, list[i - 1], Holds(T, list[i - 1].c), FrozenOf(T, k, i - 1)),
            NextOnList(T, list, i - 1))
  }

  lemma FrozenAgrees(T: Table, k: BillKey, i: nat)
    requires Stratified(T) && InPurse(T, k, i + 1)
    ensures FrozenOf(T, k, i) == Frozen(T, k, i)
  {
    SpendsOfIsList(T, k);
    var s := SpendsOf(T, k)[i];
    if DepositOf(T, s).Some? {
      var h := DepositOf(T, s).value;
      var list := SpendsOf(T, k);
      forall j | 0 <= j < i
        ensures BoughtBackBy(T, k, j, h) <==>
                  IsBuyback(T, list[j].c, h) && T.carriers[list[j].c].answer == Accepted && Holds(T, list[j].c)
      {}
      assert BoughtBack(T, k, i, h) <==> IsBuyback(T, s.c, h) || exists j | 0 <= j < i :: BoughtBackBy(T, k, j, h);
    }
  }

  // From the first spend out of another purse on, the thread is broken.
  lemma {:induction false} RunOfPurse(T: Table, k: BillKey, i: nat)
    requires Stratified(T) && i <= |SpendsOf(T, k)|
    ensures RunOf(T, k, i).purse == PurseOf(T, k)
    ensures if InPurse(T, k, i) then RunOf(T, k, i) == RunBefore(T, k, i) else RunOf(T, k, i).broken
  {
    hide FrozenOf, Frozen, SpendsOf, Holds, SourceStands, WellFormed, Taken;
    SpendsOfIsList(T, k);
    if i > 0 {
      RunOfPurse(T, k, i - 1);
      var s := SpendsOf(T, k)[i - 1];
      TakenBreaks(RunOf(T, k, i - 1), SpendOf(T, s, Holds(T, s.c), FrozenOf(T, k, i - 1)),
        NextOnList(T, SpendsOf(T, k), i - 1));
      if InPurse(T, k, i) { FrozenAgrees(T, k, i - 1); }
    }
  }

  // ---------- Verdicts ----------

  ghost function Truth(T: Table): Verdicts
    requires Stratified(T)
  {
    Verdicts((c: nat) => c < T.deals && Effective(T, c),
             (c: nat) => c < T.deals && Addressed(T, c),
             (c: nat) => c < |T.carriers| && Holds(T, c),
             (c: nat) => c < |T.carriers| && Backed(T, c),
             (k: BillKey) => SpendsOf(T, k),
             (k: BillKey) => SourceStands(T, k),
             (k: BillKey, i: nat) => if i <= |SpendsOf(T, k)| then RunOf(T, k, i) else NewRun(0, 0, 0.0, None),
             (k: BillKey, i: nat) => i < |SpendsOf(T, k)| && FrozenOf(T, k, i),
             (k: BillKey, i: nat) => InPurse(T, k, i + 1) && FitAt(T, k, i))
  }

  // The recursion obeys every rule.
  lemma TruthIsCoherent(T: Table)
    requires Stratified(T)
    ensures Coherent(T, Truth(T))
  {
    var V := Truth(T);
    forall c | 0 <= c < T.deals ensures EffLaw(T, V, c) && AddrLaw(T, V, c) { assert WellFormedCarrier(T, c); }
    forall c | 0 <= c < |T.carriers| ensures HoldLaw(T, V, c) {}
    forall c | 0 <= c < |T.carriers| ensures BackLaw(T, V, c) { TruthBackLaw(T, c); }
    forall k ensures BillLaws(T, V, k) { TruthBillLaws(T, k); }
  }

  lemma TruthBillLaws(T: Table, k: BillKey)
    requires Stratified(T)
    ensures BillLaws(T, Truth(T), k)
  {
    var V := Truth(T);
    SpendsOfIsList(T, k);
    forall i | 0 <= i < |V.list(k)| ensures FrozenLaw(T, V, k, i) { TruthFrozenLaw(T, k, i); }
    forall i | 0 <= i < |V.list(k)| ensures RunLaw(T, V, k, i) { TruthRunLaw(T, k, i); }
  }

  lemma TruthRunLaw(T: Table, k: BillKey, i: nat)
    requires Stratified(T) && i < |SpendsOf(T, k)|
    ensures SpendList(T, k, SpendsOf(T, k)) && RunLaw(T, Truth(T), k, i)
  {
    hide FrozenOf, Frozen, SpendsOf, Holds, SourceStands, WellFormed, Taken, Effective, Addressed, Backed, Precedes,
         Fits;
    SpendsOfIsList(T, k);
    RunOfPurse(T, k, i);
    NeverFits(RunOf(T, k, i), SpendOf(T, SpendsOf(T, k)[i], true, FrozenOf(T, k, i)));
    if InPurse(T, k, i + 1) { FrozenAgrees(T, k, i); }
  }

  lemma TruthBackLaw(T: Table, c: nat)
    requires Stratified(T) && c < |T.carriers|
    ensures BackLaw(T, Truth(T), c)
  {
    hide WellFormed, FitAt, SpendsOf, Precedes, Effective, Addressed, Holds;
    var V := Truth(T);
    forall p | 0 <= p < |T.carriers[c].t.origins| && IsPortion(T, Spend(c, p))
      ensures PortionFits(T, c, p) == PortionCovered(T, V, Spend(c, p))
    {
      SpendsOfIsList(T, KeyOf(T, Spend(c, p)));
    }
  }

  lemma TruthFrozenLaw(T: Table, k: BillKey, i: nat)
    requires Stratified(T) && i < |SpendsOf(T, k)|
    ensures SpendList(T, k, SpendsOf(T, k)) && FrozenLaw(T, Truth(T), k, i)
  {
    SpendsOfIsList(T, k);
    var V, s := Truth(T), SpendsOf(T, k)[i];
    if DepositOf(T, s).Some? {
      var h := DepositOf(T, s).value;
      assert (exists j | 0 <= j < i :: BoughtBackBy(T, k, j, h)) <==>
             (exists j | 0 <= j < i :: EarlierBuyback(T, V, k, j, h)) by {
        assert forall j | 0 <= j < i :: BoughtBackBy(T, k, j, h) <==> EarlierBuyback(T, V, k, j, h);
      }
    }
  }

  // ---------- When each bill is spent in order ----------

  // Of two spends of one bill, the one at the earlier position came to exist earlier.
  ghost predicate SpentInOrder(T: Table) {
    && |T.age| == |T.carriers|
    && forall a, b | IsPortion(T, a) && IsPortion(T, b) && KeyOf(T, a) == KeyOf(T, b) && Precedes(T, a, b) ::
         AgeOf(T, a.c) < AgeOf(T, b.c)
  }

  ghost predicate InOneBranch(T: Table) {
    forall a, b | IsPortion(T, a) && IsPortion(T, b) && KeyOf(T, a) == KeyOf(T, b) ::
      T.carriers[a.c].node == T.carriers[b.c].node
  }

  // So it is when each bill is spent from one branch.
  lemma OneBranchIsInOrder(T: Table)
    requires Stratified(T) && InOneBranch(T)
    ensures SpentInOrder(T)
  {
    forall a, b | IsPortion(T, a) && IsPortion(T, b) && KeyOf(T, a) == KeyOf(T, b) && Precedes(T, a, b)
      ensures AgeOf(T, a.c) < AgeOf(T, b.c)
    {
      assert BranchGrows(T, a.c, b.c);
    }
  }
}
