// The smallest table on which paper is passed on: A pays B with paper born there, B pays C
// with a part of it. Both deals happen, so what is proved of such tables is not empty.
module TwoDeals {
  import opened Options
  import opened Sums
  import opened Settlement
  import opened DealsTable
  import opened Happened
  import SpendRules

  function Born(): Carrier {
    Carrier(1, 10, 0, 0, Transfer(10, 20, 0, [Origin(10, 5.0, None, None)], 1, Some(9), None), true, None, None,
      Accepted, Some(0))
  }

  function PassedOn(): Carrier {
    Carrier(2, 20, 0, 1, Transfer(20, 30, 0, [Origin(10, 3.0, Some(Ref(10, 1)), None)], 2, Some(9), None), true, None,
      None, Accepted, Some(0))
  }

  function Deals(): Table { Table([Born(), PassedOn()], 2, [0, 1]) }

  function Bill(): BillKey { BillKey(20, Ref(10, 1), 10) }

  lemma DealsAreStratified()
    ensures Stratified(Deals())
  {
    var T := Deals();
    assert T.carriers[0] == Born() && T.carriers[1] == PassedOn();
    assert WellFormedCarrier(T, 0) && WellFormedCarrier(T, 1);
    SourceIsFirst();
    forall s | IsPortion(T, s) ensures s == Spend(1, 0) {}
  }

  lemma SourceIsFirst()
    ensures Find(Deals(), Ref(10, 1)) == Some(0)
  {
    var T := Deals();
    assert FindFrom(T, Ref(10, 1), 1) == Some(0);
  }

  lemma FirstTwo(T: Table, list: seq<Spend>)
    requires SpendList(T, Bill(), list)
    ensures |list| > 1 ==> list[0] in list && list[1] in list && list[0] != list[1]
  {
    assert |list| > 1 ==> Precedes(T, list[0], list[1]);
  }

  // The bill has one spend.
  lemma OneSpend(V: Verdicts)
    requires Coherent(Deals(), V)
    ensures V.list(Bill()) == [Spend(1, 0)]
  {
    var T, list := Deals(), V.list(Bill());
    assert BillLaws(T, V, Bill());
    hide Coherent, BillLaws, RunLaw, FrozenLaw, OpeningLaw;
    assert T.carriers[1] == PassedOn() && IsPortion(T, Spend(1, 0)) && KeyOf(T, Spend(1, 0)) == Bill();
    forall s | s in list ensures s == Spend(1, 0) {}
    FirstTwo(T, list);
    assert Spend(1, 0) in list;
  }

  lemma BothHappen()
    ensures Stratified(Deals()) && OthersEarlier(Deals()) && Effective(Deals(), 0) && Effective(Deals(), 1)
  {
    DealsAreStratified();
    assert forall s | IsPortion(Deals(), s) :: PreviousEarlier(Deals(), s);
    TruthIsCoherent(Deals());
    HappensIn(Truth(Deals()));
  }

  // In any reading that obeys the rules of the table.
  lemma HappensIn(V: Verdicts)
    requires Coherent(Deals(), V)
    ensures V.eff(0) && V.eff(1)
  {
    var T := Deals();
    FirstHappens(V);
    OneSpend(V);
    SpendFits(V);
    assert T.carriers[1] == PassedOn();
    assert BackLaw(T, V, 1) && AddrLaw(T, V, 1) && EffLaw(T, V, 1);
    assert PortionCovered(T, V, Spend(1, 0));
  }

  lemma FirstHappens(V: Verdicts)
    requires Coherent(Deals(), V)
    ensures V.eff(0)
  {
    var T := Deals();
    assert T.carriers[0] == Born();
    assert BackLaw(T, V, 0) && AddrLaw(T, V, 0) && EffLaw(T, V, 0);
    hide Coherent;
  }

  lemma SpendFits(V: Verdicts)
    requires Coherent(Deals(), V) && V.eff(0) && V.list(Bill()) == [Spend(1, 0)]
    ensures V.fit(Bill(), 0)
  {
    var T, k := Deals(), Bill();
    SourceIsFirst();
    CreditIsFive();
    assert BillLaws(T, V, k);
    assert FrozenLaw(T, V, k, 0) && RunLaw(T, V, k, 0);
    hide Coherent, BillLaws;
    assert T.carriers[0] == Born() && T.carriers[1] == PassedOn();
    assert V.stands(k);
    assert V.run(k, 0) == NewRun(20, 0, 5.0, Some(0));
    assert !V.frozen(k, 0);
  }

  lemma CreditIsFive()
    ensures BillCredit(Born().t, 10) == 5.0
  {
    var f := (o: Origin) => if o.issuer == 10 then o.units else 0.0;
    var os := Born().t.origins;
    assert os[..0] == [] && Sum(os[..0], f) == 0.0 && Sum(os, f) == 5.0;
    SumEq(os, f, (o: Origin) => if o.issuer == 10 then o.units else 0.0);
  }

  // ---------- The first payment a deposit ----------

  // The same, but the first deal has a return until 100 and its payment lies as a deposit.
  function WithDeposit(): Table {
    var born := Born();
    Table([born.(t := born.t.(buyback := Some(Buyback(100, true)))), PassedOn()], 2, [0, 1])
  }

  // At time 2 the paper may not be passed on: in no reading does the second deal happen.
  lemma DepositIsNotPassedOn(V: Verdicts)
    requires Coherent(WithDeposit(), V)
    ensures !V.eff(1) && !V.back(1)
  {
    var T := WithDeposit();
    hide Coherent, SpendRules.SpentEarlier;
    assert T.carriers[1] == PassedOn() && T.carriers[0].buybackOf == None;
    assert FindFrom(T, Ref(10, 1), 1) == Some(0) && Find(T, Ref(10, 1)) == Some(0);
    SpendRules.DepositWaitsInReading(T, V, 1, 0, 0);
  }
}
