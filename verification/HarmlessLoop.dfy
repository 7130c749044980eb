// A table that cannot be ranked and is read right all the same: what the walk refuses on it was
// to be answered "no". So a ranking is enough for the walk to be right, and not needed.
module HarmlessLoop {
  import opened Options
  import opened Settlement
  import opened DealsTable
  import opened Happened
  import opened WalkSteps
  import opened WalkOrder
  import opened WalkTruth
  import opened WalkTraces

  const A: ChainId := 1
  const H: ChainId := 3
  const E: ChainId := 4

  // W spends the bill of what Q moved, and A's bill; Q moves a part of A's bill out of the wrong
  // purse, after W on its list.
  const W := Carrier(1, H, 1, 2,
    Transfer(H, E, 0, [Origin(A, 1.0, Some(Ref(H, 3)), None), Origin(A, 1.0, Some(Ref(A, 2)), None)],
                                          10, Some(99), None), true, None, None, Accepted, Some(0))
  const D := Carrier(2, A, 0, 0, Transfer(A, H, 1, [Origin(A, 5.0, None, None)], 10, Some(99), None), true, None, None,
    Accepted, Some(0))
  const Q := Carrier(3, H, 0, 5, Transfer(H, H, 1, [Origin(A, 1.0, Some(Ref(A, 2)), None)], 10, None, None),
    true, None, None, NoAnswer, None)

  function Looped(): Table { Table([W, D, Q], 2, [2, 0, 1]) }

  const BILL := BillKey(H, Ref(A, 2), A)
  const MOVED := BillKey(H, Ref(H, 3), A)

  lemma OnTheTable()
    ensures var T := Looped();
            && |T.carriers| == 3 == |T.age| && T.deals == 2 && T.carriers[0] == W && T.carriers[1] == D &&
               T.carriers[2] == Q
            && T.age[0] == 2 && T.age[1] == 0 && T.age[2] == 1
  {
  }

  lemma TableIsWell()
    ensures WellFormed(Looped())
  {
    OnTheTable();
    var T := Looped();
    hide Looped;
    forall c | 0 <= c < 3 ensures WellFormedCarrier(T, c) { assert c == 0 || c == 1 || c == 2; }
  }

  lemma PortionsAre()
    ensures var T := Looped();
            && (forall s :: IsPortion(T, s) <==> s == Spend(0, 1) || s == Spend(0, 0) || s == Spend(2, 0))
            && KeyOf(T, Spend(0, 1)) == BILL == KeyOf(T, Spend(2, 0)) && KeyOf(T, Spend(0, 0)) == MOVED
            && Find(T, Ref(A, 2)) == Some(1) && Find(T, Ref(H, 3)) == Some(2)
  {
    OnTheTable();
    var T := Looped();
    hide Looped;
    forall s ensures IsPortion(T, s) <==> s == Spend(0, 1) || s == Spend(0, 0) || s == Spend(2, 0) {
      if s.c < 3 { assert s.c == 0 || s.c == 1 || s.c == 2; }
    }
    assert FindFrom(T, Ref(A, 2), 2) == Some(1);
  }

  lemma TableIsStratified()
    ensures Stratified(Looped())
  {
    var T := Looped();
    TableIsWell();
    OnTheTable();
    PortionsAre();
    hide Looped, WellFormed, Find, IsPortion;
    forall s | IsPortion(T, s) ensures NamesEarlier(T, s) {}
    forall c: nat, d: nat | c < 3 && d < 3 ensures BranchGrows(T, c, d) {
      assert c == 0 || c == 1 || c == 2;
      assert d == 0 || d == 1 || d == 2;
    }
    forall c: nat | c < 3 ensures StandsOnEarlier(T, c) { assert c == 0 || c == 1 || c == 2; }
  }

  // No spend names a previous one, and nobody buys anything back.
  lemma NoOthers()
    ensures OthersEarlier(Looped())
  {
    var T := Looped();
    OnTheTable();
    PortionsAre();
    hide Looped, IsPortion, Find;
    forall s | IsPortion(T, s) ensures PreviousEarlier(T, s) {}
    forall c: nat | c < 3 ensures ReturnEarlier(T, c) { assert c == 0 || c == 1 || c == 2; }
  }

  lemma NotRanked()
    ensures !Ranked(Looped())
  {
    var T := Looped();
    OnTheTable();
    PortionsAre();
    hide Looped, KeyOf, IsPortion, Find, Ranks;
    assert SourceOf(T, MOVED) == Some(2);
    if rank: seq<nat> :| |rank| == |T.carriers| && Ranks(T, rank) {
      RankGrows(T, rank, Spend(0, 1), Spend(2, 0));
      SourceFirst(T, rank, Spend(0, 0));
    }
  }

  lemma ListsAre()
    ensures var T := Looped(); SpendsOf(T, BILL) == [Spend(0, 1), Spend(2, 0)] && SpendsOf(T, MOVED) == [Spend(0, 0)]
  {
    var T := Looped();
    TableIsWell();
    OnTheTable();
    PortionsAre();
    hide Looped, WellFormed, SpendsOf, IsPortion, KeyOf, Find;
    ListIs(T, BILL, [Spend(0, 1), Spend(2, 0)]);
    ListIs(T, MOVED, [Spend(0, 0)]);
  }

  // ---------- What is true of it ----------

  // Neither Q's move nor W is backed.
  lemma NeitherIsBacked()
    ensures Stratified(Looped()) && !Backed(Looped(), 0) && !Backed(Looped(), 2)
  {
    var T := Looped();
    TableIsStratified();
    TableIsWell();
    OnTheTable();
    PortionsAre();
    ListsAre();
    TruthIsCoherent(T);
    hide Looped, WellFormed, SpendsOf, IsPortion, KeyOf, Find, Stratified, RunOf;
    assert PurseOf(T, BILL) == 1;
    assert SpendsOf(T, BILL)[1] == Spend(2, 0);
    assert !InPurse(T, BILL, 2);
    assert !PortionFits(T, 2, 0);
    assert !SourceStands(T, MOVED);
    WIsUncovered();
  }

  lemma WIsUncovered()
    requires Stratified(Looped()) && !SourceStands(Looped(), MOVED)
    ensures !Backed(Looped(), 0)
  {
    var T := Looped();
    TableIsWell();
    OnTheTable();
    PortionsAre();
    ListsAre();
    hide Looped, WellFormed, SpendsOf, IsPortion, KeyOf, Find, Stratified, Effective, Addressed, Holds, Frozen,
         SourceStands, BillCredit;
    var run := RunBefore(T, MOVED, 0);
    assert run == NewRun(H, 1, 0.0, None);
    assert T.carriers[Spend(0, 0).c] == W && OriginOf(T, Spend(0, 0)).units == 1.0;
    assert SpendsOf(T, MOVED)[0] == Spend(0, 0);
    assert InPurse(T, MOVED, 1);
    assert !FitAt(T, MOVED, 0);
    assert !PortionFits(T, 0, 0);
  }

  // ---------- What the walk makes of it ----------

  lemma BillIs(held: bool)
    ensures var T := Looped();
            && TwoSpends(T, BILL, 1, Spend(0, 1), Spend(2, 0))
            && !Fits(FirstSettled(T, BILL, 1, Spend(0, 1), Spend(2, 0), held), SpendOf(T, Spend(2, 0), true, false))
  {
    var T := Looped();
    OnTheTable();
    PortionsAre();
    ListsAre();
    OneCredit(D.t, A);
    hide Looped, SpendsOf, IsPortion, KeyOf, Find, BillCredit;
    assert CreditIf(T, BILL, true) == Credit(1, 5.0, Some(0));
    assert DepositOf(T, Spend(0, 1)).None? && DepositOf(T, Spend(2, 0)).None?;
    assert SpendOf(T, Spend(0, 1), true, false) == BillSpend(1, 1, 2, 10, 1.0, None, false, Accepted, 99, true, false);
    assert SpendOf(T, Spend(0, 1), held, false) == BillSpend(1, 1, 2, 10, 1.0, None, false, Accepted, 99, held, false);
    assert SpendOf(T, Spend(2, 0), true, false).node == 0;
    hide SpendOf, CreditIf, DepositOf;
    assert Precedes(T, Spend(0, 1), Spend(2, 0));
  }

  lemma WHoldsNot(m: Memory)
    requires Shape(Looped(), m) && m.refused == {} && Holding(0) !in m.memo && Holding(0) in Questions(Looped())
    requires IsAddressed(0) in m.memo && m.memo[IsAddressed(0)] == Yes && IsBacked(0) in m.memo &&
             m.memo[IsBacked(0)] == Deciding
    ensures var r := Ask(Looped(), m, Holding(0)); !r.yes && r.m.refused == {IsBacked(0)}
  {
    OnTheTable();
    var T, b := Looped(), Begin(m, Holding(0));
    hide Looped, Shape, Questions;
    AskIs(T, m, Holding(0));
    assert Ask(T, b, IsAddressed(0)) == Told(true, b);
    assert Ask(T, b, IsBacked(0)) == Told(false, Refuse(b, IsBacked(0)));
    assert AskBoth(T, b, IsAddressed(0), IsBacked(0)) == Told(false, Refuse(b, IsBacked(0)));
  }

  // W is being decided, and nothing of Q has been asked.
  ghost predicate WPending(m: Memory) {
    && Shape(Looped(), m) && m.refused == {} && Unheard(m, 1) && Holding(0) !in m.memo && BILL !in m.runs
    && IsAddressed(0) in m.memo && m.memo[IsAddressed(0)] == Yes && IsBacked(0) in m.memo &&
       m.memo[IsBacked(0)] == Deciding
  }

  // W was refused once, nothing else was, and D was asked about.
  ghost predicate RefusedOnce(m: Memory) {
    m.refused == {IsBacked(0)} && Happens(1) in m.memo && IsBacked(1) in m.memo
  }

  lemma WWaits(m: Memory, a: Memory)
    requires WPending(m) && TwoSpends(Looped(), BILL, 1, Spend(0, 1), Spend(2, 0))
    requires a == Waiting(Looped(), m, BILL, 1, Spend(0, 1), Spend(2, 0)) && Shape(Looped(), a) &&
             Holding(0) in Questions(Looped())
    ensures RefusedOnce(Ask(Looped(), a, Holding(0)).m)
  {
    hide Looped, SpendsOf, TwoSpends, Shape, SpendOf, Questions, Fits, Ask, RunsKept, Judged, Opening;
    assert Happens(1) in a.memo && IsBacked(1) in a.memo;
    WHoldsNot(a);
  }

  lemma QUnfit(m: Memory)
    requires WPending(m)
    ensures |SpendsOf(Looped(), BILL)| == 2
    ensures var r := AskFit(Looped(), m, BILL, 1); !r.yes && RefusedOnce(r.m)
  {
    var T := Looped();
    BillIs(true);
    BillIs(false);
    assert SpendsOf(T, BILL) == [Spend(0, 1), Spend(2, 0)];
    hide Looped, SpendsOf, TwoSpends, Shape, FirstSettled, SpendOf, Questions, Fits, AskFit, Ask, Kept, Waiting;
    Second(T, m, BILL, 1, Spend(0, 1), Spend(2, 0));
    WWaits(m, Waiting(T, m, BILL, 1, Spend(0, 1), Spend(2, 0)));
  }

  lemma QIsUnbacked(m: Memory)
    requires WPending(m) && IsBacked(2) !in m.memo
    ensures IsBacked(2) in Questions(Looped())
    ensures var r := Ask(Looped(), m, IsBacked(2)); !r.yes && RefusedOnce(r.m)
  {
    var T, m1 := Looped(), Begin(m, IsBacked(2));
    OnTheTable();
    PortionsAre();
    ListsAre();
    assert |Q.t.origins| == 1 && Shape(T, m);
    hide Looped, SpendsOf, KeyOf, IsPortion, Shape, Questions, AskFit, Ask, Kept, Find;
    BackedOfOne(T, m, 2, 1);
    PendingBegins(m);
    hide WPending;
    QUnfit(m1);
  }

  lemma PendingBegins(m: Memory)
    requires WPending(m) && Shape(Looped(), Begin(m, IsBacked(2)))
    ensures WPending(Begin(m, IsBacked(2)))
  {
    hide Looped, Shape;
  }

  lemma StillPending(m: Memory, e: Entry)
    requires WPending(m) && Shape(Looped(), m.(runs := m.runs[MOVED := e]))
    ensures WPending(m.(runs := m.runs[MOVED := e]))
  {
    hide Looped, Shape;
  }

  // W's first spend is of a bill that Q's move did not fill.
  lemma MovedIsEmpty()
    ensures var T := Looped();
            && IsPortion(T, Spend(0, 0)) && DepositOf(T, Spend(0, 0)).None?
            && !Fits(Opening(T, MOVED, false), SpendOf(T, Spend(0, 0), true, false))
  {
    OnTheTable();
    PortionsAre();
    hide Looped, IsPortion, KeyOf, Find;
    assert Opening(Looped(), MOVED, false) == NewRun(H, 1, 0.0, None);
    assert SpendOf(Looped(), Spend(0, 0), true, false).units == 1.0;
  }

  lemma WUnfit(m: Memory)
    requires WPending(m) && IsBacked(2) !in m.memo && MOVED !in m.runs
    ensures |SpendsOf(Looped(), MOVED)| == 1
    ensures var r := AskFit(Looped(), m, MOVED, 0); !r.yes && RefusedOnce(r.m) && IsBacked(2) in r.m.memo
  {
    var T, o := Looped(), m.(runs := m.runs[MOVED := OPENED]);
    OnTheTable();
    PortionsAre();
    ListsAre();
    MovedIsEmpty();
    assert SourceQuestion(T, 2) == IsBacked(2);
    hide Looped, SpendsOf, KeyOf, IsPortion, Find, AskFit, Ask, Kept, SpendOf, DepositOf, Opening, Questions, Shape,
         Fits;
    First(T, m, MOVED, 2, Spend(0, 0));
    StillPending(m, OPENED);
    hide WPending;
    QIsUnbacked(o);
  }

  lemma WPortions(m: Memory)
    requires WPending(m) && IsBacked(2) !in m.memo && MOVED !in m.runs
    ensures |Looped().carriers| == 3
    ensures var r := AskPortions(Looped(), m, 0, 0); !r.yes && RefusedOnce(r.m) && IsBacked(2) in r.m.memo
  {
    var T := Looped();
    OnTheTable();
    PortionsAre();
    ListsAre();
    hide Looped, SpendsOf, KeyOf, IsPortion, Find, AskFit, AskPortions, Kept, Shape;
    WUnfit(m);
    OnePortionMore(T, m, 0, 0, 0);
  }

  // The first question asks all the others.
  lemma FirstQuestion()
    requires Shape(Looped(), NOTHING_ASKED)
    ensures Happens(0) in Questions(Looped())
    ensures AllAsked(Ask(Looped(), NOTHING_ASKED, Happens(0)).m)
  {
    var T, m := Looped(), NOTHING_ASKED;
    OnTheTable();
    hide Looped, SpendsOf, AskPortions, Ask, Kept, Questions, WellFormed;
    HappensIs(T, m, 0);
    hide Shape;
    WPortions(m.(memo := m.memo[Happens(0) := Deciding][IsAddressed(0) := Yes][IsBacked(0) := Deciding]));
  }

  ghost predicate AllAsked(m: Memory) {
    RefusedOnce(m) && Happens(0) in m.memo && IsBacked(0) in m.memo && IsBacked(2) in m.memo
  }

  lemma AfterFirst()
    requires WellFormed(Looped()) && Looped().deals == 2 && |Looped().carriers| == 3
    ensures AllAsked(After(Looped(), 1)) && Idle(After(Looped(), 1))
  {
    var T := Looped();
    hide Looped, WellFormed, Shape, After, Questions, Recalls, Ask, AllAsked;
    AfterEnds(T);
    AfterStep(T, 0);
    FirstQuestion();
  }

  lemma {:induction false} NothingMore(n: nat)
    requires WellFormed(Looped()) && Looped().deals == 2 && |Looped().carriers| == 3 && 1 <= n <= 5
    ensures After(Looped(), n) == After(Looped(), 1)
  {
    var T := Looped();
    hide Looped, WellFormed, Shape, After, Questions, Recalls;
    if n > 1 {
      var m := After(T, 1);
      AfterFirst();
      NothingMore(n - 1);
      AfterStep(T, n - 1);
      var q := TopQuestion(T, n - 1);
      assert q == Happens(1) || q == IsBacked(0) || q == IsBacked(1) || q == IsBacked(2);
      assert Ask(T, m, q).m == m;
    }
  }

  // No order of the carriers puts each after what its verdict reads, and the walk does refuse
  // a question; yet it finds exactly what is true.
  lemma ReadRight()
    ensures var T := Looped();
            && Stratified(T) && OthersEarlier(T) && !Ranked(T) && WellFormed(T) && Judgement(T).refused == {IsBacked(0)}
            && HappenedBy(T, Judgement(T), T.deals) ==
               (set c | 0 <= c < T.deals && Effective(T, c) :: T.carriers[c].hash)
            && UnbackedBy(T, Judgement(T), |T.carriers|) ==
               (set c | 0 <= c < |T.carriers| && !Backed(T, c) :: T.carriers[c].hash)
  {
    var T := Looped();
    TableIsWell();
    TableIsStratified();
    NoOthers();
    NotRanked();
    OnTheTable();
    NeitherIsBacked();
    hide Looped, WellFormed, Stratified, OthersEarlier, Ranked, Judgement, After, Reading, Effective, Backed;
    hide HappenedBy, UnbackedBy, MovesBackedBy;
    TruthIsReading(T);
    AfterFirst();
    NothingMore(5);
    AfterEnds(T);
    JudgementIsTrue(T, Truth(T));
  }
}
