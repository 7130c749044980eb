// The memoised walk over the table (aggregator/recognition, compute_deals): its questions call
// each other and remember their answers in place. Each method is proved to do what WalkSteps
// says of it, on every table, the refusals of questions met in progress included.
module LazyWalk {
  import opened Options
  import opened Settlement
  import opened DealsTable
  import opened Happened
  import opened WalkSteps
  import opened WalkTruth
  import SpendRules

  // The spends of every bill, gathered carrier by carrier, portion by portion.
  method GatherSpends(T: Table) returns (g: map<BillKey, seq<Spend>>)
    ensures forall k :: (k in g <==> SpendsOf(T, k) != []) && (k in g ==> g[k] == SpendsOf(T, k))
  {
    g := map[];
    for c := 0 to |T.carriers|
      invariant forall k :: (k in g <==> SpendsUpTo(T, k, c, 0) != []) && (k in g ==> g[k] == SpendsUpTo(T, k, c, 0))
    {
      for p := 0 to |T.carriers[c].t.origins|
        invariant forall k :: (k in g <==> SpendsUpTo(T, k, c, p) != []) && (k in g ==> g[k] == SpendsUpTo(T, k, c, p))
      {
        if T.carriers[c].t.origins[p].src.Some? {
          var s := Spend(c, p);
          var k := KeyOf(T, s);
          g := g[k := InsertSpend(T, s, if k in g then g[k] else [])];
        }
      }
    }
  }

  class Walk {
    const T: Table
    const spendsOf: map<BillKey, seq<Spend>>
    var m: Memory

    ghost predicate Valid()
      reads this
    {
      && WellFormed(T) && T.deals <= |T.carriers| && Shape(T, m)
      && forall k :: (k in spendsOf <==> SpendsOf(T, k) != []) && (k in spendsOf ==> spendsOf[k] == SpendsOf(T, k))
    }

    constructor (T: Table)
      requires WellFormed(T)
      ensures this.T == T && Valid() && m == NOTHING_ASKED
    {
      this.T := T;
      var g := GatherSpends(T);
      spendsOf := g;
      m := NOTHING_ASKED;
    }

    // What is remembered of a question; one in progress is refused.
    method Recall(q: Question) returns (known: bool, ok: bool)
      requires Valid() && q in Questions(T)
      modifies this
      ensures Valid() && known == (q in old(m).memo)
      ensures known ==> Told(ok, m) == Ask(T, old(m), q)
      ensures !known ==>
                && m == Begin(old(m), q) && Left(T, m) < Left(T, old(m))
                && Ask(T, old(m), q) == Ended(Decide(T, m, q), q)
    {
      hide SpendsOf, WellFormed, Decide;
      known, ok := q in m.memo, false;
      if !known {
        BeginShape(T, m, q);
        m := Begin(m, q);
      } else if m.memo[q] == Deciding {
        m := Refuse(m, q);
      } else {
        ok := m.memo[q] == Yes;
      }
    }

    // Asked of a deal: did it happen?
    method AskEffective(c: nat) returns (ok: bool)
      requires Valid() && c < T.deals
      modifies this
      ensures Valid() && Told(ok, m) == Ask(T, old(m), Happens(c))
      decreases Left(T, m), 0, 0
    {
      hide SpendsOf, WellFormed, RunsKept, EntryShape, Ask, Left;
      var known;
      known, ok := Recall(Happens(c));
      if known { return; }
      ghost var m1 := m;
      ok := AskAddressed(c);
      LeftFalls(T, m1, m);
      ok := ok && T.carriers[c].answer == Accepted;
      if ok { ok := AskBacked(c); }
      m := End(m, Happens(c), ok);
    }

    // Addressed, on terms that were met, by one who holds what he sells.
    method AskAddressed(c: nat) returns (ok: bool)
      requires Valid() && c < T.deals
      modifies this
      ensures Valid() && Told(ok, m) == Ask(T, old(m), IsAddressed(c))
      decreases Left(T, m), 0, 0
    {
      hide SpendsOf, RunsKept, EntryShape, Ask, Left;
      var known;
      known, ok := Recall(IsAddressed(c));
      if known { return; }
      assert WellFormedCarrier(T, c);
      ok := true;
      if T.carriers[c].standsOn.Some? {
        ok := AskEffective(T.carriers[c].standsOn.value);
      }
      ok := ok && T.carriers[c].terms;
      m := End(m, IsAddressed(c), ok);
    }

    // Whether a spend by this carrier could hold hours at all.
    method AskHolds(c: nat) returns (ok: bool)
      requires Valid() && c < |T.carriers|
      modifies this
      ensures Valid() && Told(ok, m) == Ask(T, old(m), Holding(c))
      decreases Left(T, m), 0, 0
    {
      hide SpendsOf, WellFormed, RunsKept, EntryShape, Ask, Left;
      var known;
      known, ok := Recall(Holding(c));
      if known { return; }
      ghost var m1 := m;
      ok := true;
      if c < T.deals {
        ok := AskAddressed(c);
        LeftFalls(T, m1, m);
      }
      if ok { ok := AskBacked(c); }
      m := End(m, Holding(c), ok);
    }

    // Every portion of somebody else's paper is a spend its bill covers.
    method AskBacked(c: nat) returns (ok: bool)
      requires Valid() && c < |T.carriers|
      modifies this
      ensures Valid() && Told(ok, m) == Ask(T, old(m), IsBacked(c))
      decreases Left(T, m), 0, 0
    {
      hide SpendsOf, WellFormed, RunsKept, EntryShape, Ask, Left, AskFit;
      var known;
      known, ok := Recall(IsBacked(c));
      if known { return; }
      ghost var m1 := m;
      KeptReflexive(T, m1);
      ok := true;
      var p := 0;
      while ok && p < |T.carriers[c].t.origins|
        invariant p <= |T.carriers[c].t.origins|
        invariant Valid() && Left(T, m) <= Left(T, m1)
        invariant AskPortions(T, m1, c, 0) == if ok then AskPortions(T, m, c, p) else Told(false, m)
      {
        if T.carriers[c].t.origins[p].src.Some? {
          ghost var m2 := m;
          ok := AskPortion(c, p);
          LeftFalls(T, m2, m);
        }
        p := p + 1;
      }
      m := End(m, IsBacked(c), ok);
    }

    // Whether the bill a portion is spent from covers it.
    method AskPortion(c: nat, p: nat) returns (ok: bool)
      requires Valid() && IsPortion(T, Spend(c, p))
      modifies this
      ensures Valid() && Kept(T, old(m), m)
      ensures AskPortions(T, old(m), c, p) == if ok then AskPortions(T, m, c, p + 1) else Told(false, m)
      decreases Left(T, m), 7, 0
    {
      hide SpendsOf, Kept, EntryShape, AskFit;
      var s := Spend(c, p);
      var k := KeyOf(T, s);
      SpendsOfIsList(T, k);
      ok := IsFit(k, IndexIn(spendsOf[k], s));
    }

    // The terms a bill opens on.
    method AskCredit(k: BillKey) returns (b: Credit)
      requires Valid()
      modifies this
      ensures Valid() && var a := AskSource(T, old(m), k); m == a.m && b == CreditIf(T, k, a.yes)
      decreases Left(T, m), 1, 0
    {
      hide SpendsOf, RunsKept, EntryShape;
      var src := Find(T, k.src);
      if src.None? { return Credit(0, 0.0, None); }
      var s := src.value;
      var t := T.carriers[s].t;
      b := Credit(t.toNode, 0.0, None);
      if t.to != k.holder { return; }
      var stands;
      if s < T.deals { stands := AskEffective(s); } else { stands := AskBacked(s); }
      if stands {
        var units := ComputeBillCredit(t, k.issuer);
        b := Credit(t.toNode, units, if s < T.deals then T.carriers[s].arrived else None);
      }
    }

    // How the next unsettled spend of a bill ended.
    method Settle(k: BillKey)
      requires Valid() && CanSettle(T, m, k)
      modifies this
      ensures Valid() && m == SettleOne(T, old(m), k)
      decreases Left(T, m), 2, 0
    {
      assert Shape(T, m) && k in m.runs && m.runs[k].run.Some? && SpendsOf(T, k) != [];
      hide SpendsOf, WellFormed, Shape, CanSettle, CanWalk, Pinned, SettleOne, EntryShape;
      hide Ask, Settled, SpendOf, NextOnList, Questions, Left, Kept, RunsKept;
      SettleIs(T, m, k);
      SpendsOfIsList(T, k);
      var list, e := spendsOf[k], m.runs[k];
      var j := e.settled;
      var run := e.run.value;
      if e.fit[j] {
        var stands := AskHolds(list[j].c);
        run := Settled(run, SpendOf(T, list[j], stands, false), NextOnList(T, list, j));
      }
      m := m.(runs := m.runs[k := e.(settled := j + 1, run := Some(run))]);
    }

    // Whether the i-th spend of a bill touches a deposit not yet bought back.
    method IsFrozen(list: seq<Spend>, i: nat) returns (frozen: bool)
      requires Valid() && i < |list| && forall j | 0 <= j < |list| :: IsPortion(T, list[j])
      ensures frozen == FrozenSoFar(T, m, list, i)
    {
      var h := DepositOf(T, list[i]);
      if h.None? { return false; }
      var bought := IsBuyback(T, list[i].c, h.value);
      ghost var byThis := bought;
      var j := 0;
      while j < i && !bought
        invariant j <= i
        invariant bought <==> byThis || BoughtSoFar(T, m, list, j, h.value)
      {
        assert IsPortion(T, list[j]);
        var q := Holding(list[j].c);
        bought := IsBuyback(T, list[j].c, h.value) && q in m.memo && m.memo[q] == Yes &&
          T.carriers[list[j].c].answer == Accepted;
        j := j + 1;
      }
      frozen := DepositFrozen(T.carriers[h.value].t, T.carriers[list[i].c].t.timestamp, bought);
    }

    method Judge(k: BillKey)
      requires Valid() && CanJudge(T, m, k)
      modifies this
      ensures Valid() && m == JudgeNext(T, old(m), k)
    {
      hide SpendsOf, WellFormed;
      SpendsOfIsList(T, k);
      var list, e := spendsOf[k], m.runs[k];
      var q := |e.fit|;
      var frozen := IsFrozen(list, q);
      var s := SpendOf(T, list[q], true, frozen);
      m := m.(runs := m.runs[k := e.(run := Some(Judged(e.run.value, s)), fit := e.fit + [Fits(e.run.value, s)])]);
    }

    // Whether the pos-th spend of a bill is covered.
    method IsFit(k: BillKey, pos: nat) returns (ok: bool)
      requires Valid() && pos < |SpendsOf(T, k)|
      modifies this
      ensures Valid() && Told(ok, m) == AskFit(T, old(m), k, pos)
      decreases Left(T, m), 6, 0
    {
      hide SpendsOf, WellFormed;
      ghost var m0 := m;
      if k in m.runs && m.runs[k].run.None? {          // its credit is being decided
        m := Refuse(m, Fitting(k, pos));
        return false;
      }
      if k !in m.runs {
        m := m.(runs := m.runs[k := OPENED]);
        assert Left(T, m) == Left(T, m0);
        var c := AskCredit(k);
        m := m.(runs := m.runs[k := OPENED.(run := Some(NewRun(k.holder, c.purse, c.credited, c.arrived)))]);
        assert m == Open(T, m0, k);
        LeftFalls(T, m0, m);
      }
      ok := Advance(k, pos);
    }

    // Judges and settles a bill's spends up to the pos-th.
    method Advance(k: BillKey, pos: nat) returns (ok: bool)
      requires Valid() && CanWalk(T, m, k) && pos < |SpendsOf(T, k)|
      modifies this
      ensures Valid() && Told(ok, m) == WalkTo(T, old(m), k, pos)
      decreases Left(T, m), 4, 0
    {
      hide SpendsOf, WellFormed;
      ghost var m0 := m;
      KeptReflexive(T, m0);
      while |m.runs[k].fit| <= pos
        invariant Valid() && CanWalk(T, m, k) && Left(T, m) <= Left(T, m0)
        invariant WalkTo(T, m0, k, pos) == WalkTo(T, m, k, pos)
        decreases pos + 1 - |m.runs[k].fit|
      {
        if m.runs[k].busy {                            // settling this bill asked for it again
          m := Refuse(m, Fitting(k, pos));
          return false;
        }
        ghost var m1 := m;
        SettleJudged(k);
        JudgeKept(T, m1, m, k);
        Judge(k);
        LeftFalls(T, m1, m);
      }
      ok := m.runs[k].fit[pos];
    }

    method SettleJudged(k: BillKey)
      requires Valid() && CanSettleAll(T, m, k)
      modifies this
      ensures Valid() && m == SettleAll(T, old(m), k)
      decreases Left(T, m), 3, 0
    {
      hide SpendsOf, WellFormed, SettleOne, RunsKept, EntryShape, Left;
      ghost var m0 := m;
      SettleAllDone(T, m, k);
      while m.runs[k].settled < |m.runs[k].fit|
        invariant Valid() && CanSettleAll(T, m, k) && Left(T, m) <= Left(T, m0) && m.runs[k].settled <= |m.runs[k].fit|
        invariant SettleAll(T, m0, k) == SettleAll(T, m, k)
        decreases |m.runs[k].fit| - m.runs[k].settled
      {
        ghost var m1 := m;
        SettleAllStep(T, m1, k);
        m := Marked(m, k, true);
        Settle(k);
        m := Marked(m, k, false);
        LeftFalls(T, m1, m);
        SettleAllDone(T, m, k);
      }
    }

    // The whole table: which deals happened, whose paper is not backed, which moves stand.
    method JudgeCarriers() returns (happened: set<Hash>, unbacked: set<Hash>, movesBacked: set<Hash>)
      requires Valid() && m == NOTHING_ASKED
      modifies this
      ensures Valid() && m == Judgement(T)
      ensures happened == HappenedBy(T, m, T.deals) && unbacked == UnbackedBy(T, m, |T.carriers|) &&
              movesBacked == MovesBackedBy(T, m, |T.carriers|)
    {
      hide SpendsOf, WellFormed, EntryShape, Ask, Shape, Kept, After, Questions, Idle, Judgement, HappenedBy,
           UnbackedBy, MovesBackedBy, Recalls, SomeRecalled;
      AfterEnds(T);
      happened, unbacked, movesBacked := {}, {}, {};
      NoneYet(T, m);
      for i := 0 to T.deals
        invariant Valid() && m == After(T, i)
        invariant forall c | 0 <= c < i :: SomeRecalled(m, Happens(c))
        invariant happened == HappenedBy(T, m, i)
      {
        ghost var m1 := m;
        AfterStep(T, i);
        var ok := AskEffective(i);
        OneMoreHappened(T, m1, m, i, ok);
        if ok { happened := happened + {T.carriers[i].hash}; }
      }
      NoneYet(T, m);
      for i := 0 to |T.carriers|
        invariant Valid() && m == After(T, T.deals + i)
        invariant forall c | 0 <= c < T.deals :: SomeRecalled(m, Happens(c))
        invariant forall c | 0 <= c < i :: SomeRecalled(m, IsBacked(c))
        invariant happened == HappenedBy(T, m, T.deals)
        invariant unbacked == UnbackedBy(T, m, i) && movesBacked == MovesBackedBy(T, m, i)
      {
        ghost var m1 := m;
        AfterStep(T, T.deals + i);
        var ok := AskBacked(i);
        SameHappened(T, m1, m);
        OneMoreBacked(T, m1, m, i, ok);
        if !ok {
          unbacked := unbacked + {T.carriers[i].hash};
        } else if i >= T.deals {
          movesBacked := movesBacked + {T.carriers[i].hash};
        }
      }
    }

    // Each bill as it stands now: all its spends judged and settled.
    method FinishBill(k: BillKey, ghost V: Verdicts) returns (state: BillState)
      requires Valid() && Idle(m) && k in spendsOf
      modifies this
      ensures Valid() && Idle(m)
      ensures Answers(T, V, old(m)) ==> Answers(T, V, m) && state == V.run(k, |V.list(k)|).st
    {
      hide SpendsOf, WellFormed, RunsKept, Answers, SettleOne, AskFit;
      ghost var m0 := m;
      SpendsOfIsList(T, k);
      var last := |spendsOf[k]| - 1;
      var fit := IsFit(k, last);
      IdleKept(T, m0, m);
      if Answers(T, V, m0) { FitAnswers(T, V, m0, k, last); }
      while m.runs[k].settled < |m.runs[k].fit|
        invariant Valid() && Idle(m) && k in m.runs && |m.runs[k].fit| == |SpendsOf(T, k)|
        invariant m.runs[k].settled <= |m.runs[k].fit|
        invariant Answers(T, V, m0) ==> Answers(T, V, m)
        decreases |m.runs[k].fit| - m.runs[k].settled
      {
        ghost var m1 := m;
        Settle(k);
        IdleKept(T, m1, m.(runs := m.runs[k := m1.runs[k]]));
        IdleReset(m, k, m1.runs[k]);
        if Answers(T, V, m1) { SettleAnswers(T, V, m1, k); }
      }
      state := m.runs[k].run.value.st;
      if Answers(T, V, m) { FinishedRun(T, V, m, k); }
    }
  }

  predicate SomeRecalled(m: Memory, q: Question) { Recalls(m, q, true) || Recalls(m, q, false) }

  ghost predicate Recalled(a: Memory, b: Memory) { forall x, yes | Recalls(a, x, yes) :: Recalls(b, x, yes) }

  lemma NoneYet(T: Table, m: Memory)
    ensures HappenedBy(T, m, 0) == {} && UnbackedBy(T, m, 0) == {} && MovesBackedBy(T, m, 0) == {}
  {
  }

  lemma OneMoreHappened(T: Table, a: Memory, b: Memory, n: nat, ok: bool)
    requires n < T.deals <= |T.carriers| && Recalled(a, b) && Recalls(b, Happens(n), ok)
    requires forall c | 0 <= c < n :: SomeRecalled(a, Happens(c))
    ensures HappenedBy(T, b, n + 1) == HappenedBy(T, a, n) + if ok then {T.carriers[n].hash} else {}
    ensures forall c | 0 <= c < n + 1 :: SomeRecalled(b, Happens(c))
  {
    forall c, yes | 0 <= c < n ensures Recalls(b, Happens(c), yes) <==> Recalls(a, Happens(c), yes) {
      assert SomeRecalled(a, Happens(c));
    }
  }

  lemma SameHappened(T: Table, a: Memory, b: Memory)
    requires T.deals <= |T.carriers| && Recalled(a, b) && forall c | 0 <= c < T.deals :: SomeRecalled(a, Happens(c))
    ensures HappenedBy(T, b, T.deals) == HappenedBy(T, a, T.deals)
    ensures forall c | 0 <= c < T.deals :: SomeRecalled(b, Happens(c))
  {
    forall c, yes | 0 <= c < T.deals ensures Recalls(b, Happens(c), yes) <==> Recalls(a, Happens(c), yes) {
      assert SomeRecalled(a, Happens(c));
    }
  }

  lemma OneMoreBacked(T: Table, a: Memory, b: Memory, n: nat, ok: bool)
    requires n < |T.carriers| && Recalled(a, b) && Recalls(b, IsBacked(n), ok)
    requires forall c | 0 <= c < n :: SomeRecalled(a, IsBacked(c))
    ensures UnbackedBy(T, b, n + 1) == UnbackedBy(T, a, n) + if ok then {} else {T.carriers[n].hash}
    ensures MovesBackedBy(T, b, n + 1) ==
            MovesBackedBy(T, a, n) + if ok && n >= T.deals then {T.carriers[n].hash} else {}
    ensures forall c | 0 <= c < n + 1 :: SomeRecalled(b, IsBacked(c))
  {
    forall c, yes | 0 <= c < n ensures Recalls(b, IsBacked(c), yes) <==> Recalls(a, IsBacked(c), yes) {
      assert SomeRecalled(a, IsBacked(c));
    }
  }

  lemma IdleReset(m: Memory, k: BillKey, e: Entry)
    requires k in m.runs && Idle(m.(runs := m.runs[k := e])) && m.runs[k].run.Some? && !m.runs[k].busy
    ensures Idle(m)
  {
    var m' := m.(runs := m.runs[k := e]);
    forall x | x in m.runs ensures m.runs[x].run.Some? && !m.runs[x].busy { assert x in m'.runs; }
  }

  // The whole reading of a table: deals, unbacked paper, moves, bills. It is the walk's on
  // every table; when its carriers can be ranked, it is the true one.
  method ComputeDeals(T: Table)
    returns (happened: set<Hash>, unbacked: set<Hash>, movesBacked: set<Hash>, bills: map<BillKey, BillState>)
    requires WellFormed(T)
    ensures var m := Judgement(T);
            happened == HappenedBy(T, m, T.deals) && unbacked == UnbackedBy(T, m, |T.carriers|) &&
              movesBacked == MovesBackedBy(T, m, |T.carriers|)
    ensures forall k :: k in bills <==> SpendsOf(T, k) != []
    ensures Stratified(T) && Ranked(T) ==>
              && happened == (set c | 0 <= c < T.deals && Effective(T, c) :: T.carriers[c].hash)
              && unbacked == (set c | 0 <= c < |T.carriers| && !Backed(T, c) :: T.carriers[c].hash)
              && movesBacked == (set c | T.deals <= c < |T.carriers| && Backed(T, c) :: T.carriers[c].hash)
              && (forall k | k in bills :: bills[k] == RunOf(T, k, |SpendsOf(T, k)|).st == BatchOf(T, k).st)
    ensures Stratified(T) && Ranked(T) ==>
              var O := SpendRules.Outcome(happened, unbacked);
              && SpendRules.Rules(T, O)
              && movesBacked == (set c | T.deals <= c < |T.carriers| && T.carriers[c].hash !in unbacked ::
                                 T.carriers[c].hash)
              && (forall k | k in bills :: EndsByRules(T, O, k, bills[k]))
  {
    hide SpendsOf, WellFormed, Answers, Stratified, Ranked, Effective, Backed, Shape, RunOf, BatchOf, SourceStands,
         FrozenOf, FitAt, SpendRules.Rules, EndsByRules;
    hide Judgement, HappenedBy, UnbackedBy, MovesBackedBy, Idle;
    var walk := new Walk(T);
    happened, unbacked, movesBacked := walk.JudgeCarriers();
    ghost var ranked := Stratified(T) && Ranked(T);
    ghost var V := if ranked then Truth(T) else NO_VERDICTS;
    if ranked {
      RankedAnswers(T);
      RankedObey(T);
    }
    bills := map[];
    var rest := walk.spendsOf.Keys;
    while rest != {}
      invariant fresh(walk) && walk.T == T && walk.Valid() && Idle(walk.m)
      invariant ranked ==> Answers(T, V, walk.m)
      invariant rest <= walk.spendsOf.Keys && bills.Keys == walk.spendsOf.Keys - rest
      invariant ranked ==> forall k | k in bills :: bills[k] == V.run(k, |V.list(k)|).st
      decreases rest
    {
      var k :| k in rest;
      var state := walk.FinishBill(k, V);
      bills := bills[k := state];
      rest := rest - {k};
    }
    if ranked {
      forall k | k in bills ensures bills[k] == BatchOf(T, k).st { LazyIsBatch(T, k); }
    }
  }
}
