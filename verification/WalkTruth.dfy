// What the walk's answers are worth. On any table: if every question it refused was to be
// answered "no" anyway, all it remembers obeys the rules of the table. When the carriers can be
// ranked so that each comes after all its verdict reads, it refuses nothing.
module WalkTruth {
  import opened Options
  import opened Settlement
  import opened DealsTable
  import opened Happened
  import opened WalkSteps
  import opened WalkOrder
  import SpendRules

  predicate Says(V: Verdicts, q: Question) {
    match q
    case Happens(c) => V.eff(c)
    case IsAddressed(c) => V.addr(c)
    case Holding(c) => V.hold(c)
    case IsBacked(c) => V.back(c)
    case Fitting(k, pos) => V.fit(k, pos)
  }

  // Verdicts that obey every rule, over the lists the walk gathers.
  ghost predicate Reading(T: Table, V: Verdicts) {
    Coherent(T, V) && forall k :: V.list(k) == SpendsOf(T, k)
  }

  // An entry's run stands before its next spend, or after that spend was judged but not yet settled.
  ghost predicate RunOk(T: Table, V: Verdicts, k: BillKey, e: Entry)
    requires SpendList(T, k, V.list(k)) && e.settled <= |e.fit| <= e.settled + 1 && |e.fit| <= |V.list(k)| &&
             e.run.Some?
  {
    var i := e.settled;
    e.run.value == if i == |e.fit| then V.run(k, i)
                   else Judged(V.run(k, i), SpendOf(T, V.list(k)[i], true, V.frozen(k, i)))
  }

  ghost predicate EntryOk(T: Table, V: Verdicts, k: BillKey, e: Entry, memo: map<Question, Memo>) {
    var list := V.list(k);
    && SpendList(T, k, list)
    && |e.fit| <= |list| && e.settled <= |e.fit| <= e.settled + 1
    && (forall i | 0 <= i < |e.fit| :: e.fit[i] == V.fit(k, i))
    && (forall i | 0 <= i < e.settled && e.fit[i] && V.hold(list[i].c) ::
          Holding(list[i].c) in memo && memo[Holding(list[i].c)] == Yes)
    && (e.run.Some? ==> RunOk(T, V, k, e))
  }

  ghost predicate Sound(T: Table, V: Verdicts, m: Memory) {
    && Shape(T, m)
    && (forall q | q in m.memo :: (m.memo[q] == Yes ==> Says(V, q)) && (m.memo[q] == No ==> !Says(V, q)))
    && (forall k | k in m.runs :: EntryOk(T, V, k, m.runs[k], m.memo))
  }

  // Whatever was refused was to be answered "no".
  ghost predicate Harmless(V: Verdicts, m: Memory) {
    forall q | q in m.refused :: !Says(V, q)
  }

  lemma {:induction false} HarmlessBefore(T: Table, V: Verdicts, a: Memory, b: Memory)
    requires Kept(T, a, b) && Harmless(V, b)
    ensures Harmless(V, a)
  {
  }

  // ---------- Each step ----------

  lemma {:induction false} MemoSound(T: Table, V: Verdicts, m: Memory, memo: map<Question, Memo>)
    requires Sound(T, V, m) && memo.Keys <= Questions(T)
    requires forall q | q in m.memo && m.memo[q] == Yes :: q in memo && memo[q] == Yes
    requires forall q | q in memo :: (memo[q] == Yes ==> Says(V, q)) && (memo[q] == No ==> !Says(V, q))
    ensures Sound(T, V, m.(memo := memo))
  {
    hide SpendList, RunOk, Says;
    forall k | k in m.runs ensures EntryOk(T, V, k, m.runs[k], memo) {
      assert EntryOk(T, V, k, m.runs[k], m.memo);
    }
  }

  lemma {:induction false} AskTrue(T: Table, V: Verdicts, m: Memory, q: Question)
    requires Reading(T, V) && Shape(T, m) && Sound(T, V, m) && q in Questions(T)
    requires Harmless(V, Ask(T, m, q).m)
    ensures Sound(T, V, Ask(T, m, q).m) && Ask(T, m, q).yes == Says(V, q)
    decreases Left(T, m), 0, 0
  {
    hide Reading, Shape, Sound, Questions, Ask, Decide, Left, Kept, Says;
    if q in m.memo {
      AskKnown(T, m, q);
      KnownIsTrue(T, V, m, q);
    } else {
      AskIs(T, m, q);
      BeginShape(T, m, q);
      BeginTrue(T, V, m, q);
      DecideTrue(T, V, Begin(m, q), q);
      EndTrue(T, V, m, q, Decide(T, Begin(m, q), q));
    }
  }

  lemma KnownIsTrue(T: Table, V: Verdicts, m: Memory, q: Question)
    requires Sound(T, V, m) && q in m.memo
    ensures m.memo[q] != Deciding ==> (m.memo[q] == Yes <==> Says(V, q))
    ensures Sound(T, V, Refuse(m, q))
  {
    hide Says, WellFormed, EntryShape, EntryOk, Questions;
  }

  lemma BeginTrue(T: Table, V: Verdicts, m: Memory, q: Question)
    requires Sound(T, V, m) && q in Questions(T) && q !in m.memo
    ensures Sound(T, V, Begin(m, q))
  {
    hide Says, WellFormed, EntryShape, EntryOk, Questions;
    MemoSound(T, V, m, Begin(m, q).memo);
  }

  lemma EndTrue(T: Table, V: Verdicts, m: Memory, q: Question, d: Told)
    requires Sound(T, V, d.m) && q in Questions(T) && Kept(T, Begin(m, q), d.m) && d.yes == Says(V, q)
    ensures Sound(T, V, End(d.m, q, d.yes))
  {
    hide Says, WellFormed, EntryShape, EntryOk, Questions, RunsKept;
    assert q in Begin(m, q).memo && d.m.memo[q] == Deciding;
    MemoSound(T, V, d.m, End(d.m, q, d.yes).memo);
  }

  lemma {:induction false} AskBothTrue(T: Table, V: Verdicts, m: Memory, q: Question, q': Question)
    requires Reading(T, V) && Shape(T, m) && Sound(T, V, m) && q in Questions(T) && q' in Questions(T)
    requires Harmless(V, AskBoth(T, m, q, q').m)
    ensures Sound(T, V, AskBoth(T, m, q, q').m) && AskBoth(T, m, q, q').yes == (Says(V, q) && Says(V, q'))
    decreases Left(T, m), 1, 0
  {
    assert Shape(T, m);
    hide Sound, Reading, Shape, Kept, Harmless, Questions, Left, Says, Coherent, WellFormed, SpendsOf, Ask, Decide,
         AskPortions, AskFit, Open, AskSource, WalkTo, SettleAll, SettleOne, JudgeNext;
    var a := Ask(T, m, q);
    if a.yes { HarmlessBefore(T, V, a.m, Ask(T, a.m, q').m); }
    AskTrue(T, V, m, q);
    if a.yes {
      LeftFalls(T, m, a.m);
      AskTrue(T, V, a.m, q');
    }
  }

  lemma {:induction false} DecideTrue(T: Table, V: Verdicts, m: Memory, q: Question)
    requires Reading(T, V) && Shape(T, m) && Sound(T, V, m) && q in Questions(T)
    requires Harmless(V, Decide(T, m, q).m)
    ensures Sound(T, V, Decide(T, m, q).m) && Decide(T, m, q).yes == Says(V, q)
    decreases Left(T, m), 8, 0
  {
    hide Sound, Kept, Harmless, BillLaws, RunsKept, EntryShape, Ask, AskBoth, AskPortions, AskFit, Open, AskSource,
         WalkTo, SettleAll, SettleOne, JudgeNext, Left;
    assert WellFormedCarrier(T, q.c);
    match q
    case Happens(c) =>
      assert EffLaw(T, V, c);
      if T.carriers[c].answer == Accepted {
        AskBothTrue(T, V, m, IsAddressed(c), IsBacked(c));
      } else {
        AskTrue(T, V, m, IsAddressed(c));
      }
    case IsAddressed(c) =>
      assert AddrLaw(T, V, c);
      if T.carriers[c].standsOn.Some? { AskTrue(T, V, m, Happens(T.carriers[c].standsOn.value)); }
    case Holding(c) =>
      assert HoldLaw(T, V, c);
      if c < T.deals { AskBothTrue(T, V, m, IsAddressed(c), IsBacked(c)); } else { AskTrue(T, V, m, IsBacked(c)); }
    case IsBacked(c) =>
      BackIsCovered(T, V, c);
      PortionsTrue(T, V, m, c, 0);
  }

  ghost predicate CoveredFrom(T: Table, V: Verdicts, c: nat, p: nat)
    requires c < |T.carriers|
  {
    forall i | p <= i < |T.carriers[c].t.origins| && IsPortion(T, Spend(c, i)) :: PortionCovered(T, V, Spend(c, i))
  }

  lemma {:induction false} BackIsCovered(T: Table, V: Verdicts, c: nat)
    requires Coherent(T, V) && c < |T.carriers|
    ensures V.back(c) == CoveredFrom(T, V, c, 0)
  {
    assert BackLaw(T, V, c);
  }

  lemma CoveredNone(T: Table, V: Verdicts, c: nat)
    requires c < |T.carriers|
    ensures CoveredFrom(T, V, c, |T.carriers[c].t.origins|)
  {
  }

  lemma CoveredOne(T: Table, V: Verdicts, c: nat, p: nat)
    requires c < |T.carriers| && p < |T.carriers[c].t.origins|
    ensures CoveredFrom(T, V, c, p) <==>
            (IsPortion(T, Spend(c, p)) ==> PortionCovered(T, V, Spend(c, p))) && CoveredFrom(T, V, c, p + 1)
  {
    hide PortionCovered;
  }

  lemma {:induction false} PortionsTrue(T: Table, V: Verdicts, m: Memory, c: nat, p: nat)
    requires Reading(T, V) && Sound(T, V, m) && Shape(T, m) && c < |T.carriers| && p <= |T.carriers[c].t.origins|
    requires Harmless(V, AskPortions(T, m, c, p).m)
    ensures Sound(T, V, AskPortions(T, m, c, p).m) && AskPortions(T, m, c, p).yes == CoveredFrom(T, V, c, p)
    decreases Left(T, m), 7, |T.carriers[c].t.origins| - p
  {
    hide Sound, Reading, Shape, Kept, Left, AskFit, AskPortions, Harmless, PortionCovered, CoveredFrom, SpendsOf,
         KeyOf, IsPortion;
    if p == |T.carriers[c].t.origins| {
      NoPortionsLeft(T, m, c);
      CoveredNone(T, V, c);
      return;
    }
    CoveredOne(T, V, c, p);
    if !IsPortion(T, Spend(c, p)) {
      OwnPortion(T, m, c, p);
      PortionsTrue(T, V, m, c, p + 1);
    } else {
      var pos := PortionIs(T, m, c, p);
      var k := KeyOf(T, Spend(c, p));
      ReadingFits(T, V, k, pos);
      var a := AskFit(T, m, k, pos);
      if a.yes { HarmlessBefore(T, V, a.m, AskPortions(T, a.m, c, p + 1).m); }
      FitTrue(T, V, m, k, pos);
      if a.yes { PortionsTrue(T, V, a.m, c, p + 1); }
    }
  }

  lemma ReadingFits(T: Table, V: Verdicts, k: BillKey, pos: nat)
    requires Reading(T, V) && pos < |SpendsOf(T, k)|
    ensures var s := SpendsOf(T, k)[pos];
            IsPortion(T, s) && KeyOf(T, s) == k && PortionCovered(T, V, s) == V.fit(k, pos)
  {
    hide Coherent, SpendsOf;
    FitDecidesPortion(T, V, k, pos);
  }

  lemma {:induction false} FitTrue(T: Table, V: Verdicts, m: Memory, k: BillKey, pos: nat)
    requires Reading(T, V) && Sound(T, V, m) && pos < |SpendsOf(T, k)|
    requires Harmless(V, AskFit(T, m, k, pos).m)
    ensures Sound(T, V, AskFit(T, m, k, pos).m) && AskFit(T, m, k, pos).yes == V.fit(k, pos)
    decreases Left(T, m), 6, 0
  {
    hide EntryOk, Reading, SpendsOf, WellFormed, RunsKept, EntryShape, Ask, AskBoth, Decide, AskPortions, Open,
         AskSource, WalkTo, SettleAll, SettleOne, JudgeNext, Left;
    if k in m.runs && m.runs[k].run.None? {
      assert Fitting(k, pos) in AskFit(T, m, k, pos).m.refused;
    } else if k in m.runs {
      WalkTrue(T, V, m, k, pos);
    } else {
      var o := Open(T, m, k);
      LeftFalls(T, m, o);
      HarmlessBefore(T, V, o, WalkTo(T, o, k, pos).m);
      OpenTrue(T, V, m, k);
      WalkTrue(T, V, o, k, pos);
    }
  }

  lemma {:induction false} BillOpens(T: Table, V: Verdicts, k: BillKey)
    requires Coherent(T, V)
    ensures StandsLaw(T, V, k) && ListLaw(T, V, k)
    ensures var c := CreditIf(T, k, V.stands(k)); V.run(k, 0) == NewRun(k.holder, c.purse, c.credited, c.arrived)
  {
    assert BillLaws(T, V, k);
  }

  lemma {:induction false} OpenTrue(T: Table, V: Verdicts, m: Memory, k: BillKey)
    requires Reading(T, V) && Sound(T, V, m) && k !in m.runs
    requires Harmless(V, Open(T, m, k))
    ensures Sound(T, V, Open(T, m, k))
    decreases Left(T, m), 5, 0
  {
    hide SpendsOf, Coherent, RunsKept, WellFormed, Precedes, Ask, AskBoth, Decide, AskPortions, AskFit, AskSource,
         WalkTo, SettleAll, SettleOne, JudgeNext, Left;
    var o := m.(runs := m.runs[k := OPENED]);
    SameLeft(T, m, o);
    BillOpens(T, V, k);
    forall x | x in o.runs ensures EntryOk(T, V, x, o.runs[x], o.memo) {
      if x != k { assert EntryOk(T, V, x, m.runs[x], m.memo); }
    }
    SourceTrue(T, V, o, k);
    var a := AskSource(T, o, k);
    var c := CreditIf(T, k, a.yes);
    assert CreditIf(T, k, V.stands(k)) == c;
    var m' := Open(T, m, k);
    assert a.m.memo == m'.memo;
    forall x | x in m'.runs ensures EntryOk(T, V, x, m'.runs[x], m'.memo) {
      if x != k { assert EntryOk(T, V, x, a.m.runs[x], a.m.memo); }
    }
  }

  lemma {:induction false} SourceTrue(T: Table, V: Verdicts, m: Memory, k: BillKey)
    requires Reading(T, V) && Shape(T, m) && Sound(T, V, m)
    requires Harmless(V, AskSource(T, m, k).m)
    ensures var a := AskSource(T, m, k);
            Sound(T, V, a.m) && CreditIf(T, k, a.yes) == CreditIf(T, k, V.stands(k))
    decreases Left(T, m), 1, 0
  {
    hide Sound, Kept, Harmless, Coherent, RunsKept, EntryShape, Ask, AskBoth, Decide, AskPortions, AskFit, Open,
         WalkTo, SettleAll, SettleOne, JudgeNext, Left;
    BillOpens(T, V, k);
    match Find(T, k.src)
    case None =>
    case Some(s) => if T.carriers[s].t.to == k.holder { AskTrue(T, V, m, SourceQuestion(T, s)); }
  }

  lemma FitsAreSaid(T: Table, V: Verdicts, m: Memory, k: BillKey)
    requires Sound(T, V, m) && k in m.runs
    ensures forall i | 0 <= i < |m.runs[k].fit| :: m.runs[k].fit[i] == V.fit(k, i)
    ensures forall q :: Sound(T, V, Refuse(m, q))
  {
    hide WellFormed, EntryShape, Says, Questions, SpendList, RunOk;
    SoundEntry(T, V, m, k);
    forall q ensures Sound(T, V, Refuse(m, q)) { hide EntryOk; }
  }

  lemma {:induction false} WalkTrue(T: Table, V: Verdicts, m: Memory, k: BillKey, pos: nat)
    requires Reading(T, V) && Sound(T, V, m) && CanWalk(T, m, k) && pos < |SpendsOf(T, k)|
    requires Harmless(V, WalkTo(T, m, k, pos).m)
    ensures Sound(T, V, WalkTo(T, m, k, pos).m) && WalkTo(T, m, k, pos).yes == V.fit(k, pos)
    decreases Left(T, m), 4, if pos < |m.runs[k].fit| then 0 else pos + 1 - |m.runs[k].fit|
  {
    hide Reading, Sound, Shape, SpendsOf, SettleAll, JudgeNext, WalkTo, Left, Kept;
    FitsAreSaid(T, V, m, k);
    if pos < |m.runs[k].fit| {
      WalkEnds(T, m, k, pos);
    } else if m.runs[k].busy {
      WalkBusy(T, m, k, pos);
      assert Fitting(k, pos) in WalkTo(T, m, k, pos).m.refused;
    } else {
      WalkStep(T, m, k, pos);
      var a := SettleAll(T, m, k);
      var b := JudgeNext(T, a, k);
      LeftFalls(T, m, b);
      HarmlessBefore(T, V, b, WalkTo(T, b, k, pos).m);
      JudgeRefusesNothing(T, a, k);
      hide Harmless;
      SettledHarmless(V, a, b);
      SettleAllTrue(T, V, m, k);
      JudgeTrue(T, V, a, k);
      WalkTrue(T, V, b, k, pos);
    }
  }

  lemma SettledHarmless(V: Verdicts, a: Memory, b: Memory)
    requires Harmless(V, b) && b.refused == a.refused
    ensures Harmless(V, a)
  {
  }

  lemma {:induction false} SettleAllTrue(T: Table, V: Verdicts, m: Memory, k: BillKey)
    requires Reading(T, V) && Sound(T, V, m) && CanSettleAll(T, m, k)
    requires Harmless(V, SettleAll(T, m, k))
    ensures Sound(T, V, SettleAll(T, m, k))
    decreases Left(T, m), 3, |m.runs[k].fit| - m.runs[k].settled
  {
    hide Reading, Sound, EntryOk, EntryShape, SpendsOf, Kept, Harmless, Shape, SettleAll, SettleOne, Left;
    SettleAllDone(T, m, k);
    if m.runs[k].settled < |m.runs[k].fit| {
      SettleAllStep(T, m, k);
      var a := Marked(m, k, true);
      var b := SettleOne(T, a, k);
      var c := Marked(b, k, false);
      LeftFalls(T, m, c);
      HarmlessBefore(T, V, c, SettleAll(T, c, k));
      SettledHarmless(V, b, c);
      Remark(T, V, m, k, true);
      SettleOneTrue(T, V, a, k);
      Remark(T, V, b, k, false);
      SettleAllTrue(T, V, c, k);
    }
  }

  // The mark of being walked says nothing.
  lemma Remark(T: Table, V: Verdicts, m: Memory, k: BillKey, busy: bool)
    requires Sound(T, V, m) && k in m.runs && Shape(T, Marked(m, k, busy))
    ensures Sound(T, V, Marked(m, k, busy))
  {
    hide EntryOk, SpendsOf, WellFormed, Questions, Says, EntryShape;
    var e := m.runs[k].(busy := busy);
    SoundEntry(T, V, m, k);
    BusyOrNot(T, V, k, m.runs[k], busy, m.memo);
    assert m.(runs := m.runs[k := e]).runs[k] == e;
    SetEntry(T, V, m, k, e);
  }

  lemma {:induction false} SetEntry(T: Table, V: Verdicts, m: Memory, k: BillKey, e: Entry)
    requires Sound(T, V, m) && EntryShape(T, k, e) && EntryOk(T, V, k, e, m.memo)
    ensures Sound(T, V, m.(runs := m.runs[k := e]))
  {
    hide SpendsOf, WellFormed, SpendList, EntryShape, EntryOk, Says, Questions;
  }

  lemma {:induction false} BusyOrNot(T: Table, V: Verdicts, k: BillKey, e: Entry, busy: bool, memo: map<Question, Memo>)
    requires EntryOk(T, V, k, e, memo)
    ensures EntryOk(T, V, k, e.(busy := busy), memo)
  {
    hide SpendList;
  }

  lemma {:induction false} SettledEntry(T: Table, V: Verdicts, k: BillKey, e: Entry, memo: map<Question, Memo>)
    requires EntryOk(T, V, k, e, memo) && e.run.Some? && e.settled < |e.fit|
    requires SpendList(T, k, V.list(k))
    requires var h := Holding(V.list(k)[e.settled].c);
             e.fit[e.settled] && V.hold(h.c) ==> h in memo && memo[h] == Yes
    ensures EntryOk(T, V, k, e.(run := Some(V.run(k, e.settled + 1)), settled := e.settled + 1), memo)
  {
    hide Precedes;
  }

  lemma {:induction false} JudgedEntry(T: Table, V: Verdicts, k: BillKey, e: Entry, memo: map<Question, Memo>)
    requires EntryOk(T, V, k, e, memo) && e.run.Some?
    requires e.settled == |e.fit| < |V.list(k)| && IsPortion(T, V.list(k)[e.settled])
    ensures var s := SpendOf(T, V.list(k)[e.settled], true, V.frozen(k, e.settled));
            EntryOk(T, V, k, e.(run := Some(Judged(e.run.value, s)), fit := e.fit + [V.fit(k, e.settled)]), memo)
  {
    hide Precedes, SpendOf, Judged;
    var q := e.settled;
    var e' := e.(run := Some(Judged(e.run.value, SpendOf(T, V.list(k)[q], true, V.frozen(k, q)))),
      fit := e.fit + [V.fit(k, q)]);
    assert forall i | 0 <= i < |e'.fit| :: e'.fit[i] == V.fit(k, i);
    assert forall i | 0 <= i < q :: e'.fit[i] == e.fit[i];
  }

  // Settling what was judged brings the run to the next spend; an unfit spend settles nothing.
  lemma {:induction false} RunSettles(T: Table, V: Verdicts, k: BillKey, j: nat)
    requires Coherent(T, V) && j < |V.list(k)|
    ensures SpendList(T, k, V.list(k))
    ensures var s := V.list(k)[j];
            var judged := Judged(V.run(k, j), SpendOf(T, s, true, V.frozen(k, j)));
            V.run(k, j + 1) == if V.fit(k, j)
              then Settled(judged, SpendOf(T, s, V.hold(s.c), false), NextOnList(T, V.list(k), j))
                               else judged
  {
    assert BillLaws(T, V, k) && RunLaw(T, V, k, j);
  }

  lemma ReadingList(T: Table, V: Verdicts, k: BillKey)
    requires Reading(T, V)
    ensures Coherent(T, V) && V.list(k) == SpendsOf(T, k)
  {
    hide Coherent, SpendsOf;
  }

  lemma {:induction false} SettleOneTrue(T: Table, V: Verdicts, m: Memory, k: BillKey)
    requires Reading(T, V) && Sound(T, V, m) && CanSettle(T, m, k)
    requires Harmless(V, SettleOne(T, m, k))
    ensures Sound(T, V, SettleOne(T, m, k))
    decreases Left(T, m), 2, 0
  {
    hide Reading, Coherent, Sound, EntryOk, EntryShape, SpendsOf, WellFormed, Kept, Harmless, Shape, Pinned, SpendList;
    hide Ask, Left, SettleOne, Settled, Judged, SpendOf, NextOnList, Questions;
    var e, j := m.runs[k], m.runs[k].settled;
    ReadingList(T, V, k);
    SoundEntry(T, V, m, k);
    RunSettles(T, V, k, j);
    var c := SpendsOf(T, k)[j].c;
    SettleIs(T, m, k);
    var m' := SettleOne(T, m, k);
    if e.fit[j] {
      var h := Ask(T, m, Holding(c));
      SettledHarmless(V, h.m, m');
      AskTrue(T, V, m, Holding(c));
      SoundEntry(T, V, h.m, k);
      SettledRun(T, V, k, e, h.m.memo, h.yes);
      SetEntry(T, V, h.m, k, m'.runs[k]);
    } else {
      SettledRun(T, V, k, e, m.memo, false);
      SetEntry(T, V, m, k, m'.runs[k]);
    }
  }

  // The run settled with the true answer is the run before the next spend.
  lemma SettledRun(T: Table, V: Verdicts, k: BillKey, e: Entry, memo: map<Question, Memo>, held: bool)
    requires Coherent(T, V) && EntryOk(T, V, k, e, memo) && e.run.Some? && e.settled < |e.fit|
    requires SpendList(T, k, V.list(k))
    requires var h := Holding(V.list(k)[e.settled].c);
             e.fit[e.settled] ==> held == V.hold(h.c) && (held ==> h in memo && memo[h] == Yes)
    ensures var s := V.list(k)[e.settled];
            var run := if e.fit[e.settled]
              then Some(Settled(e.run.value, SpendOf(T, s, held, false), NextOnList(T, V.list(k), e.settled)))
                       else e.run;
            EntryOk(T, V, k, e.(settled := e.settled + 1, run := run), memo)
  {
    RunSettles(T, V, k, e.settled);
    SettledEntry(T, V, k, e, memo);
    hide Coherent, SpendOf, Settled, NextOnList, Judged, Precedes;
  }

  lemma {:induction false} SoundEntry(T: Table, V: Verdicts, m: Memory, k: BillKey)
    requires Sound(T, V, m) && k in m.runs
    ensures EntryOk(T, V, k, m.runs[k], m.memo)
  {
  }

  lemma {:induction false} JudgeTrue(T: Table, V: Verdicts, m: Memory, k: BillKey)
    requires Reading(T, V) && Sound(T, V, m) && CanJudge(T, m, k)
    ensures Sound(T, V, JudgeNext(T, m, k))
  {
    var e := m.runs[k];
    var list, q := V.list(k), |e.fit|;
    assert EntryOk(T, V, k, e, m.memo);
    assert BillLaws(T, V, k) && RunLaw(T, V, k, q);
    hide SpendsOf, WellFormed, SpendOf, Judged, SpendList, OpeningLaw, StandsLaw, FrozenLaw, Coherent, EntryOk, Fits,
         Says;
    FrozenIsFrozen(T, V, m, k, q);
    JudgedEntry(T, V, k, e, m.memo);
    SetEntry(T, V, m, k, JudgeNext(T, m, k).runs[k]);
  }

  // As far as a deposit is concerned, the spends settled tell all.
  lemma {:induction false} FrozenIsFrozen(T: Table, V: Verdicts, m: Memory, k: BillKey, i: nat)
    requires Reading(T, V) && Sound(T, V, m) && k in m.runs && i <= m.runs[k].settled && i < |SpendsOf(T, k)|
    ensures SpendList(T, k, SpendsOf(T, k)) && FrozenSoFar(T, m, SpendsOf(T, k), i) == V.frozen(k, i)
  {
    hide SpendsOf, Precedes, RunLaw, RunOk, OpeningLaw, StandsLaw;
    var list := V.list(k);
    assert BillLaws(T, V, k) && FrozenLaw(T, V, k, i);
    assert EntryOk(T, V, k, m.runs[k], m.memo);
    if DepositOf(T, list[i]).Some? {
      var h := DepositOf(T, list[i]).value;
      forall j | 0 <= j < i
        ensures EarlierBuyback(T, V, k, j, h) <==>
                  IsBuyback(T, list[j].c, h) && T.carriers[list[j].c].answer == Accepted &&
                  Holding(list[j].c) in m.memo && m.memo[Holding(list[j].c)] == Yes
      {
        if !V.fit(k, j) { UnfitHoldsNothing(T, V, k, j); }
      }
      assert BoughtSoFar(T, m, list, i, h) <==> exists j | 0 <= j < i :: EarlierBuyback(T, V, k, j, h);
    }
  }

  // ---------- The whole table ----------

  lemma NothingIsSound(T: Table, V: Verdicts)
    requires WellFormed(T)
    ensures Sound(T, V, NOTHING_ASKED)
  {
  }

  lemma {:induction false} AfterIsTrue(T: Table, V: Verdicts, n: nat)
    requires WellFormed(T) && Reading(T, V) && n <= T.deals + |T.carriers| && Harmless(V, After(T, n))
    ensures Sound(T, V, After(T, n))
    ensures forall i | 0 <= i < n :: Recalls(After(T, n), TopQuestion(T, i), Says(V, TopQuestion(T, i)))
  {
    hide Reading, Shape, Sound, Ask, After, WellFormed, Kept, Says, TopQuestion, Recalls, Questions, Harmless, Idle;
    AfterEnds(T);
    if n == 0 {
      NothingIsSound(T, V);
    } else {
      var m, q := After(T, n - 1), TopQuestion(T, n - 1);
      AfterStep(T, n - 1);
      HarmlessBefore(T, V, m, After(T, n));
      AfterIsTrue(T, V, n - 1);
      AskTrue(T, V, m, q);
    }
  }

  lemma {:induction false} AfterIsFree(T: Table, rank: seq<nat>, n: nat)
    requires WellFormed(T) && |rank| == |T.carriers| && Ranks(T, rank) && n <= T.deals + |T.carriers|
    ensures After(T, n).refused == {}
  {
    hide Ranks, Ask, SpendsOf, WellFormed, Shape, Idle, Above, After, Recalls, Questions, When;
    AfterEnds(T);
    if n > 0 {
      AfterStep(T, n - 1);
      AfterIsFree(T, rank, n - 1);
      var m, q := After(T, n - 1), TopQuestion(T, n - 1);
      IdleIsAbove(T, rank, m, When(T, rank, q), Level(q));
      AskIsFree(T, rank, m, q);
    }
  }

  // The deals the walk takes for happened, the carriers it finds unbacked, the moves it lets stand.
  ghost function HappenedBy(T: Table, m: Memory, n: nat): set<Hash>
    requires n <= |T.carriers|
  {
    set c | 0 <= c < n && Recalls(m, Happens(c), true) :: T.carriers[c].hash
  }

  ghost function UnbackedBy(T: Table, m: Memory, n: nat): set<Hash>
    requires n <= |T.carriers|
  {
    set c | 0 <= c < n && Recalls(m, IsBacked(c), false) :: T.carriers[c].hash
  }

  ghost function MovesBackedBy(T: Table, m: Memory, n: nat): set<Hash>
    requires n <= |T.carriers|
  {
    set c | T.deals <= c < n && Recalls(m, IsBacked(c), true) :: T.carriers[c].hash
  }

  lemma TopAreSaid(T: Table, V: Verdicts, i: nat)
    ensures Says(V, TopQuestion(T, i)) == if i < T.deals then V.eff(i) else V.back(i - T.deals)
  {
  }

  // On any table, under any reading that finds every refusal right, the walk gives that reading.
  lemma JudgementIsTrue(T: Table, V: Verdicts)
    requires WellFormed(T) && Reading(T, V) && Harmless(V, Judgement(T))
    ensures HappenedBy(T, Judgement(T), T.deals) == set c | 0 <= c < T.deals && V.eff(c) :: T.carriers[c].hash
    ensures UnbackedBy(T, Judgement(T), |T.carriers|) == set c | 0 <= c < |T.carriers| && !V.back(c) ::
            T.carriers[c].hash
    ensures MovesBackedBy(T, Judgement(T), |T.carriers|) == set c | T.deals <= c < |T.carriers| && V.back(c) ::
            T.carriers[c].hash
  {
    hide Coherent, After, Sound, Harmless, WellFormed, SpendsOf, Shape, Idle, Judgement, Says, Reading;
    var n := T.deals + |T.carriers|;
    var m := Judgement(T);
    AfterEnds(T);
    AfterIsTrue(T, V, n);
    forall c: nat, yes | c < T.deals ensures Recalls(m, Happens(c), yes) <==> yes == V.eff(c) {
      TopAreSaid(T, V, c);
    }
    forall c: nat, yes | c < |T.carriers| ensures Recalls(m, IsBacked(c), yes) <==> yes == V.back(c) {
      TopAreSaid(T, V, T.deals + c);
    }
    hide Recalls;
  }

  // Those sets obey the rules in closed form: what happened is what completes something, was
  // accepted and pays; what does not pay is unbacked; a move stands exactly when it pays.
  lemma JudgementObeys(T: Table, V: Verdicts)
    requires WellFormed(T) && Reading(T, V) && Harmless(V, Judgement(T))
    ensures var m := Judgement(T);
            var O := SpendRules.Outcome(HappenedBy(T, m, T.deals), UnbackedBy(T, m, |T.carriers|));
            && O == SpendRules.OutcomeOf(T, V) && SpendRules.Rules(T, O)
            && MovesBackedBy(T, m, |T.carriers|) ==
               set c | T.deals <= c < |T.carriers| && T.carriers[c].hash !in O.unbacked :: T.carriers[c].hash
  {
    hide Coherent, Harmless, SpendsOf, Judgement, HappenedBy, UnbackedBy, MovesBackedBy, WellFormedCarrier,
         SpendRules.Rules;
    JudgementIsTrue(T, V);
    SpendRules.ReadingsObey(T, V);
    forall c: nat | c < |T.carriers|
      ensures T.carriers[c].hash in UnbackedBy(T, Judgement(T), |T.carriers|) <==> !V.back(c)
    {
      SpendRules.OutcomeSays(T, V, c);
    }
  }

  // Some order of the carriers puts each after all its verdict reads.
  ghost predicate Ranked(T: Table) {
    exists rank: seq<nat> :: |rank| == |T.carriers| && Ranks(T, rank)
  }

  // Then the walk refuses nothing, so every reading is its reading: there is one.
  lemma RefusesNothing(T: Table)
    requires WellFormed(T) && Ranked(T)
    ensures Judgement(T).refused == {}
  {
    hide Ranks, After, Shape, Idle, WellFormed, Judgement;
    AfterEnds(T);
    var rank: seq<nat> :| |rank| == |T.carriers| && Ranks(T, rank);
    AfterIsFree(T, rank, T.deals + |T.carriers|);
  }

  lemma OneReading(T: Table, V: Verdicts, V': Verdicts)
    requires WellFormed(T) && Ranked(T) && Reading(T, V) && Reading(T, V')
    ensures forall c: nat | c < T.deals :: V.eff(c) == V'.eff(c)
    ensures forall c: nat | c < |T.carriers| :: V.back(c) == V'.back(c)
  {
    hide Ranked, Reading, After, Shape, Idle, WellFormed, Judgement, Sound, Says;
    var n := T.deals + |T.carriers|;
    RefusesNothing(T);
    AfterEnds(T);
    AfterIsTrue(T, V, n);
    AfterIsTrue(T, V', n);
    forall c: nat | c < T.deals ensures V.eff(c) == V'.eff(c) {
      TopAreSaid(T, V, c);
      TopAreSaid(T, V', c);
      assert Recalls(Judgement(T), TopQuestion(T, c), V.eff(c));
    }
    forall c: nat | c < |T.carriers| ensures V.back(c) == V'.back(c) {
      TopAreSaid(T, V, T.deals + c);
      TopAreSaid(T, V', T.deals + c);
      assert Recalls(Judgement(T), TopQuestion(T, T.deals + c), V.back(c));
    }
  }

  lemma TruthIsReading(T: Table)
    requires Stratified(T)
    ensures Reading(T, Truth(T))
  {
    TruthIsCoherent(T);
    hide Coherent;
  }

  // ---------- When nothing is refused ----------

  // All that is remembered is a reading's, and nothing was refused.
  ghost predicate Answers(T: Table, V: Verdicts, m: Memory) {
    Ranked(T) && Reading(T, V) && Sound(T, V, m) && m.refused == {}
  }

  lemma FitAnswers(T: Table, V: Verdicts, m: Memory, k: BillKey, pos: nat)
    requires Answers(T, V, m) && Idle(m) && pos < |SpendsOf(T, k)|
    ensures Answers(T, V, AskFit(T, m, k, pos).m)
  {
    assert Shape(T, m);
    var rank: seq<nat> :| |rank| == |T.carriers| && Ranks(T, rank);
    assert WellFormed(T);
    hide SpendsOf, Reading, Ranks, Sound, Above, Shape, AskFit;
    IdleIsAbove(T, rank, m, RunRank(T, rank, k, pos + 1), 0);
    FitIsFree(T, rank, m, k, pos);
    FitTrue(T, V, m, k, pos);
  }

  lemma SettleAnswers(T: Table, V: Verdicts, m: Memory, k: BillKey)
    requires Answers(T, V, m) && Idle(m) && CanSettle(T, m, k)
    ensures Answers(T, V, SettleOne(T, m, k))
  {
    var rank: seq<nat> :| |rank| == |T.carriers| && Ranks(T, rank);
    assert WellFormed(T);
    hide SpendsOf, Reading, Ranks, Sound, Above, Shape, SettleOne;
    IdleIsAbove(T, rank, m, RunRank(T, rank, k, m.runs[k].settled + 1), 3);
    SettleOneIsFree(T, rank, m, k);
    SettleOneTrue(T, V, m, k);
  }

  lemma FinishedRun(T: Table, V: Verdicts, m: Memory, k: BillKey)
    requires Answers(T, V, m) && k in m.runs && m.runs[k].run.Some?
    requires m.runs[k].settled == |m.runs[k].fit| == |SpendsOf(T, k)|
    ensures m.runs[k].run.value == V.run(k, |V.list(k)|)
  {
    hide SpendsOf, Coherent;
    SoundEntry(T, V, m, k);
  }

  ghost const NO_VERDICTS :=
    Verdicts(c => false, c => false, c => false, c => false, k => [], k => false, (k, i) => NewRun(0, 0, 0.0, None),
      (k, i) => false, (k, i) => false)

  // As when references name earlier blocks and each bill is spent in the order its spends came
  // to exist.
  lemma InOrderIsRanked(T: Table)
    requires Stratified(T) && SpentInOrder(T)
    ensures Ranked(T)
  {
    AgesRank(T);
    hide Stratified, SpentInOrder;
  }

  lemma RankedAnswers(T: Table)
    requires WellFormed(T) && Stratified(T) && Ranked(T)
    ensures Answers(T, Truth(T), Judgement(T))
    ensures HappenedBy(T, Judgement(T), T.deals) == set c | 0 <= c < T.deals && Effective(T, c) :: T.carriers[c].hash
    ensures UnbackedBy(T, Judgement(T), |T.carriers|) == set c | 0 <= c < |T.carriers| && !Backed(T, c) ::
            T.carriers[c].hash
    ensures MovesBackedBy(T, Judgement(T), |T.carriers|) == set c | T.deals <= c < |T.carriers| && Backed(T, c) ::
            T.carriers[c].hash
  {
    hide SpendsOf, Reading, Sound, After, Shape, Idle, Ranked, Stratified, WellFormed, Judgement, HappenedBy,
         UnbackedBy, MovesBackedBy, Effective, Backed;
    TruthIsReading(T);
    RefusesNothing(T);
    AfterEnds(T);
    AfterIsTrue(T, Truth(T), T.deals + |T.carriers|);
    JudgementIsTrue(T, Truth(T));
  }

  // So on such tables what is given out obeys them, and each bill ends as they say.
  lemma RankedObey(T: Table)
    requires WellFormed(T) && Stratified(T) && Ranked(T)
    ensures var m := Judgement(T);
            var O := SpendRules.Outcome(HappenedBy(T, m, T.deals), UnbackedBy(T, m, |T.carriers|));
            && SpendRules.Rules(T, O)
            && MovesBackedBy(T, m, |T.carriers|) ==
               (set c | T.deals <= c < |T.carriers| && T.carriers[c].hash !in O.unbacked :: T.carriers[c].hash)
            && forall k :: EndsByRules(T, O, k, RunOf(T, k, |SpendsOf(T, k)|).st)
  {
    hide SpendsOf, Ranked, Stratified, Coherent, WellFormedCarrier, Judgement, HappenedBy, UnbackedBy, MovesBackedBy,
         Sound, SpendRules.Rules, SpendRules.Ends, RunOf, SpendRules.OutcomeOf;
    var V := Truth(T);
    TruthIsReading(T);
    RankedAnswers(T);
    RefusesNothing(T);
    JudgementObeys(T, V);
    forall k ensures EndsByRules(T, SpendRules.OutcomeOf(T, V), k, RunOf(T, k, |SpendsOf(T, k)|).st) {
      var n := SpendRules.BillEnds(T, V, k);
    }
  }

  // A bill holds what the rules leave on it.
  ghost predicate EndsByRules(T: Table, O: SpendRules.Outcome, k: BillKey, st: BillState)
    requires WellFormed(T)
  {
    exists n: nat :: SpendRules.Ends(T, O, k, SpendsOf(T, k), st, n)
  }

  // What check_bill computes of a bill from its spends as they ended.
  ghost function BatchOf(T: Table, k: BillKey): Run
    requires Stratified(T)
  {
    SpendsOfIsList(T, k);
    var walked := Unique(Sort(FinalSpends(T, Truth(T), k, |SpendsOf(T, k)|)));
    var c := CreditIf(T, k, SourceStands(T, k));
    RunAfter(NewRun(k.holder, c.purse, c.credited, c.arrived), walked, |walked|)
  }

  // Every bill as it was read is that one.
  lemma LazyIsBatch(T: Table, k: BillKey)
    requires Stratified(T)
    ensures RunOf(T, k, |SpendsOf(T, k)|) == BatchOf(T, k)
  {
    TruthIsCoherent(T);
    var V := Truth(T);
    FinalSpendsInOrder(T, V, k);
    RunIsBatchPrefix(T, V, k, |V.list(k)|);
    BillOpens(T, V, k);
  }
}
