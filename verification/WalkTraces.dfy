// How the walk goes over tables of plain deals, one step at a time: what a question leaves
// remembered, said exactly. For tables worked through by hand.
module WalkTraces {
  import opened Options
  import opened Sums
  import opened Settlement
  import opened DealsTable
  import opened WalkSteps
  import Conservation

  lemma {:induction false} SameList(T: Table, k: BillKey, a: seq<Spend>, b: seq<Spend>)
    requires SpendList(T, k, a) && SpendList(T, k, b) && forall s :: s in a <==> s in b
    ensures a == b
  {
    assert (a != [] ==> a[0] in b) && (b != [] ==> b[0] in a);
    if a != [] && b != [] {
      assert a[0] == b[0] by {
        var i :| 0 <= i < |b| && b[i] == a[0];
        var j :| 0 <= j < |a| && a[j] == b[0];
        assert i > 0 ==> Precedes(T, b[0], b[i]);
        assert j > 0 ==> Precedes(T, a[0], a[j]);
      }
      forall s ensures s in a[1..] <==> s in b[1..] {
        if s in a[1..] {
          var i :| 1 <= i < |a| && a[i] == s;
          assert Precedes(T, a[0], s);
          assert s in b;
        }
        if s in b[1..] {
          var i :| 1 <= i < |b| && b[i] == s;
          assert Precedes(T, b[0], s);
          assert s in a;
        }
      }
      SameList(T, k, a[1..], b[1..]);
      assert a == [a[0]] + a[1..] && b == [b[0]] + b[1..];
    }
  }

  lemma {:induction false} OneCredit(t: Transfer, issuer: ChainId)
    requires |t.origins| == 1 && t.origins[0].issuer == issuer
    ensures BillCredit(t, issuer) == t.origins[0].units
  {
    var f := (o: Origin) => if o.issuer == issuer then o.units else 0.0;
    assert Sum(t.origins[..0], f) == 0.0 && Sum(t.origins, f) == t.origins[0].units;
    SumEq(t.origins, f, (o: Origin) => if o.issuer == issuer then o.units else 0.0);
  }

  predicate Plain(T: Table, c: nat) {
    c < T.deals <= |T.carriers| && T.carriers[c].terms && T.carriers[c].standsOn.None? &&
      T.carriers[c].answer == Accepted
  }

  lemma PlainIsAddressed(T: Table, m: Memory, c: nat)
    requires Shape(T, m) && Plain(T, c) && IsAddressed(c) !in m.memo
    ensures IsAddressed(c) in Questions(T)
    ensures Ask(T, m, IsAddressed(c)) == Told(true, m.(memo := m.memo[IsAddressed(c) := Yes]))
  {
    hide Shape;
    var q := IsAddressed(c);
    AskIs(T, m, q);
    assert m.memo[q := Deciding][q := Yes] == m.memo[q := Yes];
  }

  predicate Unheard(m: Memory, c: nat) {
    Happens(c) !in m.memo && IsAddressed(c) !in m.memo && IsBacked(c) !in m.memo
  }

  lemma HappensIs(T: Table, m: Memory, c: nat)
    requires Shape(T, m) && Plain(T, c) && Unheard(m, c)
    ensures Happens(c) in Questions(T)
    ensures var b := m.(memo := m.memo[Happens(c) := Deciding][IsAddressed(c) := Yes][IsBacked(c) := Deciding]);
            && Shape(T, b)
            && var r := AskPortions(T, b, c, 0);
               Ask(T, m, Happens(c)) ==
                 Told(r.yes, r.m.(memo := r.m.memo[IsBacked(c) := Remembered(r.yes)][Happens(c) := Remembered(r.yes)]))
  {
    hide Shape, AskPortions;
    assert Happens(c) in Questions(T) && IsBacked(c) in Questions(T);
    hide Questions;
    AskIs(T, m, Happens(c));
    var m1 := Begin(m, Happens(c));
    PlainIsAddressed(T, m1, c);
    var m2 := Ask(T, m1, IsAddressed(c)).m;
    AskIs(T, m2, IsBacked(c));
  }

  // A deal paid with its author's own paper.
  lemma OwnPaperHappens(T: Table, m: Memory, c: nat)
    requires Shape(T, m) && Plain(T, c) && Unheard(m, c)
    requires |T.carriers[c].t.origins| == 1 && T.carriers[c].t.origins[0].src.None?
    ensures Happens(c) in Questions(T)
    ensures Ask(T, m, Happens(c)) ==
            Told(true, m.(memo := m.memo[Happens(c) := Yes][IsAddressed(c) := Yes][IsBacked(c) := Yes]))
  {
    hide Shape, AskPortions, Ask, Questions;
    HappensIs(T, m, c);
    var b := m.(memo := m.memo[Happens(c) := Deciding][IsAddressed(c) := Yes][IsBacked(c) := Deciding]);
    OwnPortion(T, b, c, 0);
    NoPortionsLeft(T, b, c);
    assert b.memo[IsBacked(c) := Yes][Happens(c) := Yes] ==
           m.memo[Happens(c) := Yes][IsAddressed(c) := Yes][IsBacked(c) := Yes];
  }

  // A bill that such a deal opens.
  lemma OpenOwn(T: Table, m: Memory, k: BillKey, c: nat)
    requires Shape(T, m) && k !in m.runs && Find(T, k.src) == Some(c)
    requires Plain(T, c) && |T.carriers[c].t.origins| == 1 && T.carriers[c].t.origins[0].src.None? &&
             T.carriers[c].t.to == k.holder
    requires Unheard(m, c)
    ensures var b := CreditIf(T, k, true);
            Open(T, m, k) ==
            m.(memo := m.memo[Happens(c) := Yes][IsAddressed(c) := Yes][IsBacked(c) := Yes],
               runs := m.runs[k := OPENED.(run := Some(NewRun(k.holder, b.purse, b.credited, b.arrived)))])
  {
    hide WellFormed, SpendsOf, Ask, CreditIf;
    var o := m.(runs := m.runs[k := OPENED]);
    OwnPaperHappens(T, o, c);
    var b := CreditIf(T, k, true);
    assert m.runs[k := OPENED][k := OPENED.(run := Some(NewRun(k.holder, b.purse, b.credited, b.arrived)))] ==
           m.runs[k := OPENED.(run := Some(NewRun(k.holder, b.purse, b.credited, b.arrived)))];
  }

  // The one judged spend of a bill settled.
  lemma SettleFirst(T: Table, m: Memory, k: BillKey)
    requires CanSettleAll(T, m, k) && m.runs[k].fit == [true] && m.runs[k].settled == 0
    requires SpendList(T, k, SpendsOf(T, k))
    ensures var list, e := SpendsOf(T, k), m.runs[k];
            var a := m.(runs := m.runs[k := e.(busy := true)]);
            && Shape(T, a) && Holding(list[0].c) in Questions(T)
            && var h := Ask(T, a, Holding(list[0].c));
               SettleAll(T, m, k) ==
               h.m.(runs := h.m.runs[k := e.(settled := 1,
                      run := Some(Settled(e.run.value, SpendOf(T, list[0], h.yes, false), NextOnList(T, list, 0))))])
  {
    hide WellFormed, SpendsOf, Ask, SpendOf, NextOnList, Settled, SpendList, SettleAll, SettleOne, Kept, Shape,
         EntryShape, Left;
    var e := m.runs[k];
    var a := m.(runs := m.runs[k := e.(busy := true)]);
    SettleAllStep(T, m, k);
    SettleIs(T, a, k);
    var b := SettleOne(T, a, k);
    assert a.runs[k] == e.(busy := true);
    var c := Marked(b, k, false);
    SettleAllDone(T, c, k);
    var h := Ask(T, a, Holding(SpendsOf(T, k)[0].c));
    assert h.m.runs[k := b.runs[k]][k := c.runs[k]] == h.m.runs[k := c.runs[k]];
  }

  // The first spend of a fresh bill judged.
  lemma WalkOne(T: Table, m: Memory, k: BillKey, pos: nat)
    requires CanWalk(T, m, k) && m.runs[k] == OPENED.(run := m.runs[k].run) && pos < |SpendsOf(T, k)|
    requires SpendList(T, k, SpendsOf(T, k)) && DepositOf(T, SpendsOf(T, k)[0]).None?
    ensures var run, s := m.runs[k].run.value, SpendOf(T, SpendsOf(T, k)[0], true, false);
            var b := m.(runs := m.runs[k := Entry(Some(Judged(run, s)), [Fits(run, s)], 0, false)]);
            CanWalk(T, b, k) && WalkTo(T, m, k, pos) == WalkTo(T, b, k, pos)
  {
    assert IsPortion(T, SpendsOf(T, k)[0]);
    hide WellFormed, SpendsOf, SpendOf, Judged, Fits, DepositOf, SpendList, SettleAll, JudgeNext, Shape, Kept;
    WalkStep(T, m, k, pos);
    SettleAllDone(T, m, k);
    JudgeIs(T, m, k);
    var fit := Fits(m.runs[k].run.value, SpendOf(T, SpendsOf(T, k)[0], true, false));
    assert [] + [fit] == [fit];
  }

  // The second spend of a bill judged, the first having fit and been settled.
  lemma WalkTwo(T: Table, m: Memory, k: BillKey, c: Memory)
    requires CanSettleAll(T, m, k) && m.runs[k].fit == [true] && |SpendsOf(T, k)| > 1 && c == SettleAll(T, m, k)
    requires SpendList(T, k, SpendsOf(T, k)) && DepositOf(T, SpendsOf(T, k)[1]).None?
    ensures var run, s := c.runs[k].run.value, SpendOf(T, SpendsOf(T, k)[1], true, false);
            WalkTo(T, m, k, 1) ==
            Told(Fits(run, s), c.(runs :=
              c.runs[k := c.runs[k].(run := Some(Judged(run, s)), fit := [true, Fits(run, s)])]))
  {
    assert IsPortion(T, SpendsOf(T, k)[1]);
    hide WellFormed, SpendsOf, SpendOf, Judged, Fits, DepositOf, SpendList, SettleAll, JudgeNext, Shape, Kept;
    WalkStep(T, m, k, 1);
    JudgeIs(T, c, k);
    var fit := Fits(c.runs[k].run.value, SpendOf(T, SpendsOf(T, k)[1], true, false));
    assert [true] + [fit] == [true, fit];
    WalkEnds(T, JudgeNext(T, c, k), k, 1);
  }

  lemma JudgeIs(T: Table, m: Memory, k: BillKey)
    requires CanJudge(T, m, k) && SpendList(T, k, SpendsOf(T, k)) && DepositOf(T, SpendsOf(T, k)[|m.runs[k].fit|]).None?
    ensures var e := m.runs[k];
            var s := SpendOf(T, SpendsOf(T, k)[|e.fit|], true, false);
            JudgeNext(T, m, k) ==
              m.(runs := m.runs[k := e.(run := Some(Judged(e.run.value, s)), fit := e.fit + [Fits(e.run.value, s)])])
  {
    hide SpendsOf, WellFormed, SpendList;
  }

  // The run a bill opens with, its source standing or not.
  ghost function Opening(T: Table, k: BillKey, stands: bool): Run {
    var b := CreditIf(T, k, stands);
    NewRun(k.holder, b.purse, b.credited, b.arrived)
  }

  // A bill of two spends out of such a deal, the first of which fits.
  ghost predicate TwoSpends(T: Table, k: BillKey, d: nat, x: Spend, y: Spend) {
    && Find(T, k.src) == Some(d) && Plain(T, d) && T.carriers[d].t.to == k.holder
    && |T.carriers[d].t.origins| == 1 && T.carriers[d].t.origins[0].src.None?
    && IsPortion(T, x) && IsPortion(T, y) && SpendsOf(T, k) == [x, y] && SpendList(T, k, [x, y])
    && DepositOf(T, x).None? && DepositOf(T, y).None?
    && Fits(Opening(T, k, true), SpendOf(T, x, true, false))
  }

  // What is remembered while the first spend is being settled.
  ghost function Waiting(T: Table, m: Memory, k: BillKey, d: nat, x: Spend, y: Spend): Memory
    requires TwoSpends(T, k, d, x, y)
  {
    m.(memo := m.memo[Happens(d) := Yes][IsAddressed(d) := Yes][IsBacked(d) := Yes],
       runs := m.runs[k := Entry(Some(Judged(Opening(T, k, true), SpendOf(T, x, true, false))), [true], 0, true)])
  }

  // The run after the first spend, whether or not it held its hours.
  ghost function FirstSettled(T: Table, k: BillKey, d: nat, x: Spend, y: Spend, held: bool): Run
    requires TwoSpends(T, k, d, x, y)
  {
    Settled(Judged(Opening(T, k, true), SpendOf(T, x, true, false)), SpendOf(T, x, held, false),
      NextOnList(T, [x, y], 0))
  }

  // The same, the first spend not yet asked about.
  ghost function Judged1(T: Table, m: Memory, k: BillKey, d: nat, x: Spend, y: Spend): Memory
    requires TwoSpends(T, k, d, x, y)
  {
    var a := Waiting(T, m, k, d, x, y);
    a.(runs := m.runs[k := a.runs[k].(busy := false)])
  }

  lemma WaitingIs(T: Table, m: Memory, k: BillKey, d: nat, x: Spend, y: Spend)
    requires Shape(T, m) && k !in m.runs && TwoSpends(T, k, d, x, y) && Unheard(m, d)
    ensures var b := Judged1(T, m, k, d, x, y); CanSettleAll(T, b, k) && AskFit(T, m, k, 1) == WalkTo(T, b, k, 1)
  {
    hide Shape, SpendOf, Fits, Judged, WalkTo, SpendList, DepositOf, Open;
    var run := Opening(T, k, true);
    OpenOwn(T, m, k, d);
    var o := Open(T, m, k);
    WalkOne(T, o, k, 1);
    var e := Entry(Some(Judged(run, SpendOf(T, x, true, false))), [true], 0, false);
    assert o.runs[k := e] == m.runs[k := e];
  }

  lemma SecondSettles(T: Table, m: Memory, k: BillKey, d: nat, x: Spend, y: Spend)
    requires TwoSpends(T, k, d, x, y) && CanSettleAll(T, Judged1(T, m, k, d, x, y), k)
    ensures Shape(T, Waiting(T, m, k, d, x, y)) && Holding(x.c) in Questions(T)
    ensures var h := Ask(T, Waiting(T, m, k, d, x, y), Holding(x.c));
            SettleAll(T, Judged1(T, m, k, d, x, y), k) ==
            h.m.(runs := h.m.runs[k := Entry(Some(FirstSettled(T, k, d, x, y, h.yes)), [true], 1, false)])
  {
    assert SpendList(T, k, SpendsOf(T, k));
    hide Shape, SpendOf, Fits, Judged, SpendList, DepositOf, SettleAll, Ask, Settled, NextOnList, SpendsOf, Kept,
         Opening;
    var a, b := Waiting(T, m, k, d, x, y), Judged1(T, m, k, d, x, y);
    assert b.runs[k := a.runs[k]] == a.runs;
    SettleFirst(T, b, k);
  }

  lemma Second(T: Table, m: Memory, k: BillKey, d: nat, x: Spend, y: Spend)
    requires Shape(T, m) && k !in m.runs && TwoSpends(T, k, d, x, y) && Unheard(m, d)
    ensures Shape(T, Waiting(T, m, k, d, x, y)) && Holding(x.c) in Questions(T)
    ensures var h, r := Ask(T, Waiting(T, m, k, d, x, y), Holding(x.c)), AskFit(T, m, k, 1);
            var fit := Fits(FirstSettled(T, k, d, x, y, h.yes), SpendOf(T, y, true, false));
            && r.yes == fit && r.m.memo == h.m.memo && r.m.refused == h.m.refused
            && k in r.m.runs && r.m.runs[k].run.Some? && r.m.runs[k].fit == [true, fit] && !r.m.runs[k].busy
            && r.m.runs == h.m.runs[k := r.m.runs[k]]
  {
    assert SpendList(T, k, SpendsOf(T, k));
    hide Unheard, Shape, Judged, Settled, WellFormed, SpendOf, Fits, WalkTo, SpendList, DepositOf, AskFit, SettleAll,
         Ask, SpendsOf, Kept, Waiting, Judged1, FirstSettled, Opening;
    WaitingIs(T, m, k, d, x, y);
    SecondSettles(T, m, k, d, x, y);
    var b := Judged1(T, m, k, d, x, y);
    JudgedFits(T, m, k, d, x, y);
    hide TwoSpends;
    SettledOnly(T, b, k);
    WalkTwo(T, b, k, SettleAll(T, b, k));
    SetTwice(Ask(T, Waiting(T, m, k, d, x, y), Holding(x.c)).m.runs, k, SettleAll(T, b, k).runs[k],
      AskFit(T, m, k, 1).m.runs[k]);
  }

  lemma JudgedFits(T: Table, m: Memory, k: BillKey, d: nat, x: Spend, y: Spend)
    requires TwoSpends(T, k, d, x, y)
    ensures k in Judged1(T, m, k, d, x, y).runs && Judged1(T, m, k, d, x, y).runs[k].fit == [true] &&
            |SpendsOf(T, k)| == 2
    ensures SpendsOf(T, k)[1] == y && DepositOf(T, y).None?
  {
    hide Judged, Opening, SpendsOf;
  }

  lemma SetTwice(runs: map<BillKey, Entry>, k: BillKey, e: Entry, e': Entry)
    ensures runs[k := e][k := e'] == runs[k := e']
  {
  }

  lemma SettledOnly(T: Table, m: Memory, k: BillKey)
    requires CanSettleAll(T, m, k)
    ensures k in SettleAll(T, m, k).runs && SettleAll(T, m, k).runs[k].fit == m.runs[k].fit
  {
    hide SettleAll;
  }

  // A portion, and then the next ones if it is covered.
  lemma OnePortionMore(T: Table, m: Memory, c: nat, p: nat, pos: nat)
    requires Shape(T, m) && IsPortion(T, Spend(c, p)) && pos < |SpendsOf(T, KeyOf(T, Spend(c, p)))|
    requires SpendsOf(T, KeyOf(T, Spend(c, p)))[pos] == Spend(c, p)
    ensures var a := AskFit(T, m, KeyOf(T, Spend(c, p)), pos);
            AskPortions(T, m, c, p) == if a.yes then AskPortions(T, a.m, c, p + 1) else a
  {
    var k := KeyOf(T, Spend(c, p));
    SpendsOfIsList(T, k);
    Conservation.ListIsDistinct(T, k, SpendsOf(T, k));
    hide WellFormed, SpendsOf, AskFit, AskPortions, Shape, SpendList;
    var at := PortionIs(T, m, c, p);
    assert at == pos;
  }

  // A spend already judged.
  lemma FitKnown(T: Table, m: Memory, k: BillKey, pos: nat)
    requires CanWalk(T, m, k) && pos < |m.runs[k].fit| && pos < |SpendsOf(T, k)|
    ensures AskFit(T, m, k, pos) == Told(m.runs[k].fit[pos], m)
  {
    hide Shape, WalkTo;
    WalkEnds(T, m, k, pos);
  }

  // Held hours asked about a deal not yet asked about.
  lemma HoldingIs(T: Table, m: Memory, c: nat)
    requires Shape(T, m) && Plain(T, c) && Holding(c) !in m.memo && IsAddressed(c) !in m.memo && IsBacked(c) !in m.memo
    ensures Holding(c) in Questions(T)
    ensures var b := m.(memo := m.memo[Holding(c) := Deciding][IsAddressed(c) := Yes][IsBacked(c) := Deciding]);
            && Shape(T, b)
            && var r := AskPortions(T, b, c, 0);
               Ask(T, m, Holding(c)) ==
                 Told(r.yes, r.m.(memo := r.m.memo[IsBacked(c) := Remembered(r.yes)][Holding(c) := Remembered(r.yes)]))
  {
    hide Shape, AskPortions;
    assert Holding(c) in Questions(T) && IsBacked(c) in Questions(T);
    hide Questions;
    AskIs(T, m, Holding(c));
    var m1 := Begin(m, Holding(c));
    PlainIsAddressed(T, m1, c);
    var m2 := Ask(T, m1, IsAddressed(c)).m;
    AskIs(T, m2, IsBacked(c));
  }

  lemma OpenIs(T: Table, m: Memory, k: BillKey, s: nat)
    requires Shape(T, m) && k !in m.runs && Find(T, k.src) == Some(s) && T.carriers[s].t.to == k.holder
    ensures var o := m.(runs := m.runs[k := OPENED]);
            && Shape(T, o) && SourceQuestion(T, s) in Questions(T)
            && var a := Ask(T, o, SourceQuestion(T, s));
               Open(T, m, k) == a.m.(runs := a.m.runs[k := OPENED.(run := Some(Opening(T, k, a.yes)))])
  {
    hide WellFormed, SpendsOf, Ask, CreditIf;
  }

  // The first spend of a bill not yet opened.
  lemma First(T: Table, m: Memory, k: BillKey, s: nat, x: Spend)
    requires Shape(T, m) && k !in m.runs && Find(T, k.src) == Some(s) && T.carriers[s].t.to == k.holder
    requires SpendsOf(T, k) == [x] && IsPortion(T, x) && KeyOf(T, x) == k && DepositOf(T, x).None?
    ensures Shape(T, m.(runs := m.runs[k := OPENED])) && SourceQuestion(T, s) in Questions(T)
    ensures var a, r := Ask(T, m.(runs := m.runs[k := OPENED]), SourceQuestion(T, s)), AskFit(T, m, k, 0);
            && r.yes == Fits(Opening(T, k, a.yes), SpendOf(T, x, true, false))
            && r.m.memo == a.m.memo && r.m.refused == a.m.refused && k in r.m.runs &&
               r.m.runs == a.m.runs[k := r.m.runs[k]]
  {
    assert SpendList(T, k, [x]);
    assert AskFit(T, m, k, 0) == WalkTo(T, Open(T, m, k), k, 0) by { hide WalkTo, Open, SpendsOf, WellFormed; }
    hide WellFormed, SpendsOf, Ask, Opening, AskFit, Open, WalkTo, Fits, Judged, SpendOf, DepositOf, Shape, Questions,
         Kept, SpendList;
    OpenIs(T, m, k, s);
    var o := Open(T, m, k);
    WalkOne(T, o, k, 0);
    var run, p := o.runs[k].run.value, SpendOf(T, x, true, false);
    var b := o.(runs := o.runs[k := Entry(Some(Judged(run, p)), [Fits(run, p)], 0, false)]);
    WalkEnds(T, b, k, 0);
    SetTwice(Ask(T, m.(runs := m.runs[k := OPENED]), SourceQuestion(T, s)).m.runs, k, o.runs[k], b.runs[k]);
  }

  lemma TwoPortions(T: Table, m: Memory, c: nat, pos: nat, pos': nat)
    requires Shape(T, m) && IsPortion(T, Spend(c, 0)) && IsPortion(T, Spend(c, 1)) && |T.carriers[c].t.origins| == 2
    requires pos < |SpendsOf(T, KeyOf(T, Spend(c, 0)))| && SpendsOf(T, KeyOf(T, Spend(c, 0)))[pos] == Spend(c, 0)
    requires pos' < |SpendsOf(T, KeyOf(T, Spend(c, 1)))| && SpendsOf(T, KeyOf(T, Spend(c, 1)))[pos'] == Spend(c, 1)
    ensures var a := AskFit(T, m, KeyOf(T, Spend(c, 0)), pos);
            AskPortions(T, m, c, 0) == if a.yes then AskFit(T, a.m, KeyOf(T, Spend(c, 1)), pos') else a
  {
    hide SpendsOf, KeyOf, Shape, AskFit, AskPortions, Kept;
    OnePortionMore(T, m, c, 0, pos);
    var a := AskFit(T, m, KeyOf(T, Spend(c, 0)), pos);
    if a.yes {
      OnePortionMore(T, a.m, c, 1, pos');
      NoPortionsLeft(T, AskFit(T, a.m, KeyOf(T, Spend(c, 1)), pos').m, c);
    }
  }

  lemma {:induction false} StillRecalled(T: Table, q: Question, k: nat, n: nat)
    requires WellFormed(T) && k <= n <= T.deals + |T.carriers| && Recalls(After(T, k), q, true)
    ensures Recalls(After(T, n), q, true)
  {
    hide After, WellFormed;
    if k < n {
      StillRecalled(T, q, k, n - 1);
      AfterStep(T, n - 1);
    }
  }

  lemma ListIs(T: Table, k: BillKey, list: seq<Spend>)
    requires WellFormed(T) && SpendList(T, k, list)
    requires forall s | IsPortion(T, s) && KeyOf(T, s) == k :: s in list
    ensures SpendsOf(T, k) == list
  {
    hide WellFormed, SpendsOf, Precedes;
    SpendsOfIsList(T, k);
    SameList(T, k, SpendsOf(T, k), list);
  }

  // A carrier of one portion, not yet asked about.
  lemma BackedOfOne(T: Table, m: Memory, c: nat, pos: nat)
    requires Shape(T, m) && IsPortion(T, Spend(c, 0)) && |T.carriers[c].t.origins| == 1 && IsBacked(c) !in m.memo
    requires pos < |SpendsOf(T, KeyOf(T, Spend(c, 0)))| && SpendsOf(T, KeyOf(T, Spend(c, 0)))[pos] == Spend(c, 0)
    ensures IsBacked(c) in Questions(T) && Shape(T, Begin(m, IsBacked(c)))
    ensures var a := AskFit(T, Begin(m, IsBacked(c)), KeyOf(T, Spend(c, 0)), pos);
            Ask(T, m, IsBacked(c)) == Told(a.yes, End(a.m, IsBacked(c), a.yes))
  {
    hide SpendsOf, KeyOf, Shape, Questions, AskFit, AskPortions, Ask, Decide, Kept, Left;
    BackedAsksPortions(T, m, c);
    AskIs(T, m, IsBacked(c));
    var b := Begin(m, IsBacked(c));
    BackedAsksPortions(T, b, c);
    OnePortionMore(T, b, c, 0, pos);
    NoPortionsLeft(T, AskFit(T, b, KeyOf(T, Spend(c, 0)), pos).m, c);
  }

  lemma BackedAsksPortions(T: Table, m: Memory, c: nat)
    requires Shape(T, m) && c < |T.carriers|
    ensures IsBacked(c) in Questions(T) && Decide(T, m, IsBacked(c)) == AskPortions(T, m, c, 0)
  {
    hide AskPortions;
  }
}
