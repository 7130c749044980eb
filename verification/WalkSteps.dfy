// The lazy evaluation of the table (aggregator/recognition, compute_deals), question by
// question, as a function of what the walk remembers: did it happen, is it addressed, is it
// backed, does the spend fit — each asked only as far as needed, on any table. A question met
// while it is being decided is refused: the answer is "no", whatever the table says.
module WalkSteps {
  import opened Options
  import opened Settlement
  import opened DealsTable

  datatype Question =
    | Happens(c: nat)
    | IsAddressed(c: nat)
    | Holding(c: nat)
    | IsBacked(c: nat)
    | Fitting(k: BillKey, pos: nat)

  datatype Memo = No | Yes | Deciding

  // One bill's walk: its run once its credit is known, the verdicts given, the spends settled.
  datatype Entry = Entry(run: Option<Run>, fit: seq<bool>, settled: nat, busy: bool)

  const OPENED := Entry(None, [], 0, false)

  // What the walk remembers; a bill is opened when it has an entry. What was refused is noted
  // for the proofs only: nothing reads it.
  datatype Memory = Memory(memo: map<Question, Memo>, runs: map<BillKey, Entry>, refused: set<Question>)

  datatype Told = Told(yes: bool, m: Memory)

  function Remembered(yes: bool): Memo { if yes then Yes else No }

  // ---------- The shape of a memory ----------

  // What is asked once and remembered.
  function Questions(T: Table): set<Question> {
    (set c: nat | c < T.deals :: Happens(c)) + (set c: nat | c < T.deals :: IsAddressed(c)) +
    (set c: nat | c < |T.carriers| :: Holding(c)) + (set c: nat | c < |T.carriers| :: IsBacked(c))
  }

  predicate EntryShape(T: Table, k: BillKey, e: Entry) {
    && e.settled <= |e.fit| <= |SpendsOf(T, k)|
    && (e.run.None? ==> e.fit == [] && !e.busy)
    && (e.busy ==> |e.fit| < |SpendsOf(T, k)|)
  }

  ghost predicate Shape(T: Table, m: Memory) {
    && WellFormed(T)
    && m.memo.Keys <= Questions(T)
    && forall k | k in m.runs :: EntryShape(T, k, m.runs[k])
  }

  // The questions not yet asked.
  ghost function Left(T: Table, m: Memory): nat
    requires Shape(T, m)
  {
    |Questions(T) - m.memo.Keys|
  }

  // ---------- What one question leaves as it was ----------

  // An entry nobody else may touch: being opened, being walked, or walked to its end.
  predicate Pinned(T: Table, k: BillKey, e: Entry) {
    e.run.None? || e.busy || |e.fit| == |SpendsOf(T, k)|
  }

  ghost predicate RunsKept(T: Table, a: map<BillKey, Entry>, b: map<BillKey, Entry>) {
    && (forall k | k in a :: k in b && (Pinned(T, k, a[k]) ==> b[k] == a[k]))
    && (forall k | k in b :: (k in a && Pinned(T, k, a[k])) || (!b[k].busy && b[k].run.Some?))
  }

  ghost predicate Kept(T: Table, a: Memory, b: Memory) {
    && (forall q | q in a.memo :: q in b.memo && b.memo[q] == a.memo[q])
    && (forall q | q in b.memo && q !in a.memo :: b.memo[q] != Deciding)
    && a.refused <= b.refused
    && RunsKept(T, a.runs, b.runs)
  }

  lemma {:induction false} KeptTransitive(T: Table, a: Memory, b: Memory, c: Memory)
    requires Kept(T, a, b) && Kept(T, b, c)
    ensures Kept(T, a, c)
  {
    forall k | k in c.runs
      ensures (k in a.runs && Pinned(T, k, a.runs[k])) || (!c.runs[k].busy && c.runs[k].run.Some?)
    {
      if k in b.runs && Pinned(T, k, b.runs[k]) { assert c.runs[k] == b.runs[k]; }
    }
  }

  lemma {:induction false} LeftFalls(T: Table, a: Memory, b: Memory)
    requires Shape(T, a) && Shape(T, b) && Kept(T, a, b)
    ensures Left(T, b) <= Left(T, a)
  {
    var x, y := Questions(T) - b.memo.Keys, Questions(T) - a.memo.Keys;
    assert x <= y;
    Smaller(x, y);
  }

  lemma {:induction false} SameLeft(T: Table, a: Memory, b: Memory)
    requires Shape(T, a) && Shape(T, b) && a.memo == b.memo
    ensures Left(T, b) == Left(T, a)
  {
  }

  lemma {:induction false} Smaller(x: set<Question>, y: set<Question>)
    requires x <= y
    ensures |x| <= |y|
  {
    assert y == x + (y - x);
  }

  // ---------- A question opened and answered ----------

  function Begin(m: Memory, q: Question): Memory { m.(memo := m.memo[q := Deciding]) }

  function End(m: Memory, q: Question, yes: bool): Memory { m.(memo := m.memo[q := Remembered(yes)]) }

  function Ended(r: Told, q: Question): Told { Told(r.yes, End(r.m, q, r.yes)) }

  function Refuse(m: Memory, q: Question): Memory { m.(refused := m.refused + {q}) }

  lemma {:induction false} BeginShape(T: Table, m: Memory, q: Question)
    requires Shape(T, m) && q in Questions(T) && q !in m.memo
    ensures Shape(T, Begin(m, q)) && Left(T, Begin(m, q)) < Left(T, m)
  {
    hide WellFormed, EntryShape, Questions;
    assert Begin(m, q).memo.Keys == m.memo.Keys + {q};
    OneFewer(Questions(T), m.memo.Keys, q);
  }

  lemma OneFewer(all: set<Question>, asked: set<Question>, q: Question)
    requires q in all && q !in asked
    ensures |all - (asked + {q})| < |all - asked|
  {
    assert all - asked == (all - (asked + {q})) + {q};
  }

  lemma {:induction false} EndShape(T: Table, m: Memory, q: Question, r: Told)
    requires Shape(T, m) && q in Questions(T) && q !in m.memo
    requires Shape(T, r.m) && Kept(T, Begin(m, q), r.m)
    ensures Shape(T, End(r.m, q, r.yes)) && Kept(T, m, End(r.m, q, r.yes))
  {
    var a, b := Begin(m, q), End(r.m, q, r.yes);
    assert a.runs == m.runs && b.runs == r.m.runs;
    forall x | x in m.memo ensures x in b.memo && b.memo[x] == m.memo[x] { assert x in a.memo; }
    forall x | x in b.memo && x !in m.memo ensures b.memo[x] != Deciding { assert x != q ==> x !in a.memo; }
  }

  lemma {:induction false} KeptReflexive(T: Table, m: Memory)
    ensures Kept(T, m, m)
  {
  }

  // ---------- The walk ----------

  ghost function Ask(T: Table, m: Memory, q: Question): (r: Told)
    requires Shape(T, m) && q in Questions(T)
    ensures Shape(T, r.m) && Kept(T, m, r.m) && q in r.m.memo && (r.yes <==> r.m.memo[q] == Yes)
    decreases Left(T, m), 0, 0
  {
    hide SpendsOf, WellFormed;
    KeptReflexive(T, m);
    if q in m.memo then
      if m.memo[q] == Deciding then Told(false, Refuse(m, q)) else Told(m.memo[q] == Yes, m)
    else
      BeginShape(T, m, q);
      var r := Decide(T, Begin(m, q), q);
      EndShape(T, m, q, r);
      Ended(r, q)
  }

  lemma {:induction false} AskIs(T: Table, m: Memory, q: Question)
    requires Shape(T, m) && q in Questions(T) && q !in m.memo
    ensures Shape(T, Begin(m, q)) && Ask(T, m, q) == Ended(Decide(T, Begin(m, q), q), q)
  {
    hide WellFormed, SpendsOf, Decide;
    BeginShape(T, m, q);
  }

  lemma {:induction false} AskKnown(T: Table, m: Memory, q: Question)
    requires Shape(T, m) && q in Questions(T) && q in m.memo
    ensures Ask(T, m, q) == if m.memo[q] == Deciding then Told(false, Refuse(m, q)) else Told(m.memo[q] == Yes, m)
  {
    hide Shape, Questions, Decide;
  }

  // Both, the second only if the first.
  ghost function AskBoth(T: Table, m: Memory, q: Question, q': Question): (r: Told)
    requires Shape(T, m) && q in Questions(T) && q' in Questions(T)
    ensures Shape(T, r.m) && Kept(T, m, r.m)
    decreases Left(T, m), 1, 0
  {
    hide Shape, Kept;
    var a := Ask(T, m, q);
    if a.yes then
      LeftFalls(T, m, a.m);
      var b := Ask(T, a.m, q');
      KeptTransitive(T, m, a.m, b.m);
      b
    else a
  }

  ghost function Decide(T: Table, m: Memory, q: Question): (r: Told)
    requires Shape(T, m) && q in Questions(T)
    ensures Shape(T, r.m) && Kept(T, m, r.m)
    decreases Left(T, m), 8, 0
  {
    hide SpendsOf, RunsKept, EntryShape;
    KeptReflexive(T, m);
    assert q.c < |T.carriers| && WellFormedCarrier(T, q.c);
    match q
    case Happens(c) =>
      if T.carriers[c].answer == Accepted then AskBoth(T, m, IsAddressed(c), IsBacked(c))
      else Told(false, Ask(T, m, IsAddressed(c)).m)
    case IsAddressed(c) =>
      if T.carriers[c].standsOn.Some? then
        var a := Ask(T, m, Happens(T.carriers[c].standsOn.value));
        Told(a.yes && T.carriers[c].terms, a.m)
      else Told(T.carriers[c].terms, m)
    case Holding(c) =>
      if c < T.deals then AskBoth(T, m, IsAddressed(c), IsBacked(c)) else Ask(T, m, IsBacked(c))
    case IsBacked(c) => AskPortions(T, m, c, 0)
  }

  // The portions of a carrier from the p-th on, until one is not covered.
  ghost function AskPortions(T: Table, m: Memory, c: nat, p: nat): (r: Told)
    requires Shape(T, m) && c < |T.carriers| && p <= |T.carriers[c].t.origins|
    ensures Shape(T, r.m) && Kept(T, m, r.m)
    decreases Left(T, m), 7, |T.carriers[c].t.origins| - p
  {
    hide Shape, Kept;
    KeptReflexive(T, m);
    if p == |T.carriers[c].t.origins| then Told(true, m)
    else if T.carriers[c].t.origins[p].src.None? then AskPortions(T, m, c, p + 1)
    else
      var s := Spend(c, p);
      var k := KeyOf(T, s);
      assert WellFormed(T) by { assert Shape(T, m); }
      SpendsOfIsList(T, k);
      var a := AskFit(T, m, k, IndexIn(SpendsOf(T, k), s));
      LeftFalls(T, m, a.m);
      if a.yes then
        var b := AskPortions(T, a.m, c, p + 1);
        KeptTransitive(T, m, a.m, b.m);
        b
      else a
  }

  function IndexIn(list: seq<Spend>, s: Spend): (i: nat)
    requires s in list
    ensures i < |list| && list[i] == s
  {
    if list[0] == s then 0 else 1 + IndexIn(list[1..], s)
  }

  lemma {:induction false} NoPortionsLeft(T: Table, m: Memory, c: nat)
    requires Shape(T, m) && c < |T.carriers|
    ensures AskPortions(T, m, c, |T.carriers[c].t.origins|) == Told(true, m)
  {
    hide Shape;
  }

  lemma {:induction false} OwnPortion(T: Table, m: Memory, c: nat, p: nat)
    requires Shape(T, m) && c < |T.carriers| && p < |T.carriers[c].t.origins| && !IsPortion(T, Spend(c, p))
    ensures AskPortions(T, m, c, p) == AskPortions(T, m, c, p + 1)
  {
    hide Shape, AskFit;
  }

  // A portion is asked about at its place on the list of its bill.
  lemma {:induction false} PortionIs(T: Table, m: Memory, c: nat, p: nat) returns (pos: nat)
    requires Shape(T, m) && IsPortion(T, Spend(c, p))
    ensures pos < |SpendsOf(T, KeyOf(T, Spend(c, p)))| && SpendsOf(T, KeyOf(T, Spend(c, p)))[pos] == Spend(c, p)
    ensures var a := AskFit(T, m, KeyOf(T, Spend(c, p)), pos);
            && Left(T, a.m) <= Left(T, m) && AskPortions(T, m, c, p) ==
               if a.yes then AskPortions(T, a.m, c, p + 1) else a
  {
    var s := Spend(c, p);
    SpendsOfIsList(T, KeyOf(T, s));
    pos := IndexIn(SpendsOf(T, KeyOf(T, s)), s);
    hide WellFormed, SpendsOf, AskFit, SpendList, Kept, Left, EntryShape;
    LeftFalls(T, m, AskFit(T, m, KeyOf(T, s), pos).m);
  }

  // Whether the pos-th spend of a bill is covered.
  ghost function AskFit(T: Table, m: Memory, k: BillKey, pos: nat): (r: Told)
    requires Shape(T, m) && pos < |SpendsOf(T, k)|
    ensures Shape(T, r.m) && Kept(T, m, r.m)
    ensures (k in m.runs ==> m.runs[k].run.Some? && !m.runs[k].busy) ==> CanWalk(T, r.m, k) && pos < |r.m.runs[k].fit|
    decreases Left(T, m), 6, 0
  {
    hide SpendsOf, WellFormed;
    KeptReflexive(T, m);
    if k in m.runs && m.runs[k].run.None? then Told(false, Refuse(m, Fitting(k, pos)))
    else if k in m.runs then WalkTo(T, m, k, pos)
    else
      var o := Open(T, m, k);
      assert Left(T, o) <= Left(T, m) by { LeftFalls(T, m, o); }
      var r := WalkTo(T, o, k, pos);
      KeptTransitive(T, m, o, r.m);
      r
  }

  // A bill opened: on what terms depends on whether its source stands.
  ghost function Open(T: Table, m: Memory, k: BillKey): (m': Memory)
    requires Shape(T, m) && k !in m.runs
    ensures CanWalk(T, m', k) && !m'.runs[k].busy && Kept(T, m, m')
    decreases Left(T, m), 5, 0
  {
    hide SpendsOf, Shape, Kept, Left, EntryShape;
    OpenedShape(T, m, k);
    var a := AskSource(T, m.(runs := m.runs[k := OPENED]), k);
    var c := CreditIf(T, k, a.yes);
    var m' := a.m.(runs := a.m.runs[k := OPENED.(run := Some(NewRun(k.holder, c.purse, c.credited, c.arrived)))]);
    OpenKept(T, m, k, a.m, m');
    m'
  }

  lemma {:induction false} OpenedShape(T: Table, m: Memory, k: BillKey)
    requires Shape(T, m) && k !in m.runs
    ensures Shape(T, m.(runs := m.runs[k := OPENED])) && Left(T, m.(runs := m.runs[k := OPENED])) == Left(T, m)
  {
    hide SpendsOf, WellFormed;
  }

  lemma {:induction false} OpenKept(T: Table, m: Memory, k: BillKey, a: Memory, m': Memory)
    requires k !in m.runs && Shape(T, a) && Kept(T, m.(runs := m.runs[k := OPENED]), a)
    requires k in m'.runs && m' == a.(runs := a.runs[k := m'.runs[k]]) && m'.runs[k] == OPENED.(run := m'.runs[k].run)
    requires m'.runs[k].run.Some?
    ensures Kept(T, m, m') && CanWalk(T, m', k) && !m'.runs[k].busy
  {
    hide SpendsOf, WellFormed;
    assert EntryShape(T, k, m'.runs[k]);
    var o := m.runs[k := OPENED];
    forall x | x in m.runs ensures x in m'.runs && (Pinned(T, x, m.runs[x]) ==> m'.runs[x] == m.runs[x]) {
      assert x in o && o[x] == m.runs[x];
    }
    forall x | x in m'.runs
      ensures (x in m.runs && Pinned(T, x, m.runs[x])) || (!m'.runs[x].busy && m'.runs[x].run.Some?)
    {
      if x != k { assert x in o ==> x in m.runs && o[x] == m.runs[x]; }
    }
  }

  function SourceQuestion(T: Table, s: nat): Question { if s < T.deals then Happens(s) else IsBacked(s) }

  // Asked only of a block that paid this holder.
  ghost function AskSource(T: Table, m: Memory, k: BillKey): (r: Told)
    requires Shape(T, m)
    ensures Shape(T, r.m) && Kept(T, m, r.m)
    decreases Left(T, m), 1, 0
  {
    hide SpendsOf, RunsKept, EntryShape;
    KeptReflexive(T, m);
    match Find(T, k.src)
    case None => Told(false, m)
    case Some(s) =>
      if T.carriers[s].t.to != k.holder then Told(false, m) else Ask(T, m, SourceQuestion(T, s))
  }

  ghost predicate CanWalk(T: Table, m: Memory, k: BillKey) {
    Shape(T, m) && k in m.runs && m.runs[k].run.Some?
  }

  ghost predicate CanSettleAll(T: Table, m: Memory, k: BillKey) {
    CanWalk(T, m, k) && !m.runs[k].busy && |m.runs[k].fit| < |SpendsOf(T, k)|
  }

  ghost predicate CanSettle(T: Table, m: Memory, k: BillKey) {
    CanWalk(T, m, k) && m.runs[k].settled < |m.runs[k].fit| && Pinned(T, k, m.runs[k])
  }

  ghost predicate CanJudge(T: Table, m: Memory, k: BillKey) {
    CanSettleAll(T, m, k) && m.runs[k].settled == |m.runs[k].fit|
  }

  // Walks a bill until its pos-th spend is judged; refused when the bill is being walked.
  ghost function WalkTo(T: Table, m: Memory, k: BillKey, pos: nat): (r: Told)
    requires CanWalk(T, m, k) && pos < |SpendsOf(T, k)|
    ensures Shape(T, r.m) && Kept(T, m, r.m)
    ensures CanWalk(T, r.m, k) && (!m.runs[k].busy ==> !r.m.runs[k].busy && pos < |r.m.runs[k].fit|)
    decreases Left(T, m), 4, if pos < |m.runs[k].fit| then 0 else pos + 1 - |m.runs[k].fit|
  {
    hide SpendsOf, WellFormed;
    KeptReflexive(T, m);
    if pos < |m.runs[k].fit| then Told(m.runs[k].fit[pos], m)
    else if m.runs[k].busy then Told(false, Refuse(m, Fitting(k, pos)))
    else
      var a := SettleAll(T, m, k);
      var b := JudgeNext(T, a, k);
      JudgeKept(T, m, a, k);
      assert Left(T, b) <= Left(T, m) by { LeftFalls(T, m, b); }
      var r := WalkTo(T, b, k, pos);
      KeptTransitive(T, m, b, r.m);
      r
  }

  lemma {:induction false} WalkEnds(T: Table, m: Memory, k: BillKey, pos: nat)
    requires CanWalk(T, m, k) && pos < |m.runs[k].fit| && pos < |SpendsOf(T, k)|
    ensures WalkTo(T, m, k, pos) == Told(m.runs[k].fit[pos], m)
  {
    hide WellFormed, SpendsOf, Shape;
  }

  lemma {:induction false} WalkBusy(T: Table, m: Memory, k: BillKey, pos: nat)
    requires CanWalk(T, m, k) && |m.runs[k].fit| <= pos < |SpendsOf(T, k)| && m.runs[k].busy
    ensures WalkTo(T, m, k, pos) == Told(false, Refuse(m, Fitting(k, pos)))
  {
    hide SpendsOf, Shape, SettleAll, JudgeNext, Left;
  }

  lemma {:induction false} WalkStep(T: Table, m: Memory, k: BillKey, pos: nat)
    requires CanWalk(T, m, k) && |m.runs[k].fit| <= pos < |SpendsOf(T, k)| && !m.runs[k].busy
    ensures CanSettleAll(T, m, k)
    ensures var b := JudgeNext(T, SettleAll(T, m, k), k); Kept(T, m, b) && WalkTo(T, m, k, pos) == WalkTo(T, b, k, pos)
  {
    hide SpendsOf, WellFormed, Left, SettleAll, JudgeNext;
    JudgeKept(T, m, SettleAll(T, m, k), k);
  }

  lemma {:induction false} JudgeKept(T: Table, m: Memory, a: Memory, k: BillKey)
    requires k in m.runs && !Pinned(T, k, m.runs[k]) && Kept(T, m, a) && CanJudge(T, a, k)
    ensures Kept(T, m, JudgeNext(T, a, k))
  {
    hide SpendsOf, WellFormed;
  }

  // Settles all the spends judged so far, the bill marked busy meanwhile.
  ghost function SettleAll(T: Table, m: Memory, k: BillKey): (m': Memory)
    requires CanSettleAll(T, m, k)
    ensures CanJudge(T, m', k) && Kept(T, m, m') && m'.runs[k].fit == m.runs[k].fit
    decreases Left(T, m), 3, |m.runs[k].fit| - m.runs[k].settled
  {
    hide SpendsOf, WellFormed, Kept, Shape, EntryShape;
    SettledShape(T, m, k);
    if m.runs[k].settled == |m.runs[k].fit| then m
    else
      var a := Marked(m, k, true);
      var b := SettleOne(T, a, k);
      var c := Marked(b, k, false);
      MarkedKept(T, m, k, b);
      var m' := SettleAll(T, c, k);
      KeptTransitive(T, m, c, m');
      m'
  }

  function Marked(m: Memory, k: BillKey, busy: bool): Memory
    requires k in m.runs
  {
    m.(runs := m.runs[k := m.runs[k].(busy := busy)])
  }

  lemma {:induction false} SettledShape(T: Table, m: Memory, k: BillKey)
    requires CanSettleAll(T, m, k)
    ensures Kept(T, m, m) && m.runs[k].settled <= |m.runs[k].fit|
    ensures m.runs[k].settled < |m.runs[k].fit| ==>
            CanSettle(T, Marked(m, k, true), k) && Left(T, Marked(m, k, true)) == Left(T, m)
  {
    hide SpendsOf, WellFormed;
    KeptReflexive(T, m);
  }

  // The mark of being walked, put on and taken off again.
  lemma {:induction false} MarkedKept(T: Table, m: Memory, k: BillKey, b: Memory)
    requires CanSettleAll(T, m, k) && CanWalk(T, b, k)
    requires Kept(T, Marked(m, k, true), b.(runs := b.runs[k := Marked(m, k, true).runs[k]]))
    requires b.runs[k] == Marked(m, k, true).runs[k].(settled := m.runs[k].settled + 1, run := b.runs[k].run)
    ensures var c := Marked(b, k, false);
            && CanSettleAll(T, c, k) && Kept(T, m, c) && Left(T, c) <= Left(T, m)
            && c.runs[k].fit == m.runs[k].fit && c.runs[k].settled == m.runs[k].settled + 1
  {
    hide SpendsOf, WellFormed;
    var c := Marked(b, k, false);
    GuardKept(T, m, k, b, c);
    assert EntryShape(T, k, c.runs[k]);
    hide EntryShape, Kept;
    LeftFalls(T, m, c);
  }

  lemma {:induction false} SettleAllDone(T: Table, m: Memory, k: BillKey)
    requires CanSettleAll(T, m, k)
    ensures m.runs[k].settled <= |m.runs[k].fit|
    ensures m.runs[k].settled == |m.runs[k].fit| ==> SettleAll(T, m, k) == m
  {
    hide SpendsOf, WellFormed, SettleOne;
  }

  lemma {:induction false} SettleAllStep(T: Table, m: Memory, k: BillKey)
    requires CanSettleAll(T, m, k) && m.runs[k].settled < |m.runs[k].fit|
    ensures var a := Marked(m, k, true);
            && CanSettle(T, a, k) && Left(T, a) == Left(T, m) && k in SettleOne(T, a, k).runs
            && var c := Marked(SettleOne(T, a, k), k, false);
               && CanSettleAll(T, c, k) && Kept(T, m, c) && SettleAll(T, m, k) == SettleAll(T, c, k)
               && c.runs[k].fit == m.runs[k].fit && c.runs[k].settled == m.runs[k].settled + 1
  {
    hide SpendsOf, WellFormed, SettleOne, Shape, Kept, Left;
    SettledShape(T, m, k);
    MarkedKept(T, m, k, SettleOne(T, Marked(m, k, true), k));
  }

  // What was kept with the entry marked busy is kept without the mark.
  lemma {:induction false} GuardKept(T: Table, m: Memory, k: BillKey, b: Memory, c: Memory)
    requires k in m.runs && !Pinned(T, k, m.runs[k]) && k in b.runs
    requires Kept(T, m.(runs := m.runs[k := m.runs[k].(busy := true)]),
             b.(runs := b.runs[k := m.runs[k].(busy := true)]))
    requires k in c.runs && c == b.(runs := b.runs[k := c.runs[k]]) && !c.runs[k].busy && c.runs[k].run.Some?
    ensures Kept(T, m, c)
  {
    var m1 := m.runs[k := m.runs[k].(busy := true)];
    var b1 := b.runs[k := m.runs[k].(busy := true)];
    forall x | x in m.runs ensures x in c.runs && (Pinned(T, x, m.runs[x]) ==> c.runs[x] == m.runs[x]) {
      assert x in m1 && x in b1;
      if Pinned(T, x, m.runs[x]) { assert m1[x] == m.runs[x] && b1[x] == m1[x]; }
    }
    forall x | x in c.runs
      ensures (x in m.runs && Pinned(T, x, m.runs[x])) || (!c.runs[x].busy && c.runs[x].run.Some?)
    {
      if x != k {
        assert x in b1;
        if x in m1 && Pinned(T, x, m1[x]) { assert b1[x] == m1[x] && x in m.runs; }
      }
    }
  }

  // How the next unsettled spend of a bill ended.
  ghost function SettleOne(T: Table, m: Memory, k: BillKey): (m': Memory)
    requires CanSettle(T, m, k)
    ensures CanWalk(T, m', k) && Kept(T, m, m'.(runs := m'.runs[k := m.runs[k]]))
    ensures m'.runs[k] == m.runs[k].(settled := m.runs[k].settled + 1, run := m'.runs[k].run)
    decreases Left(T, m), 2, 0
  {
    var e := m.runs[k];
    var list, j := SpendsOf(T, k), e.settled;
    SpendsOfIsList(T, k);
    KeptReflexive(T, m);
    if e.fit[j] then
      var h := Ask(T, m, Holding(list[j].c));
      assert h.m.runs[k] == e;
      hide SpendsOf, Shape, Kept;
      var e' := e.(settled := j + 1,
        run := Some(Settled(e.run.value, SpendOf(T, list[j], h.yes, false), NextOnList(T, list, j))));
      SetEntryShape(T, h.m, k, e');
      h.m.(runs := h.m.runs[k := e'])
    else
      hide SpendsOf, Shape, Kept;
      SetEntryShape(T, m, k, e.(settled := j + 1));
      m.(runs := m.runs[k := e.(settled := j + 1)])
  }

  lemma {:induction false} SettleIs(T: Table, m: Memory, k: BillKey)
    requires CanSettle(T, m, k)
    ensures SpendList(T, k, SpendsOf(T, k)) && Holding(SpendsOf(T, k)[m.runs[k].settled].c) in Questions(T)
    ensures var e, list := m.runs[k], SpendsOf(T, k);
            var s := list[e.settled];
            var stands := Ask(T, m, Holding(s.c));
            var a := if e.fit[e.settled] then stands.m else m;
            && CanWalk(T, a, k) && a.runs[k] == e && EntryShape(T, k, SettleOne(T, m, k).runs[k])
            && Shape(T, SettleOne(T, m, k))
            && SettleOne(T, m, k) == a.(runs := a.runs[k := e.(settled := e.settled + 1,
                 run := if e.fit[e.settled]
                   then Some(Settled(e.run.value, SpendOf(T, s, stands.yes, false), NextOnList(T, list, e.settled)))
                        else e.run)])
  {
    SpendsOfIsList(T, k);
    hide SpendsOf, WellFormed, Ask, EntryShape, SpendList, RunsKept;
  }

  lemma SetEntryShape(T: Table, m: Memory, k: BillKey, e: Entry)
    requires CanWalk(T, m, k) && EntryShape(T, k, e) && e.run.Some?
    ensures CanWalk(T, m.(runs := m.runs[k := e]), k)
    ensures var m' := m.(runs := m.runs[k := e]); m'.(runs := m'.runs[k := m.runs[k]]) == m
  {
    hide SpendsOf, WellFormed, EntryShape;
    assert m.runs[k := e][k := m.runs[k]] == m.runs;
  }

  // Whether an earlier spend of the bill, as far as the walk knows, bought the deposit back.
  ghost predicate BoughtSoFar(T: Table, m: Memory, list: seq<Spend>, i: nat, h: nat)
    requires i <= |list| && forall j | 0 <= j < |list| :: IsPortion(T, list[j])
  {
    exists j | 0 <= j < i ::
      && IsPortion(T, list[j]) && IsBuyback(T, list[j].c, h) && T.carriers[list[j].c].answer == Accepted
      && Holding(list[j].c) in m.memo && m.memo[Holding(list[j].c)] == Yes
  }

  ghost predicate FrozenSoFar(T: Table, m: Memory, list: seq<Spend>, i: nat)
    requires i < |list| && forall j | 0 <= j < |list| :: IsPortion(T, list[j])
  {
    match DepositOf(T, list[i])
    case None => false
    case Some(h) =>
      DepositFrozen(T.carriers[h].t, T.carriers[list[i].c].t.timestamp,
                    IsBuyback(T, list[i].c, h) || BoughtSoFar(T, m, list, i, h))
  }

  // Judges the next spend of a bill; this asks nothing.
  ghost function JudgeNext(T: Table, m: Memory, k: BillKey): (m': Memory)
    requires CanJudge(T, m, k)
    ensures CanWalk(T, m', k) && |m'.runs[k].fit| == |m.runs[k].fit| + 1
  {
    hide SpendsOf, WellFormed;
    var e := m.runs[k];
    var list, q := SpendsOf(T, k), |e.fit|;
    SpendsOfIsList(T, k);
    var s := SpendOf(T, list[q], true, FrozenSoFar(T, m, list, q));
    m.(runs := m.runs[k := e.(run := Some(Judged(e.run.value, s)), fit := e.fit + [Fits(e.run.value, s)])])
  }

  // ---------- The whole table ----------

  // Nothing is being decided, opened or walked.
  predicate Idle(m: Memory) {
    && (forall q | q in m.memo :: m.memo[q] != Deciding)
    && forall k | k in m.runs :: m.runs[k].run.Some? && !m.runs[k].busy
  }

  lemma {:induction false} IdleKept(T: Table, a: Memory, b: Memory)
    requires Idle(a) && Kept(T, a, b)
    ensures Idle(b)
  {
    forall k | k in b.runs ensures b.runs[k].run.Some? && !b.runs[k].busy {
      if k in a.runs && Pinned(T, k, a.runs[k]) { assert b.runs[k] == a.runs[k]; }
    }
    forall q | q in b.memo ensures b.memo[q] != Deciding { assert q in a.memo ==> b.memo[q] == a.memo[q]; }
  }

  const NOTHING_ASKED := Memory(map[], map[], {})

  // The top questions in their order: every deal, then every carrier's paper.
  function TopQuestion(T: Table, i: nat): Question { if i < T.deals then Happens(i) else IsBacked(i - T.deals) }

  // What the walk remembers after the first n of them.
  ghost function After(T: Table, n: nat): (m: Memory)
    requires WellFormed(T) && n <= T.deals + |T.carriers|
    ensures Shape(T, m) && Idle(m)
  {
    if n == 0 then NOTHING_ASKED
    else
      var m := After(T, n - 1);
      var r := Ask(T, m, TopQuestion(T, n - 1));
      IdleKept(T, m, r.m);
      r.m
  }

  // What is remembered of a question already answered.
  predicate Recalls(m: Memory, q: Question, yes: bool) { q in m.memo && m.memo[q] == Remembered(yes) }

  lemma {:induction false} AfterStep(T: Table, n: nat)
    requires WellFormed(T) && n < T.deals + |T.carriers|
    ensures var q, m, m' := TopQuestion(T, n), After(T, n), After(T, n + 1);
            && q in Questions(T) && m' == Ask(T, m, q).m && Recalls(m', q, Ask(T, m, q).yes)
            && (forall x, yes | Recalls(m, x, yes) :: Recalls(m', x, yes))
  {
    assert Idle(After(T, n + 1));
    assert TopQuestion(T, n) in Questions(T);
    hide SpendsOf, WellFormed, Ask, RunsKept, Questions;
  }

  ghost function Judgement(T: Table): (m: Memory)
    requires WellFormed(T)
    ensures Shape(T, m) && Idle(m)
  {
    After(T, T.deals + |T.carriers|)
  }

  lemma {:induction false} AfterEnds(T: Table)
    requires WellFormed(T)
    ensures After(T, 0) == NOTHING_ASKED && After(T, T.deals + |T.carriers|) == Judgement(T)
  {
    hide WellFormed, Shape, Idle, Ask, After, Questions;
    AfterNone(T);
  }

  lemma {:induction false} AfterNone(T: Table)
    requires WellFormed(T)
    ensures After(T, 0) == NOTHING_ASKED
  {
    hide WellFormed, Shape, Idle, Ask, Questions;
  }
}
