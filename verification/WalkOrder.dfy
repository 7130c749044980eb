// When the carriers can be ranked so that each comes after all its verdict reads, no question
// meets itself: whatever is in progress is about something later than what is asked.
module WalkOrder {
  import opened Options
  import opened Settlement
  import opened DealsTable
  import opened Happened
  import opened WalkSteps

  // The carrier whose verdict the credit of a bill reads: only of a block that paid this holder.
  function SourceOf(T: Table, k: BillKey): Option<nat> {
    var s := Find(T, k.src);
    if s.Some? && T.carriers[s.value].t.to == k.holder then s else None
  }

  // Each carrier comes after the sources of its bills, the purchase it stands on, and the
  // spends before its own on each bill's list.
  ghost predicate Ranks(T: Table, rank: seq<nat>) {
    && WellFormed(T) && |rank| == |T.carriers|
    && (forall s | IsPortion(T, s) && SourceOf(T, KeyOf(T, s)).Some? ::
       rank[SourceOf(T, KeyOf(T, s)).value] < rank[s.c])
    && (forall a, b | IsPortion(T, a) && IsPortion(T, b) && KeyOf(T, a) == KeyOf(T, b) && Precedes(T, a, b) ::
       rank[a.c] < rank[b.c])
    && (forall c | 0 <= c < |rank| && T.carriers[c].standsOn.Some? ::
          T.carriers[c].standsOn.value < |rank| && rank[T.carriers[c].standsOn.value] < rank[c])
  }

  lemma RankGrows(T: Table, rank: seq<nat>, a: Spend, b: Spend)
    requires Ranks(T, rank) && IsPortion(T, a) && IsPortion(T, b) && KeyOf(T, a) == KeyOf(T, b) && Precedes(T, a, b)
    ensures |rank| == |T.carriers| && rank[a.c] < rank[b.c]
  {
  }

  lemma SourceFirst(T: Table, rank: seq<nat>, s: Spend)
    requires Ranks(T, rank) && IsPortion(T, s) && SourceOf(T, KeyOf(T, s)).Some?
    ensures |rank| == |T.carriers| && rank[SourceOf(T, KeyOf(T, s)).value] < rank[s.c]
  {
  }

  // Ages rank them when references name earlier blocks and each bill is spent in order.
  lemma AgesRank(T: Table)
    requires Stratified(T) && SpentInOrder(T)
    ensures Ranks(T, T.age)
  {
    hide WellFormedCarrier, BranchGrows, Precedes;
    forall s | IsPortion(T, s) && SourceOf(T, KeyOf(T, s)).Some?
      ensures T.age[SourceOf(T, KeyOf(T, s)).value] < T.age[s.c]
    {
      assert NamesEarlier(T, s);
    }
    forall c | 0 <= c < |T.age| && T.carriers[c].standsOn.Some?
      ensures T.carriers[c].standsOn.value < |T.age| && T.age[T.carriers[c].standsOn.value] < T.age[c]
    {
      assert StandsOnEarlier(T, c);
    }
  }

  ghost function SourceRank(T: Table, rank: seq<nat>, k: BillKey): nat
    requires |rank| == |T.carriers|
  {
    match SourceOf(T, k) case None => 0 case Some(s) => rank[s] + 1
  }

  // The rank of what the run of a bill has read before its i-th spend: its source, or a spend.
  ghost function RunRank(T: Table, rank: seq<nat>, k: BillKey, i: nat): nat
    requires WellFormed(T) && |rank| == |T.carriers| && i <= |SpendsOf(T, k)|
  {
    SpendsOfIsList(T, k);
    if i == 0 then SourceRank(T, rank, k) else rank[SpendsOf(T, k)[i - 1].c] + 1
  }

  lemma ListGrows(T: Table, rank: seq<nat>, k: BillKey)
    requires Ranks(T, rank)
    ensures SpendList(T, k, SpendsOf(T, k))
    ensures forall i, j | 0 <= i < j <= |SpendsOf(T, k)| :: RunRank(T, rank, k, i) < RunRank(T, rank, k, j)
  {
    SpendsOfIsList(T, k);
    var list := SpendsOf(T, k);
    forall i, j | 0 <= i < j <= |list| ensures RunRank(T, rank, k, i) < RunRank(T, rank, k, j) {
      assert IsPortion(T, list[j - 1]) && KeyOf(T, list[j - 1]) == k;
      if i > 0 { assert Precedes(T, list[i - 1], list[j - 1]); }
    }
  }

  // ---------- Whatever is in progress is later ----------

  function Level(q: Question): nat {
    match q
    case Happens(_) => 4
    case Holding(_) => 3
    case IsAddressed(_) => 2
    case IsBacked(_) => 1
    case Fitting(_, _) => 0
  }

  predicate Later(at: nat, level: nat, at': nat, level': nat) {
    at < at' || (at == at' && level < level')
  }

  ghost function When(T: Table, rank: seq<nat>, q: Question): nat
    requires WellFormed(T) && |rank| == |T.carriers| && q in Questions(T)
  {
    rank[q.c] + 1
  }

  ghost predicate MemoAbove(T: Table, rank: seq<nat>, q: Question, at: nat, level: nat)
    requires WellFormed(T) && |rank| == |T.carriers| && q in Questions(T)
  {
    Later(at, level, When(T, rank, q), Level(q))
  }

  ghost predicate EntryAbove(T: Table, rank: seq<nat>, k: BillKey, e: Entry, at: nat)
    requires WellFormed(T) && |rank| == |T.carriers| && EntryShape(T, k, e)
  {
    (e.run.None? ==> at <= SourceRank(T, rank, k)) && (e.busy ==> at < RunRank(T, rank, k, |e.fit| + 1))
  }

  // Whatever is being decided, opened or walked is about something later than (at, level).
  ghost predicate Above(T: Table, rank: seq<nat>, m: Memory, at: nat, level: nat)
    requires Shape(T, m) && |rank| == |T.carriers|
  {
    && (forall q | q in m.memo && m.memo[q] == Deciding :: MemoAbove(T, rank, q, at, level))
    && (forall k | k in m.runs :: EntryAbove(T, rank, k, m.runs[k], at))
  }

  // What is above a question is above every smaller one, whatever was asked in between.
  lemma {:induction false} StillAbove(T: Table, rank: seq<nat>, a: Memory, b: Memory, at: nat, level: nat, at': nat,
      level': nat)
    requires |rank| == |T.carriers|
    requires Shape(T, a) && Shape(T, b) && Kept(T, a, b) && Above(T, rank, a, at, level)
    requires at' < at || (at' == at && level' <= level)
    ensures Above(T, rank, b, at', level')
  {
    hide EntryShape, SpendsOf, WellFormed;
    forall k | k in b.runs ensures EntryAbove(T, rank, k, b.runs[k], at') {
      if b.runs[k].busy || b.runs[k].run.None? {
        assert k in a.runs && b.runs[k] == a.runs[k] && EntryAbove(T, rank, k, a.runs[k], at);
      }
    }
    forall q | q in b.memo && b.memo[q] == Deciding ensures MemoAbove(T, rank, q, at', level') {
      assert q in a.memo && MemoAbove(T, rank, q, at, level);
    }
  }

  lemma {:induction false} Lower(T: Table, rank: seq<nat>, m: Memory, at: nat, level: nat, at': nat, level': nat)
    requires |rank| == |T.carriers|
    requires Shape(T, m) && Above(T, rank, m, at, level)
    requires at' < at || (at' == at && level' <= level)
    ensures Above(T, rank, m, at', level')
  {
    hide Above, Shape;
    KeptReflexive(T, m);
    StillAbove(T, rank, m, m, at, level, at', level');
  }

  lemma {:induction false} IdleIsAbove(T: Table, rank: seq<nat>, m: Memory, at: nat, level: nat)
    requires |rank| == |T.carriers|
    requires Shape(T, m) && Idle(m)
    ensures Above(T, rank, m, at, level)
  {
    hide SpendsOf, WellFormed;
  }

  lemma {:induction false} BeginAbove(T: Table, rank: seq<nat>, m: Memory, q: Question)
    requires |rank| == |T.carriers|
    requires Shape(T, m) && q in Questions(T) && q !in m.memo && Above(T, rank, m, When(T, rank, q), Level(q))
    ensures Shape(T, Begin(m, q)) && Above(T, rank, Begin(m, q), When(T, rank, q), Level(q) - 1)
  {
    hide SpendsOf, WellFormed;
    forall x | x in Begin(m, q).memo && Begin(m, q).memo[x] == Deciding
      ensures MemoAbove(T, rank, x, When(T, rank, q), Level(q) - 1)
    {
      if x != q { assert MemoAbove(T, rank, x, When(T, rank, q), Level(q)); }
    }
    forall k | k in m.runs ensures EntryAbove(T, rank, k, m.runs[k], When(T, rank, q)) {}
  }

  lemma {:induction false} NotDeciding(T: Table, rank: seq<nat>, m: Memory, q: Question)
    requires |rank| == |T.carriers| && Shape(T, m) && q in Questions(T) && Above(T, rank, m, When(T, rank, q), Level(q))
    ensures q in m.memo ==> m.memo[q] != Deciding
  {
    hide SpendsOf, WellFormed, EntryShape, EntryAbove, Questions;
  }

  // ---------- Nothing is refused ----------

  lemma {:induction false} AskIsFree(T: Table, rank: seq<nat>, m: Memory, q: Question)
    requires |rank| == |T.carriers| && Ranks(T, rank) && Shape(T, m) && q in Questions(T) &&
             Above(T, rank, m, When(T, rank, q), Level(q))
    ensures Ask(T, m, q).m.refused == m.refused
    decreases Left(T, m), 0, 0
  {
    hide Ranks, Decide, SpendsOf, WellFormed, EntryShape, Above, Left;
    NotDeciding(T, rank, m, q);
    if q !in m.memo {
      BeginShape(T, m, q);
      BeginAbove(T, rank, m, q);
      DecideIsFree(T, rank, Begin(m, q), q);
    }
  }

  lemma {:induction false} AskBothIsFree(T: Table, rank: seq<nat>, m: Memory, q: Question, q': Question, level: nat)
    requires |rank| == |T.carriers| && Ranks(T, rank) && Shape(T, m) && q in Questions(T) && q' in Questions(T) &&
             q.c == q'.c
    requires Level(q) <= level && Level(q') <= level && Above(T, rank, m, When(T, rank, q), level)
    ensures AskBoth(T, m, q, q').m.refused == m.refused
    decreases Left(T, m), 1, 0
  {
    hide Ranks, Ask, SpendsOf, WellFormed, Above, Kept, Left;
    var at := When(T, rank, q);
    Lower(T, rank, m, at, level, at, Level(q));
    AskIsFree(T, rank, m, q);
    var a := Ask(T, m, q);
    if a.yes {
      LeftFalls(T, m, a.m);
      StillAbove(T, rank, m, a.m, at, level, at, Level(q'));
      AskIsFree(T, rank, a.m, q');
    }
  }

  lemma {:induction false} DecideIsFree(T: Table, rank: seq<nat>, m: Memory, q: Question)
    requires |rank| == |T.carriers| && Ranks(T, rank) && Shape(T, m) && q in Questions(T) &&
             Above(T, rank, m, When(T, rank, q), Level(q) - 1)
    ensures Decide(T, m, q).m.refused == m.refused
    decreases Left(T, m), 8, 0
  {
    hide Ask, AskBoth, AskPortions, SpendsOf, Above, Kept, Left;
    var c := q.c;
    var at := rank[c] + 1;
    assert WellFormedCarrier(T, c);
    match q
    case Happens(_) =>
      Lower(T, rank, m, at, 3, at, 2);
      if T.carriers[c].answer == Accepted {
        AskBothIsFree(T, rank, m, IsAddressed(c), IsBacked(c), 3);
      } else {
        AskIsFree(T, rank, m, IsAddressed(c));
      }
    case IsAddressed(_) =>
      if T.carriers[c].standsOn.Some? {
        var h := T.carriers[c].standsOn.value;
        Lower(T, rank, m, at, 1, rank[h] + 1, 4);
        AskIsFree(T, rank, m, Happens(h));
      }
    case Holding(_) =>
      Lower(T, rank, m, at, 2, at, 1);
      if c < T.deals {
        AskBothIsFree(T, rank, m, IsAddressed(c), IsBacked(c), 2);
      } else {
        AskIsFree(T, rank, m, IsBacked(c));
      }
    case IsBacked(_) => PortionsAreFree(T, rank, m, c, 0);
  }

  lemma {:induction false} PortionsAreFree(T: Table, rank: seq<nat>, m: Memory, c: nat, p: nat)
    requires |rank| == |T.carriers| && Ranks(T, rank) && Shape(T, m) && c < |T.carriers| &&
             p <= |T.carriers[c].t.origins| && Above(T, rank, m, rank[c] + 1, 0)
    ensures AskPortions(T, m, c, p).m.refused == m.refused
    decreases Left(T, m), 7, |T.carriers[c].t.origins| - p
  {
    hide Ranks, AskFit, Above, Kept, Left;
    if p < |T.carriers[c].t.origins| {
      if T.carriers[c].t.origins[p].src.None? {
        PortionsAreFree(T, rank, m, c, p + 1);
      } else {
        var s := Spend(c, p);
        var k := KeyOf(T, s);
        SpendsOfIsList(T, k);
        var pos := IndexIn(SpendsOf(T, k), s);
        hide SpendsOf, WellFormed, Shape;
        FitIsFree(T, rank, m, k, pos);
        var a := AskFit(T, m, k, pos);
        LeftFalls(T, m, a.m);
        StillAbove(T, rank, m, a.m, rank[c] + 1, 0, rank[c] + 1, 0);
        if a.yes { PortionsAreFree(T, rank, a.m, c, p + 1); }
      }
    }
  }

  lemma {:induction false} FitIsFree(T: Table, rank: seq<nat>, m: Memory, k: BillKey, pos: nat)
    requires |rank| == |T.carriers| && Ranks(T, rank) && Shape(T, m) && pos < |SpendsOf(T, k)| &&
             Above(T, rank, m, RunRank(T, rank, k, pos + 1), 0)
    ensures AskFit(T, m, k, pos).m.refused == m.refused
    decreases Left(T, m), 6, 0
  {
    hide Ranks, SpendsOf, WellFormed, Left, WalkTo, Open, Kept, SpendList;
    ListGrows(T, rank, k);
    var at := RunRank(T, rank, k, pos + 1);
    assert RunRank(T, rank, k, 0) == SourceRank(T, rank, k) < at;
    if k in m.runs {
      assert EntryAbove(T, rank, k, m.runs[k], at);
      WalkIsFree(T, rank, m, k, pos);
    } else {
      var o := Open(T, m, k);
      LeftFalls(T, m, o);
      OpenIsFree(T, rank, m, k, at);
      StillAbove(T, rank, m, o, at, 0, at, 0);
      WalkIsFree(T, rank, o, k, pos);
    }
  }

  lemma {:induction false} OpenIsFree(T: Table, rank: seq<nat>, m: Memory, k: BillKey, at: nat)
    requires |rank| == |T.carriers| && Ranks(T, rank) && Shape(T, m) && k !in m.runs && SourceRank(T, rank, k) < at &&
             Above(T, rank, m, at, 0)
    ensures Open(T, m, k).refused == m.refused
    decreases Left(T, m), 5, 0
  {
    hide Ranks, SpendsOf, WellFormed, Left, AskSource, Kept;
    var o := m.(runs := m.runs[k := OPENED]);
    SameLeft(T, m, o);
    forall x | x in o.runs ensures EntryAbove(T, rank, x, o.runs[x], SourceRank(T, rank, k)) {
      if x != k { assert EntryAbove(T, rank, x, m.runs[x], at); }
    }
    forall q | q in o.memo && o.memo[q] == Deciding ensures MemoAbove(T, rank, q, SourceRank(T, rank, k), 4) {
      assert MemoAbove(T, rank, q, at, 0);
    }
    SourceIsFree(T, rank, o, k);
  }

  lemma {:induction false} SourceIsFree(T: Table, rank: seq<nat>, m: Memory, k: BillKey)
    requires |rank| == |T.carriers| && Ranks(T, rank) && Shape(T, m) && Above(T, rank, m, SourceRank(T, rank, k), 4)
    ensures AskSource(T, m, k).m.refused == m.refused
    decreases Left(T, m), 1, 0
  {
    hide Ranks, SpendsOf, WellFormed, Left, Ask, Kept, Above;
    if Find(T, k.src).Some? && T.carriers[Find(T, k.src).value].t.to == k.holder {
      var s := Find(T, k.src).value;
      Lower(T, rank, m, SourceRank(T, rank, k), 4, SourceRank(T, rank, k), 1);
      AskIsFree(T, rank, m, SourceQuestion(T, s));
    }
  }

  lemma {:induction false} WalkIsFree(T: Table, rank: seq<nat>, m: Memory, k: BillKey, pos: nat)
    requires |rank| == |T.carriers| && Ranks(T, rank) && CanWalk(T, m, k) && pos < |SpendsOf(T, k)| &&
             Above(T, rank, m, RunRank(T, rank, k, pos + 1), 0)
    ensures WalkTo(T, m, k, pos).m.refused == m.refused
    decreases Left(T, m), 4, if pos < |m.runs[k].fit| then 0 else pos + 1 - |m.runs[k].fit|
  {
    ListGrows(T, rank, k);
    var at := RunRank(T, rank, k, pos + 1);
    if |m.runs[k].fit| <= pos {
      assert EntryAbove(T, rank, k, m.runs[k], at) && !m.runs[k].busy;
      hide Ranks, SpendsOf, WellFormed, SpendList, SettleAll, JudgeNext, Left, Kept, Above, Shape;
      WalkStep(T, m, k, pos);
      hide WalkTo;
      SettleAllIsFree(T, rank, m, k, pos);
      var b := JudgeNext(T, SettleAll(T, m, k), k);
      JudgeRefusesNothing(T, SettleAll(T, m, k), k);
      LeftFalls(T, m, b);
      StillAbove(T, rank, m, b, at, 0, at, 0);
      WalkIsFree(T, rank, b, k, pos);
    } else {
      hide Ranks, SpendsOf, WellFormed, SpendList, SettleAll, JudgeNext, Left, Kept, Above, Shape;
    }
  }

  lemma JudgeRefusesNothing(T: Table, m: Memory, k: BillKey)
    requires CanJudge(T, m, k)
    ensures JudgeNext(T, m, k).refused == m.refused
  {
    hide SpendsOf, WellFormed;
  }

  lemma {:induction false} SettleAllIsFree(T: Table, rank: seq<nat>, m: Memory, k: BillKey, pos: nat)
    requires |rank| == |T.carriers| && Ranks(T, rank) && CanSettleAll(T, m, k) &&
             |m.runs[k].fit| <= pos < |SpendsOf(T, k)|
    requires Above(T, rank, m, RunRank(T, rank, k, pos + 1), 0)
    ensures SettleAll(T, m, k).refused == m.refused
    decreases Left(T, m), 3, |m.runs[k].fit| - m.runs[k].settled
  {
    hide Ranks, SpendsOf, WellFormed, SpendList, SettleOne, Left, Kept;
    var e := m.runs[k];
    if e.settled < |e.fit| {
      ListGrows(T, rank, k);
      var at := RunRank(T, rank, k, pos + 1);
      var now := RunRank(T, rank, k, e.settled + 1);
      assert now < at && now < RunRank(T, rank, k, |e.fit| + 1);
      Lower(T, rank, m, at, 0, now, 3);
      var a := m.(runs := m.runs[k := e.(busy := true)]);
      SameLeft(T, m, a);
      forall x | x in a.runs ensures EntryAbove(T, rank, x, a.runs[x], now) {
        if x != k { assert EntryAbove(T, rank, x, m.runs[x], now); }
      }
      assert Above(T, rank, a, now, 3);
      SettleOneIsFree(T, rank, a, k);
      var b := SettleOne(T, a, k);
      var c := Marked(b, k, false);
      GuardKept(T, m, k, b, c);
      LeftFalls(T, m, c);
      StillAbove(T, rank, m, c, at, 0, at, 0);
      SettleAllIsFree(T, rank, c, k, pos);
    }
  }

  lemma {:induction false} SettleOneIsFree(T: Table, rank: seq<nat>, m: Memory, k: BillKey)
    requires |rank| == |T.carriers| && Ranks(T, rank) && CanSettle(T, m, k) &&
             Above(T, rank, m, RunRank(T, rank, k, m.runs[k].settled + 1), 3)
    ensures SettleOne(T, m, k).refused == m.refused
    decreases Left(T, m), 2, 0
  {
    hide Ranks, SpendsOf, WellFormed, Ask, Left, Kept, Above, SpendList;
    var e := m.runs[k];
    SettleIs(T, m, k);
    if e.fit[e.settled] { AskIsFree(T, rank, m, Holding(SpendsOf(T, k)[e.settled].c)); }
  }
}
