// The credit history a chain's thread of self-issues and redemptions tells (records/credit).
module Credit {
  import opened Options
  import opened Sums

  datatype Link = Link(hash: nat, number: nat, debtAfter: real, units: real, timestamp: int,
                       isReversal: bool, reverses: nat, isRedemption: bool)

  datatype History = History(issued: real, redeemed: real, reversed: real, reversals: nat, outstanding: real,
                             maxDebt: real, maxRepaid: real, seen: nat, expected: nat, gaps: bool,
                             growth: bool, inconsistent: bool,
                             lastIssue: Option<int>, lastRedemption: Option<int>, forked: seq<nat>)

  const NOTHING: real := 0.000000001
  const EPS: real := 0.000001
  const BLANK := History(0.0, 0.0, 0.0, 0, 0.0, 0.0, 0.0, 0, 0, false, false, false, None, None, [])

  function Larger(a: real, b: real): real { if a < b then b else a }

  function Abs(x: real): real { if x < 0.0 then -x else x }

  function Later(t: Option<int>, now: int): Option<int> {
    if t.None? || now > t.value then Some(now) else t
  }

  // ---------- The digest ----------

  // The history so far, the highest real debt, the declared debt that was never born, and how
  // many self-issues counted.
  datatype Run = Run(h: History, peak: real, phantom: real, issues: nat)

  const START := Run(BLANK, 0.0, 0.0, 0)

  function WithReal(r: Run): Run {
    var debt := r.h.outstanding - r.phantom;
    var peak := Larger(r.peak, debt);
    r.(peak := peak, h := r.h.(maxRepaid := Larger(r.h.maxRepaid, peak - debt), maxDebt := Larger(r.h.maxDebt, debt)))
  }

  // One link; `reversed` names the self-issues that a reversal takes back.
  function Digested(reversed: set<nat>, r: Run, o: Link): Run {
    var h := r.h.(seen := r.h.seen + 1, outstanding := -o.debtAfter);
    if o.isReversal then r.(h := h.(reversed := h.reversed + o.units, reversals := h.reversals + 1),
      phantom := r.phantom - o.units)
    else if !o.isRedemption && o.hash in reversed then r.(h := h, phantom := r.phantom + o.units)
    else if o.isRedemption then
      WithReal(r.(h := h.(redeemed := h.redeemed + o.units, lastRedemption := Later(h.lastRedemption, o.timestamp))))
    else
      WithReal(r.(h := h.(issued := h.issued + o.units, lastIssue := Later(h.lastIssue, o.timestamp)),
        issues := r.issues + 1))
  }

  function Fork(h: History, number: nat): History {
    if h.forked == [] || h.forked[|h.forked| - 1] != number then h.(forked := h.forked + [number]) else h
  }

  // Of the links with one number only the first is digested.
  function DigestedAll(reversed: set<nat>, links: seq<Link>, n: nat): Run
    requires n <= |links|
  {
    if n == 0 then START else
    var r := DigestedAll(reversed, links, n - 1);
    var o := links[n - 1];
    if n > 1 && o.number == links[n - 2].number then r.(h := Fork(r.h, o.number)) else Digested(reversed, r, o)
  }

  function Reversed(links: seq<Link>): set<nat> {
    set i | 0 <= i < |links| && links[i].isReversal :: links[i].reverses
  }

  function Closed(r: Run, expected: nat): History {
    var gaps := r.h.seen < expected;
    r.h.(expected := expected, gaps := gaps,
         growth := !gaps && r.h.issued > NOTHING && r.h.redeemed < NOTHING && r.issues >= 2,
         inconsistent := !gaps && Abs(r.h.outstanding - (r.h.issued - r.h.redeemed)) > EPS)
  }

  // The history of links sorted by number, each block once.
  function HistoryOf(links: seq<Link>): History {
    if links == [] then BLANK
    else Closed(DigestedAll(Reversed(links), links, |links|), links[|links| - 1].number + 1)
  }

  // ---------- What a history says ----------

  // What a block under a number first met does; the later blocks of that number do nothing. A
  // self-issue some reversal names was never born.
  datatype Kind = ISSUE | UNBORN | REDEMPTION | REVERSAL

  predicate IsFirst(links: seq<Link>, i: int) {
    0 <= i < |links| && (i > 0 ==> links[i - 1].number != links[i].number)
  }

  predicate TakenBack(links: seq<Link>, hash: nat) {
    exists j :: 0 <= j < |links| && links[j].isReversal && links[j].reverses == hash
  }

  predicate Is(links: seq<Link>, k: Kind, i: int) {
    IsFirst(links, i) && match k
      case ISSUE => !links[i].isReversal && !links[i].isRedemption && !TakenBack(links, links[i].hash)
      case UNBORN => !links[i].isReversal && !links[i].isRedemption && TakenBack(links, links[i].hash)
      case REDEMPTION => !links[i].isReversal && links[i].isRedemption
      case REVERSAL => links[i].isReversal
  }

  // The units of a kind among the first n links, and how many of them there are.
  ghost function Units(links: seq<Link>, k: Kind, n: nat): real {
    SumTo(n, i => if Is(links, k, i) then links[i].units else 0.0)
  }

  ghost function Count(links: seq<Link>, k: Kind, n: nat): nat {
    |set i | 0 <= i < n && Is(links, k, i)|
  }

  ghost function Firsts(links: seq<Link>, n: nat): nat {
    |set i | 0 <= i < n && IsFirst(links, i)|
  }

  // The debt in force after the i-th link: what it declares, less what was declared before it, was
  // never born, and has not been stepped back from.
  ghost function Debt(links: seq<Link>, i: nat): real
    requires i < |links|
  {
    -links[i].debtAfter - (Units(links, UNBORN, i) - Units(links, REVERSAL, i))
  }

  // The links after which a debt is in force.
  predicate Weighs(links: seq<Link>, i: int) { Is(links, ISSUE, i) || Is(links, REDEMPTION, i) }

  // `top` is the largest of zero and the debts in force after the first n links.
  ghost predicate HighestDebt(links: seq<Link>, n: nat, top: real) {
    && top >= 0.0 && (forall i: nat | i < n && Weighs(links, i) :: Debt(links, i) <= top)
    && (top == 0.0 || exists i: nat :: i < n && Weighs(links, i) && top == Debt(links, i))
  }

  // How far the debt in force after the i-th link lies below the highest it had been.
  ghost predicate FallsBy(links: seq<Link>, i: nat, fall: real) {
    && i < |links| && Weighs(links, i)
    && exists top, n: nat :: HighestDebt(links, n, top) && n == i + 1 && fall == top - Debt(links, i)
  }

  // `fall` is the largest such fall.
  ghost predicate LargestFall(links: seq<Link>, n: nat, fall: real) {
    && fall >= 0.0 && (forall i: nat, f | i < n && FallsBy(links, i, f) :: f <= fall)
    && (fall == 0.0 || exists i: nat :: i < n && FallsBy(links, i, fall))
  }

  // `at` is the latest date of a kind.
  ghost predicate Latest(links: seq<Link>, k: Kind, n: nat, at: Option<int>) {
    match at
    case None => forall i | 0 <= i < n :: !Is(links, k, i)
    case Some(date) =>
      && (forall i | 0 <= i < n && Is(links, k, i) :: links[i].timestamp <= date)
      && exists i :: 0 <= i < n && Is(links, k, i) && links[i].timestamp == date
  }

  // The last of the first n links that is no fork.
  ghost predicate LastFirst(links: seq<Link>, n: nat, i: int) {
    0 <= i < n && IsFirst(links, i) && forall j | i < j < n :: !IsFirst(links, j)
  }

  ghost predicate Declares(links: seq<Link>, n: nat, debt: real) {
    exists i :: LastFirst(links, n, i) && debt == -links[i].debtAfter
  }

  ghost predicate Forks(links: seq<Link>, n: nat, number: nat) {
    exists i :: 0 < i < n && i < |links| && links[i - 1].number == links[i].number == number
  }

  // What the history of the first n links says, before it is closed: its sums, its debts, its
  // dates and forks.
  ghost predicate SaysSums(links: seq<Link>, n: nat, h: History) {
    && h.issued == Units(links, ISSUE, n) && h.redeemed == Units(links, REDEMPTION, n)
    && h.reversed == Units(links, REVERSAL, n) && h.reversals == Count(links, REVERSAL, n)
    && h.seen == Firsts(links, n)
  }

  ghost predicate SaysDebts(links: seq<Link>, n: nat, h: History) {
    && HighestDebt(links, n, h.maxDebt) && LargestFall(links, n, h.maxRepaid)
    && (n > 0 ==> Declares(links, n, h.outstanding))
  }

  ghost predicate SaysDates(links: seq<Link>, n: nat, h: History) {
    && Latest(links, ISSUE, n, h.lastIssue) && Latest(links, REDEMPTION, n, h.lastRedemption)
    && forall s :: s in h.forked <==> Forks(links, n, s)
  }

  // The run keeps beside it the highest debt, the debt never born, and the count of self-issues.
  ghost predicate Keeps(links: seq<Link>, n: nat, r: Run) {
    && r.peak == r.h.maxDebt && r.issues == Count(links, ISSUE, n)
    && r.phantom == Units(links, UNBORN, n) - Units(links, REVERSAL, n)
  }

  ghost predicate RunTells(links: seq<Link>, n: nat, r: Run) {
    SaysSums(links, n, r.h) && SaysDebts(links, n, r.h) && SaysDates(links, n, r.h) && Keeps(links, n, r)
  }

  // The whole history: those sums, and what follows from them.
  ghost predicate Says(links: seq<Link>, h: History) {
    var n := |links|;
    && SaysSums(links, n, h) && SaysDebts(links, n, h) && SaysDates(links, n, h)
    && h.expected == (if n == 0 then 0 else links[n - 1].number + 1)
    && (h.gaps <==> h.seen < h.expected)
    && (h.growth <==> !h.gaps && h.issued > 0.000000001 && h.redeemed < 0.000000001 && Count(links, ISSUE, n) >= 2)
    && (h.inconsistent <==> !h.gaps && n > 0 && !(-0.000001 <= h.outstanding - (h.issued - h.redeemed) <= 0.000001))
  }

  lemma UnitsOneMore(links: seq<Link>, k: Kind, n: nat)
    ensures Units(links, k, 0) == 0.0
    ensures Units(links, k, n + 1) == Units(links, k, n) + if Is(links, k, n) then links[n].units else 0.0
  {
    var f := i => if Is(links, k, i) then links[i].units else 0.0;
    SumToEq(n, f, i => if Is(links, k, i) then links[i].units else 0.0);
    SumToEq(n + 1, f, i => if Is(links, k, i) then links[i].units else 0.0);
    hide Is;
  }

  lemma CountOneMore(links: seq<Link>, k: Kind, n: nat)
    ensures Count(links, k, 0) == 0
    ensures Count(links, k, n + 1) == Count(links, k, n) + if Is(links, k, n) then 1 else 0
  {
    hide Is;
    var less, more := set i | 0 <= i < n && Is(links, k, i), set i | 0 <= i < n + 1 && Is(links, k, i);
    assert more == if Is(links, k, n) then less + {n} else less;
  }

  lemma FirstsOneMore(links: seq<Link>, n: nat)
    ensures Firsts(links, 0) == 0
    ensures Firsts(links, n + 1) == Firsts(links, n) + if IsFirst(links, n) then 1 else 0
  {
    var less, more := set i | 0 <= i < n && IsFirst(links, i), set i | 0 <= i < n + 1 && IsFirst(links, i);
    assert more == if IsFirst(links, n) then less + {n} else less;
  }

  // The pieces, link by link.
  lemma SumsStep(links: seq<Link>, n: nat)
    ensures forall k :: Units(links, k, n + 1) == Units(links, k, n) + if Is(links, k, n) then links[n].units else 0.0
    ensures forall k :: Count(links, k, n + 1) == Count(links, k, n) + if Is(links, k, n) then 1 else 0
    ensures Firsts(links, n + 1) == Firsts(links, n) + if IsFirst(links, n) then 1 else 0
  {
    hide Units, Count, Firsts;
    FirstsOneMore(links, n);
    forall k
      ensures Units(links, k, n + 1) == Units(links, k, n) + if Is(links, k, n) then links[n].units else 0.0
      ensures Count(links, k, n + 1) == Count(links, k, n) + if Is(links, k, n) then 1 else 0
    {
      UnitsOneMore(links, k, n);
      CountOneMore(links, k, n);
    }
  }

  lemma HighestStep(links: seq<Link>, n: nat, top: real)
    requires n < |links| && HighestDebt(links, n, top)
    ensures HighestDebt(links, n + 1, if Weighs(links, n) then Larger(top, Debt(links, n)) else top)
    ensures forall t | HighestDebt(links, n, t) :: t == top
  {
    hide Weighs, Debt;
  }

  lemma FallStep(links: seq<Link>, n: nat, top: real, fall: real)
    requires n < |links| && HighestDebt(links, n + 1, top) && LargestFall(links, n, fall)
    ensures LargestFall(links, n + 1, if Weighs(links, n) then Larger(fall, top - Debt(links, n)) else fall)
  {
    forall f | FallsBy(links, n, f) ensures f == top - Debt(links, n) {
      var t, m: nat :| HighestDebt(links, m, t) && m == n + 1 && f == t - Debt(links, n);
      OneHighest(links, n + 1, t, top);
    }
    assert Weighs(links, n) ==> FallsBy(links, n, top - Debt(links, n));
    assert !Weighs(links, n) ==> forall f :: !FallsBy(links, n, f);
    hide Weighs, Debt, HighestDebt, FallsBy;
  }

  lemma OneHighest(links: seq<Link>, n: nat, s: real, t: real)
    requires HighestDebt(links, n, s) && HighestDebt(links, n, t)
    ensures s == t
  {
    hide Weighs, Debt;
  }

  lemma LatestStep(links: seq<Link>, k: Kind, n: nat, at: Option<int>)
    requires n < |links| && Latest(links, k, n, at)
    ensures Latest(links, k, n + 1, if Is(links, k, n) then Later(at, links[n].timestamp) else at)
  {
    hide Is;
    if at.Some? {
      var i :| 0 <= i < n && Is(links, k, i) && links[i].timestamp == at.value;
      assert Is(links, k, n) && links[n].timestamp > at.value ==> 0 <= n < n + 1;
    }
  }

  lemma DeclaresStep(links: seq<Link>, n: nat, debt: real)
    requires n < |links| && (n > 0 ==> Declares(links, n, debt))
    ensures Declares(links, n + 1, if IsFirst(links, n) then -links[n].debtAfter else debt)
  {
    if IsFirst(links, n) {
      assert LastFirst(links, n + 1, n);
    } else {
      var i :| LastFirst(links, n, i) && debt == -links[i].debtAfter;
      assert LastFirst(links, n + 1, i);
    }
  }

  lemma ForksStep(links: seq<Link>, n: nat, h: History)
    requires n < |links| && (forall s :: s in h.forked <==> Forks(links, n, s))
    ensures var h' := if IsFirst(links, n) then h else Fork(h, links[n].number);
            forall s :: s in h'.forked <==> Forks(links, n + 1, s)
  {
    hide Forks, IsFirst, Fork;
    forall s { ForksOneMore(links, n, s); }
    ForkAdds(h, links[n].number);
  }

  lemma ForksOneMore(links: seq<Link>, n: nat, s: nat)
    requires n < |links|
    ensures Forks(links, n + 1, s) <==> Forks(links, n, s) || (!IsFirst(links, n) && links[n].number == s)
  {
    if Forks(links, n + 1, s) {
      var i :| 0 < i < n + 1 && i < |links| && links[i - 1].number == links[i].number == s;
      if i < n { assert Forks(links, n, s); }
    }
  }

  lemma ForkAdds(h: History, number: nat)
    ensures forall s :: s in Fork(h, number).forked <==> s in h.forked || s == number
  {
    if h.forked != [] { assert h.forked[|h.forked| - 1] in h.forked; }
  }

  // A link met first under its number adds to the sum of its kind, and moves the rest.
  lemma TellsStep(links: seq<Link>, n: nat, r: Run)
    requires n < |links| && IsFirst(links, n) && RunTells(links, n, r)
    ensures RunTells(links, n + 1, Digested(Reversed(links), r, links[n]))
  {
    hide SaysSums, SaysDebts, SaysDates, Units, Count, Digested, Reversed, IsFirst;
    SumsTold(links, n, r);
    DebtsTold(links, n, r);
    DatesTold(links, n, r);
  }

  lemma SumsTold(links: seq<Link>, n: nat, r: Run)
    requires n < |links| && IsFirst(links, n) && SaysSums(links, n, r.h) && Keeps(links, n, r)
    ensures var next := Digested(Reversed(links), r, links[n]);
            SaysSums(links, n + 1, next.h) && next.issues == Count(links, ISSUE, n + 1) &&
            next.phantom == Units(links, UNBORN, n + 1) - Units(links, REVERSAL, n + 1)
  {
    hide Units, Count, Firsts, Reversed, Is;
    KindsAre(links, n);
    SumsStep(links, n);
  }

  lemma DebtsTold(links: seq<Link>, n: nat, r: Run)
    requires n < |links| && IsFirst(links, n) && SaysDebts(links, n, r.h) && Keeps(links, n, r)
    ensures var next := Digested(Reversed(links), r, links[n]);
            SaysDebts(links, n + 1, next.h) && next.peak == next.h.maxDebt
  {
    hide Units, Count, HighestDebt, LargestFall, Declares, IsFirst, Reversed, Is;
    KindsAre(links, n);
    HighestStep(links, n, r.h.maxDebt);
    FallStep(links, n, Digested(Reversed(links), r, links[n]).h.maxDebt, r.h.maxRepaid);
    DeclaresStep(links, n, r.h.outstanding);
  }

  lemma DatesTold(links: seq<Link>, n: nat, r: Run)
    requires n < |links| && IsFirst(links, n) && SaysDates(links, n, r.h)
    ensures SaysDates(links, n + 1, Digested(Reversed(links), r, links[n]).h)
  {
    hide Latest, Forks, IsFirst, Reversed, Is;
    KindsAre(links, n);
    LatestStep(links, ISSUE, n, r.h.lastIssue);
    LatestStep(links, REDEMPTION, n, r.h.lastRedemption);
    ForksStep(links, n, r.h);
  }

  lemma KindsAre(links: seq<Link>, n: nat)
    requires n < |links| && IsFirst(links, n)
    ensures var o := links[n];
            && (Is(links, REVERSAL, n) <==> o.isReversal)
            && (Is(links, UNBORN, n) <==> !o.isReversal && !o.isRedemption && o.hash in Reversed(links))
            && (Is(links, REDEMPTION, n) <==> !o.isReversal && o.isRedemption)
            && (Is(links, ISSUE, n) <==> !o.isReversal && !o.isRedemption && o.hash !in Reversed(links))
  {
    assert links[n].hash in Reversed(links) <==> TakenBack(links, links[n].hash);
  }

  // A fork moves nothing but the list of forks.
  lemma ForkStep(links: seq<Link>, n: nat, r: Run)
    requires 0 < n < |links| && !IsFirst(links, n) && RunTells(links, n, r)
    ensures RunTells(links, n + 1, r.(h := Fork(r.h, links[n].number)))
  {
    hide Units, Count, Firsts, HighestDebt, LargestFall, Latest, Declares, Forks, IsFirst, Fork;
    ForkKeeps(r.h, links[n].number);
    assert forall k :: !Is(links, k, n);
    hide Is;
    SumsStep(links, n);
    HighestStep(links, n, r.h.maxDebt);
    FallStep(links, n, r.h.maxDebt, r.h.maxRepaid);
    LatestStep(links, ISSUE, n, r.h.lastIssue);
    LatestStep(links, REDEMPTION, n, r.h.lastRedemption);
    DeclaresStep(links, n, r.h.outstanding);
    ForksStep(links, n, r.h);
  }

  lemma ForkKeeps(h: History, number: nat)
    ensures Fork(h, number) == h.(forked := Fork(h, number).forked)
  {
  }

  lemma {:induction false} RunIsTold(links: seq<Link>, n: nat)
    requires n <= |links|
    ensures RunTells(links, n, DigestedAll(Reversed(links), links, n))
  {
    hide RunTells, Digested, Reversed, Fork;
    if n == 0 {
      NothingIsTold(links);
    } else {
      RunIsTold(links, n - 1);
      var r := DigestedAll(Reversed(links), links, n - 1);
      if IsFirst(links, n - 1) { TellsStep(links, n - 1, r); } else { ForkStep(links, n - 1, r); }
    }
  }

  lemma NothingIsTold(links: seq<Link>)
    ensures RunTells(links, 0, START)
  {
    forall k ensures Units(links, k, 0) == 0.0 && Count(links, k, 0) == 0 {
      UnitsOneMore(links, k, 0);
      CountOneMore(links, k, 0);
    }
    FirstsOneMore(links, 0);
    hide Units, Count, Firsts;
  }

  // What a history says of its links, forks and gaps and all: issued, redeemed and reversed are
  // sums over their kinds; the highest debt and the largest fall are those of the debt in force;
  // the flags follow.
  lemma HistorySays(links: seq<Link>)
    ensures Says(links, HistoryOf(links))
  {
    RunIsTold(links, |links|);
    hide Units, Firsts, HighestDebt, LargestFall, Latest, Declares, Forks, Reversed, DigestedAll;
    if links == [] { NothingIsTold(links); }
  }

  // ---------- The method ----------

  predicate Before(a: Link, b: Link) {
    a.number < b.number || (a.number == b.number && a.hash < b.hash)
  }

  // By number, then by hash; each block once.
  ghost predicate Tidy(links: seq<Link>) {
    forall i, j | 0 <= i < j < |links| :: Before(links[i], links[j])
  }

  predicate Has(links: seq<Link>, number: nat, hash: nat) {
    exists k | 0 <= k < |links| :: links[k].number == number && links[k].hash == hash
  }

  ghost predicate SameBlocks(seen: seq<Link>, links: seq<Link>) {
    && (forall l | l in links :: l in seen)
    && forall l | l in seen :: Has(links, l.number, l.hash)
  }

  lemma Placed(links: seq<Link>, l: Link, at: nat)
    requires at <= |links|
    ensures var out := links[..at] + [l] + links[at..];
            && (forall x :: x in out <==> x in links || x == l)
            && forall n, h :: Has(out, n, h) <==> Has(links, n, h) || (l.number == n && l.hash == h)
  {
    var out := links[..at] + [l] + links[at..];
    assert links == links[..at] + links[at..];
    assert out[at] == l;
    forall n, h | Has(links, n, h) ensures Has(out, n, h) {
      var k :| 0 <= k < |links| && links[k].number == n && links[k].hash == h;
      assert out[if k < at then k else k + 1] == links[k];
    }
  }

  method Place(links: seq<Link>, l: Link) returns (out: seq<Link>)
    requires Tidy(links)
    ensures Tidy(out)
    ensures forall x | x in out :: x in links || x == l
    ensures forall n, h :: Has(out, n, h) <==> Has(links, n, h) || (l.number == n && l.hash == h)
  {
    hide Has;
    var at: nat := |links|;
    while at > 0 && Before(l, links[at - 1])
      invariant at <= |links| && forall j | at <= j < |links| :: Before(l, links[j])
    {
      at := at - 1;
    }
    if at > 0 && links[at - 1].number == l.number && links[at - 1].hash == l.hash {
      HasAt(links, at - 1);
      return links;
    }
    out := links[..at] + [l] + links[at..];
    Placed(links, l, at);
  }

  lemma HasAt(links: seq<Link>, k: nat)
    requires k < |links|
    ensures Has(links, links[k].number, links[k].hash)
  {
  }

  method SortLinks(seen: seq<Link>) returns (links: seq<Link>)
    ensures Tidy(links) && SameBlocks(seen, links)
  {
    hide Has;
    links := [];
    for i := 0 to |seen|
      invariant Tidy(links) && SameBlocks(seen[..i], links)
    {
      assert seen[..i + 1] == seen[..i] + [seen[i]];
      links := Place(links, seen[i]);
    }
    assert seen[..|seen|] == seen;
  }

  method FindReversed(links: seq<Link>) returns (reversed: set<nat>)
    ensures reversed == Reversed(links)
  {
    reversed := {};
    for i := 0 to |links|
      invariant reversed == set k | 0 <= k < i && links[k].isReversal :: links[k].reverses
    {
      if links[i].isReversal { reversed := reversed + {links[i].reverses}; }
    }
  }

  method DigestOne(reversed: set<nat>, r: Run, o: Link) returns (out: Run)
    ensures out == Digested(reversed, r, o)
  {
    var h, peak, phantom, issues := r.h, r.peak, r.phantom, r.issues;
    var outstanding := -o.debtAfter;
    h := h.(seen := h.seen + 1, outstanding := outstanding);
    if o.isReversal {
      h := h.(reversed := h.reversed + o.units, reversals := h.reversals + 1);
      return Run(h, peak, phantom - o.units, issues);
    }
    if !o.isRedemption && o.hash in reversed {
      return Run(h, peak, phantom + o.units, issues);
    }
    if o.isRedemption {
      h := h.(redeemed := h.redeemed + o.units, lastRedemption := Later(h.lastRedemption, o.timestamp));
    } else {
      h := h.(issued := h.issued + o.units, lastIssue := Later(h.lastIssue, o.timestamp));
      issues := issues + 1;
    }
    var debt := outstanding - phantom;
    peak := Larger(peak, debt);
    h := h.(maxRepaid := Larger(h.maxRepaid, peak - debt), maxDebt := Larger(h.maxDebt, debt));
    out := Run(h, peak, phantom, issues);
  }

  // The links in order, each block once.
  ghost predicate Sorts(seen: seq<Link>, links: seq<Link>) {
    Tidy(links) && SameBlocks(seen, links)
  }

  // One pass over the sorted links; a number met again is a fork, and its later blocks are not
  // digested.
  method CreditHistory(seen: seq<Link>) returns (h: History)
    ensures exists links :: Sorts(seen, links) && h == HistoryOf(links) && Says(links, h)
  {
    hide Digested, Reversed, Closed, Says;
    var sorted := SortLinks(seen);
    assert Sorts(seen, sorted);
    HistorySays(sorted);
    if sorted == [] { return BLANK; }
    var reversed := FindReversed(sorted);
    var run, prev := START, 0;
    for i := 0 to |sorted|
      invariant run == DigestedAll(reversed, sorted, i)
      invariant i > 0 ==> prev == sorted[i - 1].number
    {
      var o := sorted[i];
      if i > 0 && o.number == prev {
        run := run.(h := Fork(run.h, o.number));
        continue;
      }
      prev := o.number;
      run := DigestOne(reversed, run, o);
    }
    h := Closed(run, prev + 1);
  }

  // ---------- A refused offer leaves no trace ----------

  // No fork and no gap: the links are numbered from zero.
  predicate Numbered(links: seq<Link>) {
    forall i | 0 <= i < |links| :: links[i].number == i
  }

  function Renumbered(links: seq<Link>): seq<Link> {
    seq(|links|, i requires 0 <= i < |links| => links[i].(number := i))
  }

  // While the offer stands, every declared debt carries it.
  function Carrying(links: seq<Link>, units: real): seq<Link> {
    seq(|links|, i requires 0 <= i < |links| => links[i].(debtAfter := links[i].debtAfter - units))
  }

  function DebtBefore(links: seq<Link>, q: nat): real
    requires q <= |links|
  {
    if q == 0 then 0.0 else links[q - 1].debtAfter
  }

  // A thread with a self-issue put in at p and, later, its reversal.
  function WithRefused(links: seq<Link>, p: nat, q: nat, offer: Link, reversal: Link): seq<Link>
    requires p <= q <= |links|
  {
    Renumbered(links[..p] + [offer] + Carrying(links[p..q], offer.units) + [reversal] + links[q..])
  }

  ghost predicate RefusedOffer(links: seq<Link>, q: nat, offer: Link, reversal: Link)
    requires q <= |links|
  {
    && !offer.isReversal && !offer.isRedemption
    && reversal.isReversal && reversal.reverses == offer.hash && reversal.units == offer.units
    && reversal.debtAfter == DebtBefore(links, q)
    && forall i | 0 <= i < |links| :: links[i].hash != offer.hash
  }

  // What two runs have in common when one carries a refused offer of these units.
  predicate Alike(a: Run, b: Run, units: real) {
    && b.h.issued == a.h.issued && b.h.redeemed == a.h.redeemed
    && b.h.maxDebt == a.h.maxDebt && b.h.maxRepaid == a.h.maxRepaid
    && b.h.lastIssue == a.h.lastIssue && b.h.lastRedemption == a.h.lastRedemption && b.h.forked == a.h.forked
    && b.peak == a.peak && b.issues == a.issues && b.phantom == a.phantom + units
  }

  lemma StepAlike(ra: set<nat>, rb: set<nat>, a: Run, b: Run, o: Link, o': Link, units: real)
    requires Alike(a, b, units) && (o.hash in ra <==> o.hash in rb)
    requires o' == o.(number := o'.number, debtAfter := o.debtAfter - units)
    ensures Alike(Digested(ra, a, o), Digested(rb, b, o'), units)
    ensures Digested(rb, b, o').h.outstanding == Digested(ra, a, o).h.outstanding + units
    ensures Digested(rb, b, o').h.reversed - b.h.reversed == Digested(ra, a, o).h.reversed - a.h.reversed
    ensures Digested(rb, b, o').h.reversals - b.h.reversals == Digested(ra, a, o).h.reversals - a.h.reversals
  {
  }

  lemma {:induction false} SeenAll(reversed: set<nat>, links: seq<Link>, n: nat)
    requires Numbered(links) && n <= |links|
    ensures DigestedAll(reversed, links, n).h.seen == n && DigestedAll(reversed, links, n).h.forked == []
    ensures n > 0 ==>
              DigestedAll(reversed, links, n) == Digested(reversed, DigestedAll(reversed, links, n - 1), links[n - 1])
    ensures n > 0 ==> DigestedAll(reversed, links, n).h.outstanding == -links[n - 1].debtAfter
  {
    if n > 0 {
      SeenAll(reversed, links, n - 1);
      assert n > 1 ==> links[n - 2].number != links[n - 1].number;
    }
  }

  // Where the n-th link of the plain thread stands in the other.
  function Moved(p: nat, q: nat, n: nat): nat {
    if n < p then n else if n < q then n + 1 else n + 2
  }

  lemma WhereTo(links: seq<Link>, p: nat, q: nat, offer: Link, reversal: Link)
    requires p <= q <= |links|
    ensures var t := WithRefused(links, p, q, offer, reversal);
            && |t| == |links| + 2 && Numbered(t)
            && t[p] == offer.(number := p) && t[q + 1] == reversal.(number := q + 1)
            && forall n: nat | n < |links| ::
                 t[Moved(p, q, n)] == links[n].(number := Moved(p, q, n),
                                                 debtAfter := links[n].debtAfter -
                                                              if p <= n < q then offer.units else 0.0)
  {
    var carrying := Carrying(links[p..q], offer.units);
    var raw := links[..p] + [offer] + carrying + [reversal] + links[q..];
    var t := WithRefused(links, p, q, offer, reversal);
    assert |carrying| == q - p && |raw| == |links| + 2 && t == Renumbered(raw);
    assert raw[p] == offer && raw[q + 1] == reversal;
    forall n: nat | n < |links|
      ensures raw[Moved(p, q, n)] ==
              links[n].(debtAfter := links[n].debtAfter - if p <= n < q then offer.units else 0.0)
    {
      if n < p {
        assert raw[n] == links[n];
      } else if n < q {
        assert raw[n + 1] == carrying[n - p] && links[p..q][n - p] == links[n];
      } else {
        assert raw[n + 2] == links[q..][n - q];
      }
    }
    hide WithRefused, Carrying;
  }

  lemma ReversedOneMore(links: seq<Link>, p: nat, q: nat, offer: Link, reversal: Link)
    requires p <= q <= |links| && RefusedOffer(links, q, offer, reversal)
    ensures Reversed(WithRefused(links, p, q, offer, reversal)) == Reversed(links) + {offer.hash}
  {
    var t := WithRefused(links, p, q, offer, reversal);
    WhereTo(links, p, q, offer, reversal);
    forall n: nat | n < |links| && links[n].isReversal ensures links[n].reverses in Reversed(t) {
      assert t[Moved(p, q, n)].isReversal;
    }
    assert t[q + 1].isReversal;
    forall i: nat | i < |t| && t[i].isReversal ensures t[i].reverses in Reversed(links) + {offer.hash} {
      var n := if i < p then i else if i <= q then i - 1 else i - 2;
      if i != p && i != q + 1 { assert Moved(p, q, n) == i; }
    }
  }

  // Both runs after n links of the plain thread; the other is `at` links on, has the offer open
  // or not, and its reversal behind it or not.
  ghost predicate Level(links: seq<Link>, t: seq<Link>, n: nat, at: nat, open: bool, closed: bool, units: real) {
    n <= |links| && at <= |t| &&
    var a, b := DigestedAll(Reversed(links), links, n), DigestedAll(Reversed(t), t, at);
    && Alike(a, b, if open then units else 0.0)
    && b.h.reversed == a.h.reversed + (if closed then units else 0.0)
    && b.h.reversals == a.h.reversals + (if closed then 1 else 0)
  }

  lemma OfferStep(links: seq<Link>, t: seq<Link>, n: nat, at: nat, offer: Link)
    requires Numbered(t) && at < |t| && t[at] == offer.(number := at) && !offer.isReversal && !offer.isRedemption
    requires offer.hash in Reversed(t) && Level(links, t, n, at, false, false, offer.units)
    ensures Level(links, t, n, at + 1, true, false, offer.units)
  {
    SeenAll(Reversed(t), t, at + 1);
    hide DigestedAll, Reversed;
  }

  lemma ReversalStep(links: seq<Link>, t: seq<Link>, n: nat, at: nat, reversal: Link, units: real)
    requires Numbered(t) && at < |t| && t[at] == reversal.(number := at) && reversal.isReversal &&
             reversal.units == units
    requires Level(links, t, n, at, true, false, units)
    ensures Level(links, t, n, at + 1, false, true, units)
  {
    SeenAll(Reversed(t), t, at + 1);
    hide DigestedAll, Reversed;
  }

  lemma PlainStep(links: seq<Link>, t: seq<Link>, n: nat, at: nat, open: bool, closed: bool, units: real, hash: nat)
    requires Numbered(links) && Numbered(t) && n < |links| && at < |t| && Level(links, t, n, at, open, closed, units)
    requires Reversed(t) == Reversed(links) + {hash} && links[n].hash != hash
    requires t[at] == links[n].(number := at, debtAfter := links[n].debtAfter - if open then units else 0.0)
    ensures Level(links, t, n + 1, at + 1, open, closed, units)
  {
    SeenAll(Reversed(t), t, at + 1);
    SeenAll(Reversed(links), links, n + 1);
    var ra, rb := Reversed(links), Reversed(t);
    StepAlike(ra, rb, DigestedAll(ra, links, n), DigestedAll(rb, t, at), links[n], t[at], if open then units else 0.0);
    hide DigestedAll, Reversed, Digested;
  }

  // The offer and the reversal, when the n-th link is where they stand.
  lemma Specials(links: seq<Link>, p: nat, q: nat, offer: Link, reversal: Link, n: nat)
    requires Numbered(links) && p <= q <= |links| && RefusedOffer(links, q, offer, reversal) && n <= |links|
    requires var t := WithRefused(links, p, q, offer, reversal);
             Level(links, t, n, if n <= p then n else if n <= q then n + 1 else n + 2, p < n <= q, q < n, offer.units)
    ensures var t := WithRefused(links, p, q, offer, reversal);
            Level(links, t, n, if n < p then n else if n < q then n + 1 else n + 2, p <= n < q, q <= n, offer.units)
  {
    hide WithRefused, Reversed, Level;
    var t := WithRefused(links, p, q, offer, reversal);
    WhereTo(links, p, q, offer, reversal);
    ReversedOneMore(links, p, q, offer, reversal);
    if n == p { OfferStep(links, t, n, p, offer); }
    if n == q { ReversalStep(links, t, n, q + 1, reversal, offer.units); }
  }

  // The two runs side by side, past the first n links of the plain thread.
  lemma {:induction false} SideBySide(links: seq<Link>, p: nat, q: nat, offer: Link, reversal: Link, n: nat)
    requires Numbered(links) && p <= q <= |links| && RefusedOffer(links, q, offer, reversal) && n <= |links|
    ensures var t := WithRefused(links, p, q, offer, reversal);
            Level(links, t, n, if n < p then n else if n < q then n + 1 else n + 2, p <= n < q, q <= n, offer.units)
  {
    hide WithRefused, Reversed, Level;
    var t := WithRefused(links, p, q, offer, reversal);
    WhereTo(links, p, q, offer, reversal);
    ReversedOneMore(links, p, q, offer, reversal);
    if n == 0 {
      StartLevel(links, t, offer.units);
    } else {
      SideBySide(links, p, q, offer, reversal, n - 1);
      PlainStep(links, t, n - 1, Moved(p, q, n - 1), p <= n - 1 < q, q <= n - 1, offer.units, offer.hash);
    }
    Specials(links, p, q, offer, reversal, n);
  }

  lemma StartLevel(links: seq<Link>, t: seq<Link>, units: real)
    ensures Level(links, t, 0, 0, false, false, units)
  {
  }

  // In a thread without forks or gaps an offer taken back leaves the history as if it had
  // never been made, but for the count of what was taken back.
  lemma RefusedOfferLeavesNoTrace(links: seq<Link>, p: nat, q: nat, offer: Link, reversal: Link)
    requires Numbered(links) && p <= q <= |links| && RefusedOffer(links, q, offer, reversal)
    ensures var h, h' := HistoryOf(links), HistoryOf(WithRefused(links, p, q, offer, reversal));
            && h'.issued == h.issued && h'.redeemed == h.redeemed && h'.outstanding == h.outstanding
            && h'.maxDebt == h.maxDebt && h'.maxRepaid == h.maxRepaid
            && h'.growth == h.growth && h'.inconsistent == h.inconsistent
            && h'.lastIssue == h.lastIssue && h'.lastRedemption == h.lastRedemption
            && h'.forked == h.forked == [] && !h'.gaps && !h.gaps
            && h'.reversed == h.reversed + offer.units && h'.reversals == h.reversals + 1
            && h'.seen == h.seen + 2 && h'.expected == h.expected + 2
  {
    var n, t := |links|, WithRefused(links, p, q, offer, reversal);
    WhereTo(links, p, q, offer, reversal);
    SideBySide(links, p, q, offer, reversal, n);
    SeenAll(Reversed(links), links, n);
    SeenAll(Reversed(t), t, n + 2);
    LastDebt(links, p, q, offer, reversal);
    hide DigestedAll, Reversed, WithRefused;
  }

  lemma LastDebt(links: seq<Link>, p: nat, q: nat, offer: Link, reversal: Link)
    requires p <= q <= |links| && RefusedOffer(links, q, offer, reversal)
    ensures var t := WithRefused(links, p, q, offer, reversal);
            t != [] && t[|t| - 1].debtAfter == DebtBefore(links, |links|)
  {
    hide WithRefused;
    var n := |links|;
    WhereTo(links, p, q, offer, reversal);
    if q < n { assert Moved(p, q, n - 1) == n + 1; }
  }
}
