// Paper is conserved: what a holder passed on of somebody's paper, in deals that happened,
// came to him in deals that happened — whatever he moved between his own branches. Proved
// for every reading that obeys the rules of the table, not only for the recursive one.
module Conservation {
  import opened Sums
  import opened Settlement
  import opened DealsTable
  import opened Happened

  // ---------- Flows ----------

  // A deal happened, a move is backed: its paper moved.
  ghost predicate Moved(T: Table, V: Verdicts, c: int) {
    0 <= c < |T.carriers| && (if c < T.deals then V.eff(c) else V.back(c))
  }

  // Hours of `I`'s paper a carrier brought to holder H, and hours it took from him.
  ghost function Brought(T: Table, V: Verdicts, H: ChainId, I: ChainId, c: int): real {
    if Moved(T, V, c) && T.carriers[c].t.to == H then BillCredit(T.carriers[c].t, I) else 0.0
  }

  ghost function Took(T: Table, V: Verdicts, H: ChainId, I: ChainId, c: int): real {
    if Moved(T, V, c) && T.carriers[c].author == H then BillCredit(T.carriers[c].t, I) else 0.0
  }

  ghost function Incoming(T: Table, V: Verdicts, H: ChainId, I: ChainId): real {
    SumTo(T.deals, c => Brought(T, V, H, I, c))
  }

  ghost function Outgoing(T: Table, V: Verdicts, H: ChainId, I: ChainId): real {
    SumTo(T.deals, c => Took(T, V, H, I, c))
  }

  // The bills of I's paper that H spends from.
  ghost function BillsOf(T: Table, H: ChainId, I: ChainId): set<BillKey> {
    set c, p | 0 <= c < |T.carriers| && 0 <= p < |T.carriers[c].t.origins| && IsPortion(T, Spend(c, p)) &&
               T.carriers[c].author == H && OriginOf(T, Spend(c, p)).issuer == I :: KeyOf(T, Spend(c, p))
  }

  // ---------- One bill ----------

  ghost function PortionIn(author: ChainId, k: BillKey, o: Origin): real {
    if o.src.Some? && BillKey(author, o.src.value, o.issuer) == k then o.units else 0.0
  }

  // What carrier c paid from bill k, if its paper moved.
  ghost function PaidFrom(T: Table, V: Verdicts, k: BillKey, c: int): real {
    if Moved(T, V, c) then Sum(T.carriers[c].t.origins, o => PortionIn(T.carriers[c].author, k, o)) else 0.0
  }

  ghost function PaidBySpend(T: Table, V: Verdicts, s: Spend): real {
    if IsPortion(T, s) && Moved(T, V, s.c) then OriginOf(T, s).units else 0.0
  }

  // A carrier whose paper moved holds every spend it makes.
  lemma MovedSpendIsHeld(T: Table, V: Verdicts, k: BillKey, i: nat)
    requires Coherent(T, V) && i < |V.list(k)| && Moved(T, V, V.list(k)[i].c)
    ensures V.fit(k, i) && SpendList(T, k, V.list(k))
    ensures var s := V.list(k)[i];
            V.hold(s.c) && (s.c < T.deals ==> T.carriers[s.c].answer == Accepted)
  {
    var s := V.list(k)[i];
    assert BillLaws(T, V, k) && KeyOf(T, s) == k && s == Spend(s.c, s.p);
    if s.c < T.deals { assert EffLaw(T, V, s.c); }
    assert BackLaw(T, V, s.c) && HoldLaw(T, V, s.c);
    assert PortionCovered(T, V, s);
  }

  lemma UnitsArePositive(T: Table, s: Spend)
    requires WellFormed(T) && IsPortion(T, s)
    ensures OriginOf(T, s).units > 0.0
  {
    assert WellFormedCarrier(T, s.c);
  }

  // Along the bill: what moved is consumed, and what is consumed is covered.
  lemma {:induction false} ConsumedBetween(T: Table, V: Verdicts, k: BillKey, i: nat)
    requires Coherent(T, V) && i <= |V.list(k)| && V.run(k, 0).st.credited >= 0.0
    ensures V.run(k, i).st.credited == V.run(k, 0).st.credited
    ensures Sum(V.list(k)[..i], s => PaidBySpend(T, V, s)) <= V.run(k, i).st.consumed
    ensures V.run(k, i).st.consumed <= V.run(k, 0).st.credited + TOLERANCE
  {
    hide SpendList, FrozenLaw, ListLaw, StandsLaw, SpendOf;
    assert BillLaws(T, V, k);
    if i == 0 {
      assert OpeningLaw(T, V, k);
    } else {
      ConsumedBetween(T, V, k, i - 1);
      ConsumedStep(T, V, k, i);
      var f := (s: Spend) => PaidBySpend(T, V, s);
      assert V.list(k)[..i] == V.list(k)[..i - 1] + [V.list(k)[i - 1]];
      SumSnoc(V.list(k)[..i - 1], V.list(k)[i - 1], f);
    }
  }

  lemma ConsumedStep(T: Table, V: Verdicts, k: BillKey, i: nat)
    requires Coherent(T, V) && 0 < i <= |V.list(k)|
    requires V.run(k, i - 1).st.consumed <= V.run(k, i - 1).st.credited + TOLERANCE
    ensures V.run(k, i).st.credited == V.run(k, i - 1).st.credited
    ensures V.run(k, i).st.consumed >= V.run(k, i - 1).st.consumed + PaidBySpend(T, V, V.list(k)[i - 1])
    ensures V.run(k, i).st.consumed <= V.run(k, i).st.credited + TOLERANCE
  {
    hide SpendList, FrozenLaw, StandsLaw, OpeningLaw;
    assert BillLaws(T, V, k) && RunLaw(T, V, k, i - 1);
    var s := V.list(k)[i - 1];
    assert s in V.list(k) && IsPortion(T, s);
    UnitsArePositive(T, s);
    if Moved(T, V, s.c) { MovedSpendIsHeld(T, V, k, i - 1); }
  }

  ghost function CreditOf(T: Table, V: Verdicts, k: BillKey): real {
    CreditIf(T, k, V.stands(k)).credited
  }

  lemma {:induction false} CreditIsPositive(T: Table, c: nat, I: ChainId)
    requires WellFormed(T) && c < |T.carriers|
    ensures BillCredit(T.carriers[c].t, I) >= 0.0
  {
    assert WellFormedCarrier(T, c);
    var os := T.carriers[c].t.origins;
    SumLe(os, o => 0.0, (o: Origin) => if o.issuer == I then o.units else 0.0, 0.0);
    SumZero(os, o => 0.0);
  }

  // A bill's spends that moved, summed carrier by carrier, fit what came into it.
  lemma BillIsCovered(T: Table, V: Verdicts, k: BillKey)
    requires Coherent(T, V)
    ensures SumTo(|T.carriers|, c => PaidFrom(T, V, k, c)) <= CreditOf(T, V, k) + TOLERANCE
  {
    assert BillLaws(T, V, k);
    if Find(T, k.src).Some? { CreditIsPositive(T, Find(T, k.src).value, k.issuer); }
    var list := V.list(k);
    ConsumedBetween(T, V, k, |list|);
    assert list[..|list|] == list;
    PaidByList(T, V, k);
  }

  // The list of a bill, summed spend by spend and carrier by carrier.
  lemma PaidByList(T: Table, V: Verdicts, k: BillKey)
    requires WellFormed(T) && ListLaw(T, V, k)
    ensures Sum(V.list(k), s => PaidBySpend(T, V, s)) == SumTo(|T.carriers|, c => PaidFrom(T, V, k, c))
  {
    var list, n := V.list(k), |T.carriers|;
    var w := (s: Spend) => PaidBySpend(T, V, s);
    var row := (s: Spend) => (c: int) => if s.c == c then w(s) else 0.0;
    var col := (c: int) => (s: Spend) => if s.c == c then w(s) else 0.0;
    forall s | s in list ensures w(s) == SumTo(n, row(s)) {
      SumToPoint(n, row(s), s.c);
    }
    var paid := (c: int) => PaidFrom(T, V, k, c);
    forall c | 0 <= c < n ensures paid(c) == Sum(list, col(c)) {
      PaidByCarrier(T, V, k, c);
      SumEq(list, col(c), (s: Spend) => if s.c == c then PaidBySpend(T, V, s) else 0.0);
    }
    Exchange(list, n, row, col, w, paid);
    SumEq(list, w, s => PaidBySpend(T, V, s));
    SumToEq(n, paid, c => PaidFrom(T, V, k, c));
  }

  // A carrier stands on a bill's list at most once, with its one portion of that bill.
  lemma PaidByCarrier(T: Table, V: Verdicts, k: BillKey, c: nat)
    requires WellFormed(T) && ListLaw(T, V, k) && c < |T.carriers|
    ensures Sum(V.list(k), (s: Spend) => if s.c == c then PaidBySpend(T, V, s) else 0.0) == PaidFrom(T, V, k, c)
  {
    var list, os, author := V.list(k), T.carriers[c].t.origins, T.carriers[c].author;
    var g := (s: Spend) => if s.c == c then PaidBySpend(T, V, s) else 0.0;
    var h := (o: Origin) => PortionIn(author, k, o);
    if p: nat :| p < |os| && IsPortion(T, Spend(c, p)) && KeyOf(T, Spend(c, p)) == k {
      var s := Spend(c, p);
      ListIsDistinct(T, k, list);
      forall j | 0 <= j < |list| && list[j] != s ensures g(list[j]) == 0.0 {
        if list[j].c == c { OnePortion(T, list[j], s); }
      }
      SumPoint(list, g, s);
      forall q | 0 <= q < |os| && q != p ensures h(os[q]) == 0.0 {
        if h(os[q]) != 0.0 { OnePortion(T, Spend(c, q), s); }
      }
      SumAtIndex(os, h, p);
    } else {
      forall j | 0 <= j < |list| ensures g(list[j]) == 0.0 {
        assert list[j] in list && list[j] == Spend(list[j].c, list[j].p);
      }
      SumZero(list, g);
      forall q | 0 <= q < |os| ensures h(os[q]) == 0.0 {
        assert IsPortion(T, Spend(c, q)) ==> KeyOf(T, Spend(c, q)) != k;
      }
      SumZero(os, h);
    }
  }

  lemma ListIsDistinct(T: Table, k: BillKey, list: seq<Spend>)
    requires SpendList(T, k, list)
    ensures Distinct(list)
  {
    forall i, j | 0 <= i < j < |list| ensures list[i] != list[j] { assert Precedes(T, list[i], list[j]); }
  }

  // ---------- All bills of one paper in one hand ----------

  // A carrier's hours of I's paper, split by the bills they come from.
  lemma {:induction false} SplitByBill(os: seq<Origin>, author: ChainId, I: ChainId, K: seq<BillKey>)
    requires Distinct(K) && author != I
    requires forall o | o in os && o.issuer == I :: o.src.Some? && BillKey(author, o.src.value, I) in K
    requires forall k | k in K :: k.issuer == I
    ensures Sum(os, (o: Origin) => if o.issuer == I then o.units else 0.0) ==
            Sum(K, k => Sum(os, o => PortionIn(author, k, o)))
  {
    var f := (o: Origin) => if o.issuer == I then o.units else 0.0;
    var g := (k: BillKey) => Sum(os, o => PortionIn(author, k, o));
    if os == [] {
      SumZero(K, g);
    } else {
      var t, o := os[..|os| - 1], os[|os| - 1];
      SplitByBill(t, author, I, K);
      var g' := (k: BillKey) => Sum(t, o => PortionIn(author, k, o));
      var h := (k: BillKey) => PortionIn(author, k, o);
      if o.issuer == I {
        assert o in os;
        SumPoint(K, h, BillKey(author, o.src.value, I));
      } else {
        SumZero(K, h);
      }
      SumAdd(K, g', h, g);
    }
  }

  ghost predicate ListsBills(T: Table, H: ChainId, I: ChainId, K: seq<BillKey>) {
    Distinct(K) && forall k :: k in K <==> k in BillsOf(T, H, I)
  }

  lemma TookFromBills(T: Table, V: Verdicts, H: ChainId, I: ChainId, K: seq<BillKey>)
    requires Coherent(T, V) && H != I && ListsBills(T, H, I, K)
    ensures SumTo(|T.carriers|, c => Took(T, V, H, I, c)) ==
            Sum(K, k => SumTo(|T.carriers|, c => PaidFrom(T, V, k, c)))
  {
    var n := |T.carriers|;
    var row := (k: BillKey) => (c: int) => PaidFrom(T, V, k, c);
    var col := (c: int) => (k: BillKey) => PaidFrom(T, V, k, c);
    var rowSum := (k: BillKey) => SumTo(n, c => PaidFrom(T, V, k, c));
    var took := (c: int) => Took(T, V, H, I, c);
    forall k | k in K ensures rowSum(k) == SumTo(n, row(k)) {
      SumToEq(n, row(k), c => PaidFrom(T, V, k, c));
    }
    forall c | 0 <= c < n ensures took(c) == Sum(K, col(c)) {
      TookByCarrier(T, V, H, I, K, c);
      SumEq(K, col(c), k => PaidFrom(T, V, k, c));
    }
    Exchange(K, n, row, col, rowSum, took);
    SumEq(K, rowSum, k => SumTo(|T.carriers|, c => PaidFrom(T, V, k, c)));
    SumToEq(n, took, c => Took(T, V, H, I, c));
  }

  lemma TookByCarrier(T: Table, V: Verdicts, H: ChainId, I: ChainId, K: seq<BillKey>, c: nat)
    requires Coherent(T, V) && H != I && ListsBills(T, H, I, K) && c < |T.carriers|
    ensures Took(T, V, H, I, c) == Sum(K, k => PaidFrom(T, V, k, c))
  {
    var os, author := T.carriers[c].t.origins, T.carriers[c].author;
    var g := (k: BillKey) => PaidFrom(T, V, k, c);
    if Moved(T, V, c) && author == H {
      assert WellFormedCarrier(T, c);
      forall o | o in os && o.issuer == I ensures o.src.Some? && BillKey(author, o.src.value, I) in K {
        var p: nat :| p < |os| && os[p] == o;
        assert IsPortion(T, Spend(c, p)) && KeyOf(T, Spend(c, p)) in BillsOf(T, H, I);
      }
      SplitByBill(os, author, I, K);
      SumEq(K, g, k => Sum(os, o => PortionIn(author, k, o)));
    } else {
      forall j | 0 <= j < |K| ensures g(K[j]) == 0.0 {
        assert K[j] in K && K[j].holder == H;
        if Moved(T, V, c) { SumZero(os, o => PortionIn(author, K[j], o)); }
      }
      SumZero(K, g);
    }
  }

  // What the bills opened with came in by distinct blocks.
  lemma CreditsFromBlocks(T: Table, V: Verdicts, H: ChainId, I: ChainId, K: seq<BillKey>)
    requires Coherent(T, V) && ListsBills(T, H, I, K)
    ensures Sum(K, k => CreditOf(T, V, k)) <= SumTo(|T.carriers|, c => Brought(T, V, H, I, c))
  {
    var n := |T.carriers|;
    var refs := (c: int) => if 0 <= c < n then Ref(T.carriers[c].author, T.carriers[c].hash) else Ref(0, 0);
    var row := (k: BillKey) => (c: int) => if k.src == refs(c) then Brought(T, V, H, I, c) else 0.0;
    var col := (c: int) => (k: BillKey) => if k.src == refs(c) then Brought(T, V, H, I, c) else 0.0;
    var credit := (k: BillKey) => CreditOf(T, V, k);
    var colSum := (c: int) => Sum(K, col(c));
    forall k | k in K ensures credit(k) == SumTo(n, row(k)) {
      CreditFromBlock(T, V, H, I, k, row(k));
    }
    Exchange(K, n, row, col, credit, colSum);
    forall c | 0 <= c < n ensures colSum(c) <= Brought(T, V, H, I, c) {
      CreditIsPositive(T, c, I);
      forall j | 0 <= j < |K| ensures K[j].holder == H && K[j].issuer == I { assert K[j] in K; }
      SumPoint(K, col(c), BillKey(H, refs(c), I));
    }
    SumToLe(n, colSum, c => Brought(T, V, H, I, c));
    SumEq(K, credit, k => CreditOf(T, V, k));
  }

  lemma CreditFromBlock(T: Table, V: Verdicts, H: ChainId, I: ChainId, k: BillKey, f: int -> real)
    requires Coherent(T, V) && k.holder == H && k.issuer == I
    requires forall c | 0 <= c < |T.carriers| ::
               f(c) == if k.src == Ref(T.carriers[c].author, T.carriers[c].hash) then Brought(T, V, H, I, c) else 0.0
    ensures CreditOf(T, V, k) == SumTo(|T.carriers|, f)
  {
    hide ListLaw, FrozenLaw, RunLaw, OpeningLaw;
    assert BillLaws(T, V, k);
    var n := |T.carriers|;
    match Find(T, k.src)
    case None =>
      SumToPoint(n, f, n);
    case Some(s) =>
      SumToPoint(n, f, s);
  }

  // ---------- The theorem ----------

  lemma {:induction false} MovesCancel(T: Table, V: Verdicts, H: ChainId, I: ChainId, n: nat)
    requires WellFormed(T) && T.deals <= n <= |T.carriers|
    ensures SumTo(n, c => Took(T, V, H, I, c)) - Outgoing(T, V, H, I) ==
            SumTo(n, c => Brought(T, V, H, I, c)) - Incoming(T, V, H, I)
  {
    var took, brought := (c: int) => Took(T, V, H, I, c), (c: int) => Brought(T, V, H, I, c);
    if n > T.deals {
      MovesCancel(T, V, H, I, n - 1);
      assert WellFormedCarrier(T, n - 1);
      assert SumTo(n, took) == SumTo(n - 1, took) + took(n - 1);
      assert SumTo(n, brought) == SumTo(n - 1, brought) + brought(n - 1);
    }
  }

  // Nobody passes on more of somebody's paper than came to him — up to one comparison's
  // tolerance for each bill he spends from.
  lemma PaperIsConserved(T: Table, V: Verdicts, H: ChainId, I: ChainId)
    requires Coherent(T, V) && H != I
    ensures Outgoing(T, V, H, I) <= Incoming(T, V, H, I) + 0.000000001 * (|BillsOf(T, H, I)| as real)
  {
    var n := |T.carriers|;
    var K := SetAsSeq(BillsOf(T, H, I));
    TookFromBills(T, V, H, I, K);
    CreditsFromBlocks(T, V, H, I, K);
    forall j | 0 <= j < |K| ensures SumTo(n, c => PaidFrom(T, V, K[j], c)) <= CreditOf(T, V, K[j]) + TOLERANCE {
      BillIsCovered(T, V, K[j]);
    }
    SumLe(K, k => SumTo(n, c => PaidFrom(T, V, k, c)), k => CreditOf(T, V, k), TOLERANCE);
    MovesCancel(T, V, H, I, n);
  }

  // In particular in the recursive reading of every table whose references name earlier blocks.
  lemma TruthConserves(T: Table, H: ChainId, I: ChainId)
    requires Stratified(T) && H != I
    ensures Outgoing(T, Truth(T), H, I) <= Incoming(T, Truth(T), H, I) + 0.000000001 * (|BillsOf(T, H, I)| as real)
  {
    TruthIsCoherent(T);
    PaperIsConserved(T, Truth(T), H, I);
  }
}
