// The views that count paper (aggregator/footprint_view, aggregator/economy_view): who holds
// whose, and what each chain issued and redeemed, over the deals that moved hours.
module PaperViews {
  import opened Sums
  import opened Settlement
  import opened DealsTable
  import opened Conservation

  // What one portion of a payment does to holder H's stock of I's paper: born paper is
  // gained by the receiver, passed-on paper is given up by the payer too, and paper that
  // comes home dies.
  function Change(t: Transfer, I: ChainId, H: ChainId, o: Origin): real {
    var lost := if t.from == H && o.issuer != t.from then o.units else 0.0;
    var gained := if t.to == H && o.issuer != t.to then o.units else 0.0;
    if o.issuer == I then gained - lost else 0.0
  }

  ghost function ChangeSum(t: Transfer, I: ChainId, H: ChainId, os: seq<Origin>): real {
    Sum(os, o => Change(t, I, H, o))
  }

  ghost function ChangeOf(T: Table, moved: seq<bool>, I: ChainId, H: ChainId, c: int): real
    requires |moved| == T.deals <= |T.carriers|
  {
    if 0 <= c < T.deals && moved[c] then ChangeSum(T.carriers[c].t, I, H, T.carriers[c].t.origins) else 0.0
  }

  ghost function Balance(T: Table, moved: seq<bool>, I: ChainId, H: ChainId, n: nat): real
    requires |moved| == T.deals <= |T.carriers|
  {
    SumTo(n, c => ChangeOf(T, moved, I, H, c))
  }

  type Paper = map<(ChainId, ChainId), real>

  function Held(paper: Paper, I: ChainId, H: ChainId): real {
    if (I, H) in paper then paper[(I, H)] else 0.0
  }

  function Added(paper: Paper, I: ChainId, H: ChainId, units: real): Paper {
    paper[(I, H) := Held(paper, I, H) + units]
  }

  // The footprint view: paper[issuer][holder], over the deals that moved hours.
  method Footprint(T: Table, moved: seq<bool>) returns (paper: Paper)
    requires WellFormed(T) && |moved| == T.deals
    ensures forall I, H :: Held(paper, I, H) == Balance(T, moved, I, H, T.deals)
  {
    paper := map[];
    for c := 0 to T.deals
      invariant forall I, H :: Held(paper, I, H) == Balance(T, moved, I, H, c)
    {
      if moved[c] {
        assert WellFormedCarrier(T, c);
        paper := FootprintOfDeal(T.carriers[c].t, paper);
      }
    }
  }

  method FootprintOfDeal(t: Transfer, before: Paper) returns (paper: Paper)
    requires t.from != t.to
    ensures forall I, H :: Held(paper, I, H) == Held(before, I, H) + ChangeSum(t, I, H, t.origins)
  {
    paper := before;
    assert t.origins[..0] == [];
    for p := 0 to |t.origins|
      invariant forall I, H :: Held(paper, I, H) == Held(before, I, H) + ChangeSum(t, I, H, t.origins[..p])
    {
      var o := t.origins[p];
      ghost var sofar := paper;
      if o.issuer == t.to {
        paper := Added(paper, o.issuer, t.from, -o.units);
      } else {
        if o.issuer != t.from { paper := Added(paper, o.issuer, t.from, -o.units); }
        paper := Added(paper, o.issuer, t.to, o.units);
      }
      forall I, H ensures Held(paper, I, H) == Held(before, I, H) + ChangeSum(t, I, H, t.origins[..p + 1]) {
        assert Held(paper, I, H) == Held(sofar, I, H) + Change(t, I, H, o);
        assert t.origins[..p + 1] == t.origins[..p] + [o];
        SumSnoc(t.origins[..p], o, o => Change(t, I, H, o));
      }
    }
    assert t.origins[..|t.origins|] == t.origins;
  }

  // A holder's balance of somebody else's paper is what came minus what he passed on.
  lemma BalanceIsFlow(T: Table, V: Verdicts, moved: seq<bool>, H: ChainId, I: ChainId)
    requires WellFormed(T) && |moved| == T.deals && H != I
    requires forall c | 0 <= c < T.deals :: moved[c] == V.eff(c)
    ensures Balance(T, moved, I, H, T.deals) == Incoming(T, V, H, I) - Outgoing(T, V, H, I)
  {
    var ch := (c: int) => ChangeOf(T, moved, I, H, c);
    var took, brought := (c: int) => Took(T, V, H, I, c), (c: int) => Brought(T, V, H, I, c);
    forall c | 0 <= c < T.deals ensures brought(c) == ch(c) + took(c) {
      assert WellFormedCarrier(T, c);
      if moved[c] { ChangeOfDeal(T, c, H, I); }
    }
    SumToAdd(T.deals, ch, took, brought);
  }

  lemma ChangeOfDeal(T: Table, c: nat, H: ChainId, I: ChainId)
    requires WellFormed(T) && c < T.deals && H != I
    ensures var t := T.carriers[c].t;
            ChangeSum(t, I, H, t.origins) ==
            (if t.to == H then BillCredit(t, I) else 0.0) - (if t.from == H then BillCredit(t, I) else 0.0)
  {
    assert WellFormedCarrier(T, c);
    var t := T.carriers[c].t;
    var f := (o: Origin) => Change(t, I, H, o);
    var g := (o: Origin) => if o.issuer == I then o.units else 0.0;
    if t.to == H {
      SumEq(t.origins, f, g);
    } else if t.from == H {
      SumAdd(t.origins, f, g, o => 0.0);
      SumZero(t.origins, o => 0.0);
    } else {
      SumZero(t.origins, f);
    }
  }

  // No balance goes below zero — beyond one comparison's tolerance a bill.
  lemma BalancesNeverNegative(T: Table, V: Verdicts, moved: seq<bool>, H: ChainId, I: ChainId)
    requires Coherent(T, V) && |moved| == T.deals
    requires forall c | 0 <= c < T.deals :: moved[c] == V.eff(c)
    ensures Balance(T, moved, I, H, T.deals) >= -0.000000001 * (|BillsOf(T, H, I)| as real)
    ensures H == I ==> Balance(T, moved, I, H, T.deals) == 0.0
  {
    if H == I {
      forall c | 0 <= c < T.deals ensures ChangeOf(T, moved, I, I, c) == 0.0 {
        if moved[c] { SumZero(T.carriers[c].t.origins, o => Change(T.carriers[c].t, I, I, o)); }
      }
      SumToEq(T.deals, c => ChangeOf(T, moved, I, I, c), c => 0.0);
      SumToZero(T.deals);
    } else {
      BalanceIsFlow(T, V, moved, H, I);
      PaperIsConserved(T, V, H, I);
    }
  }

  // ---------- Issued and redeemed ----------

  ghost function IssuedBy(T: Table, moved: seq<bool>, I: ChainId, c: int): real
    requires |moved| == T.deals <= |T.carriers|
  {
    if 0 <= c < T.deals && moved[c] && T.carriers[c].t.from == I then BillCredit(T.carriers[c].t, I) else 0.0
  }

  ghost function RedeemedBy(T: Table, moved: seq<bool>, I: ChainId, c: int): real
    requires |moved| == T.deals <= |T.carriers|
  {
    if 0 <= c < T.deals && moved[c] && T.carriers[c].t.to == I then BillCredit(T.carriers[c].t, I) else 0.0
  }

  function Total(m: map<ChainId, real>, c: ChainId): real {
    if c in m then m[c] else 0.0
  }

  // The economy view's totals: paper each chain issued, and its paper that came home.
  method Economy(T: Table, moved: seq<bool>) returns (issued: map<ChainId, real>, redeemed: map<ChainId, real>)
    requires WellFormed(T) && |moved| == T.deals
    ensures forall I :: Total(issued, I) == SumTo(T.deals, c => IssuedBy(T, moved, I, c))
    ensures forall I :: Total(redeemed, I) == SumTo(T.deals, c => RedeemedBy(T, moved, I, c))
  {
    hide BillCredit;
    issued, redeemed := map[], map[];
    for c := 0 to T.deals
      invariant forall I :: Total(issued, I) == SumTo(c, c => IssuedBy(T, moved, I, c))
      invariant forall I :: Total(redeemed, I) == SumTo(c, c => RedeemedBy(T, moved, I, c))
    {
      if moved[c] {
        issued, redeemed := EconomyOfDeal(T.carriers[c].t, issued, redeemed);
      }
    }
  }

  method EconomyOfDeal(t: Transfer, issued0: map<ChainId, real>, redeemed0: map<ChainId, real>)
    returns (issued: map<ChainId, real>, redeemed: map<ChainId, real>)
    ensures forall I :: Total(issued, I) == Total(issued0, I) + if I == t.from then BillCredit(t, I) else 0.0
    ensures forall I :: Total(redeemed, I) == Total(redeemed0, I) + if I == t.to then BillCredit(t, I) else 0.0
  {
    issued, redeemed := issued0, redeemed0;
    ghost var own := (I: ChainId) => (o: Origin) => if o.issuer == I then o.units else 0.0;
    for p := 0 to |t.origins|
      invariant forall I ::
                  Total(issued, I) == Total(issued0, I) + if I == t.from then Sum(t.origins[..p], own(I)) else 0.0
      invariant forall I ::
                  Total(redeemed, I) == Total(redeemed0, I) + if I == t.to then Sum(t.origins[..p], own(I)) else 0.0
    {
      var o := t.origins[p];
      assert t.origins[..p + 1] == t.origins[..p] + [o];
      SumSnoc(t.origins[..p], o, own(t.from));
      SumSnoc(t.origins[..p], o, own(t.to));
      if o.issuer == t.from { issued := issued[t.from := Total(issued, t.from) + o.units]; }
      if o.issuer == t.to { redeemed := redeemed[t.to := Total(redeemed, t.to) + o.units]; }
    }
    assert t.origins[..|t.origins|] == t.origins;
    forall I ensures Sum(t.origins, own(I)) == BillCredit(t, I) {
      SumEq(t.origins, own(I), (o: Origin) => if o.issuer == I then o.units else 0.0);
    }
  }

  // Over all holders an issuer's paper in circulation is what he issued less what came home.
  lemma CirculationIsIssuedLessRedeemed(T: Table, moved: seq<bool>, I: ChainId, holders: seq<ChainId>)
    requires WellFormed(T) && |moved| == T.deals && Distinct(holders)
    requires forall c | 0 <= c < T.deals :: T.carriers[c].t.from in holders && T.carriers[c].t.to in holders
    ensures Sum(holders, H => Balance(T, moved, I, H, T.deals)) ==
            SumTo(T.deals, c => IssuedBy(T, moved, I, c)) - SumTo(T.deals, c => RedeemedBy(T, moved, I, c))
  {
    var n := T.deals;
    var row := (H: ChainId) => (c: int) => ChangeOf(T, moved, I, H, c);
    var col := (c: int) => (H: ChainId) => ChangeOf(T, moved, I, H, c);
    var rowSum := (H: ChainId) => Balance(T, moved, I, H, n);
    var colSum := (c: int) => Sum(holders, col(c));
    forall H | H in holders ensures rowSum(H) == SumTo(n, row(H)) {
      SumToEq(n, row(H), c => ChangeOf(T, moved, I, H, c));
    }
    Exchange(holders, n, row, col, rowSum, colSum);
    var issued, redeemed := (c: int) => IssuedBy(T, moved, I, c), (c: int) => RedeemedBy(T, moved, I, c);
    forall c | 0 <= c < n ensures issued(c) == colSum(c) + redeemed(c) {
      if moved[c] {
        DealOverHolders(T, c, I, holders);
        SumEq(holders, col(c), H => ChangeSum(T.carriers[c].t, I, H, T.carriers[c].t.origins));
      } else {
        SumZero(holders, col(c));
      }
    }
    SumToAdd(n, colSum, redeemed, issued);
    SumEq(holders, rowSum, H => Balance(T, moved, I, H, T.deals));
  }

  // One deal, over all holders: paper born less paper that died.
  lemma DealOverHolders(T: Table, c: nat, I: ChainId, holders: seq<ChainId>)
    requires WellFormed(T) && c < T.deals && Distinct(holders)
    requires T.carriers[c].t.from in holders && T.carriers[c].t.to in holders
    ensures var t := T.carriers[c].t;
            Sum(holders, H => ChangeSum(t, I, H, t.origins)) ==
            (if t.from == I then BillCredit(t, I) else 0.0) - (if t.to == I then BillCredit(t, I) else 0.0)
  {
    assert WellFormedCarrier(T, c);
    var t := T.carriers[c].t;
    var credit := BillCredit(t, I);
    var f := (H: ChainId) => ChangeSum(t, I, H, t.origins);
    var gain := (H: ChainId) => if H == t.to && H != I then credit else 0.0;
    var loss := (H: ChainId) => if H == t.from && H != I then credit else 0.0;
    forall j | 0 <= j < |holders| ensures gain(holders[j]) == f(holders[j]) + loss(holders[j]) {
      if holders[j] == I {
        SumZero(t.origins, o => Change(t, I, I, o));
      } else {
        ChangeOfDeal(T, c, holders[j], I);
      }
    }
    SumAdd(holders, f, loss, gain);
    SumPoint(holders, gain, t.to);
    SumPoint(holders, loss, t.from);
    SumEq(holders, f, H => ChangeSum(t, I, H, t.origins));
  }
}
