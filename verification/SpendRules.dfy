// The rules of the table in closed form: which deals happened and whose paper is not backed,
// each said of the other, with every term of a deal and every date written out. No run of a
// bill, no verdict of its judge and no fault appears here; what the table's recursion and the
// walk over it come to is shown to obey these rules.
module SpendRules {
  import opened Options
  import opened Sums
  import opened Settlement
  import opened DealsTable

  // What came out: the deals that happened, the carriers whose paper is not backed.
  datatype Outcome = Outcome(happened: set<Hash>, unbacked: set<Hash>)

  ghost function OutcomeOf(T: Table, V: Verdicts): Outcome
    requires T.deals <= |T.carriers|
  {
    Outcome(set c | 0 <= c < T.deals && V.eff(c) :: T.carriers[c].hash,
            set c | 0 <= c < |T.carriers| && !V.back(c) :: T.carriers[c].hash)
  }

  // A deal completes something: its own terms hold, and the purchase it stands on happened.
  ghost predicate Completes(T: Table, O: Outcome, c: nat)
    requires WellFormed(T) && c < |T.carriers|
  {
    var x := T.carriers[c];
    x.terms && (x.standsOn.Some? ==> x.standsOn.value < |T.carriers| && T.carriers[x.standsOn.value].hash in O.happened)
  }

  // Its place on the list of a bill: the carrier of the i-th spend.
  ghost function At(T: Table, list: seq<Spend>, i: nat): Carrier
    requires i < |list| && list[i].c < |T.carriers|
  {
    T.carriers[list[i].c]
  }

  ghost predicate OfTable(T: Table, list: seq<Spend>) {
    forall i | 0 <= i < |list| :: IsPortion(T, list[i])
  }

  // The hours a bill opens with: its issuer's portions of a source that stands and paid the holder.
  ghost function Brought(T: Table, O: Outcome, k: BillKey): real {
    match Find(T, k.src)
    case None => 0.0
    case Some(s) =>
      var x := T.carriers[s];
      if x.t.to == k.holder && (if s < T.deals then x.hash in O.happened else x.hash !in O.unbacked)
      then Sum(x.t.origins, (o: Origin) => if o.issuer == k.issuer then o.units else 0.0)
      else 0.0
  }

  // The i-th spend keeps its hours: a backed move; a backed deal that completes something and was
  // accepted, or has no answer and was not past its term when the holder spent the bill again.
  ghost predicate Keeps(T: Table, O: Outcome, list: seq<Spend>, i: nat)
    requires WellFormed(T) && OfTable(T, list) && i < |list|
  {
    var x := At(T, list, i);
    && x.hash !in O.unbacked
    && (list[i].c < T.deals ==>
          && Completes(T, O, list[i].c)
          && (x.answer == Accepted ||
              (x.answer == NoAnswer &&
               (i + 1 < |list| ==> At(T, list, i + 1).t.timestamp <= if x.t.until.Some? then x.t.until.value else 0))))
  }

  // The hours the first n spends keep.
  ghost function Kept(T: Table, O: Outcome, list: seq<Spend>, n: nat): real
    requires WellFormed(T) && OfTable(T, list) && n <= |list|
  {
    if n == 0 then 0.0
    else Kept(T, O, list, n - 1) + if Keeps(T, O, list, n - 1) then OriginOf(T, list[n - 1]).units else 0.0
  }

  // Until its term a deposit may be touched by the buyback only, or once a buyback of it happened.
  ghost predicate TouchesDeposit(T: Table, O: Outcome, k: BillKey, list: seq<Spend>, i: nat)
    requires WellFormed(T) && OfTable(T, list) && i < |list|
  {
    var h := Find(T, k.src);
    && h.Some? && h.value < T.deals
    && T.carriers[h.value].t.to == k.holder
    && T.carriers[h.value].t.buyback.Some? && T.carriers[h.value].t.buyback.value.deposit
    && At(T, list, i).t.timestamp <= T.carriers[h.value].t.buyback.value.until
    && (list[i].c < T.deals ==> At(T, list, i).buybackOf != h)
    && forall j: nat | j < i && list[j].c < T.deals && At(T, list, j).buybackOf == h ::
         At(T, list, j).hash !in O.happened
  }

  // The i-th spend leaves the purse the paper came into, after the deal that brought it was
  // accepted, names the spend before it, touches no frozen deposit, and takes no more than is left.
  ghost predicate GoesThrough(T: Table, O: Outcome, k: BillKey, list: seq<Spend>, i: nat)
    requires WellFormed(T) && OfTable(T, list) && i < |list|
  {
    var x, h := At(T, list, i), Find(T, k.src);
    && x.node == (if h.Some? then T.carriers[h.value].t.toNode else 0)
    && (h.Some? && h.value < T.deals ==>
          var d := T.carriers[h.value];
          d.t.to == k.holder && d.hash in O.happened && d.arrived.Some? ==> x.index > d.arrived.value)
    && OriginOf(T, list[i]).prev == (if i == 0 then None else Some(Ref(k.holder, At(T, list, i - 1).hash)))
    && !TouchesDeposit(T, O, k, list, i)
    && OriginOf(T, list[i]).units <= Brought(T, O, k) - Kept(T, O, list, i) + 0.000000001
  }

  // ---------- The verdicts obey them ----------

  lemma OutcomeSays(T: Table, V: Verdicts, c: nat)
    requires WellFormed(T) && c < |T.carriers|
    ensures T.carriers[c].hash in OutcomeOf(T, V).unbacked <==> !V.back(c)
    ensures c < T.deals ==> (T.carriers[c].hash in OutcomeOf(T, V).happened <==> V.eff(c))
  {
    hide WellFormedCarrier;
  }

  lemma CompletesIsAddressed(T: Table, V: Verdicts, c: nat)
    requires Coherent(T, V) && c < T.deals
    ensures Completes(T, OutcomeOf(T, V), c) == V.addr(c)
    ensures V.eff(c) == (V.addr(c) && T.carriers[c].answer == Accepted && V.back(c))
  {
    hide BillLaws, OutcomeOf, BackLaw, HoldLaw;
    assert AddrLaw(T, V, c) && EffLaw(T, V, c) && WellFormedCarrier(T, c);
    if T.carriers[c].standsOn.Some? { OutcomeSays(T, V, T.carriers[c].standsOn.value); }
  }

  lemma ListOfTable(T: Table, V: Verdicts, k: BillKey)
    requires Coherent(T, V)
    ensures SpendList(T, k, V.list(k)) && OfTable(T, V.list(k))
    ensures forall i | 0 <= i < |V.list(k)| :: T.carriers[V.list(k)[i].c].author == k.holder &&
              OriginOf(T, V.list(k)[i]).src == Some(k.src)
  {
    ListIsOfBill(T, V, k);
    hide Coherent, Precedes;
  }

  // The spends as they ended.
  ghost function Ended(T: Table, V: Verdicts, k: BillKey): seq<BillSpend>
    requires Coherent(T, V)
  {
    ListIsOfBill(T, V, k);
    FinalSpends(T, V, k, |V.list(k)|)
  }

  lemma EndedAt(T: Table, V: Verdicts, k: BillKey, i: nat)
    requires Coherent(T, V) && i < |V.list(k)|
    ensures |Ended(T, V, k)| == |V.list(k)| && IsPortion(T, V.list(k)[i])
    ensures Ended(T, V, k)[i] == SpendOf(T, V.list(k)[i], V.hold(V.list(k)[i].c), V.frozen(k, i))
  {
    ListOfTable(T, V, k);
    hide Coherent, SpendOf;
  }

  lemma KeepsIsNotDead(T: Table, V: Verdicts, k: BillKey, i: nat)
    requires Coherent(T, V) && i < |V.list(k)| && OfTable(T, V.list(k)) && |Ended(T, V, k)| == |V.list(k)|
    ensures HeldUnits(Ended(T, V, k)[i], NextTimestamp(Ended(T, V, k), i)) ==
            if Keeps(T, OutcomeOf(T, V), V.list(k), i) then OriginOf(T, V.list(k)[i]).units else 0.0
  {
    assert HoldLaw(T, V, V.list(k)[i].c);
    var c := V.list(k)[i].c;
    if c < T.deals { CompletesIsAddressed(T, V, c); }
    hide Coherent, OutcomeOf, Completes, WellFormed, Ended, OfTable;
    EndedAt(T, V, k, i);
    if i + 1 < |V.list(k)| { EndedAt(T, V, k, i + 1); }
    assert IsPortion(T, V.list(k)[i]) && WellFormed(T);
    OutcomeSays(T, V, c);
  }

  lemma KeptIsHeld(T: Table, V: Verdicts, k: BillKey, n: nat)
    requires Coherent(T, V) && n <= |V.list(k)| && OfTable(T, V.list(k)) && |Ended(T, V, k)| == |V.list(k)|
    ensures HeldBefore(Ended(T, V, k), n) == Kept(T, OutcomeOf(T, V), V.list(k), n)
  {
    assert WellFormed(T);
    hide *;
    var all, list, O := Ended(T, V, k), V.list(k), OutcomeOf(T, V);
    forall i: nat | i < |list|
      ensures IsPortion(T, list[i]) && HeldUnits(all[i], NextTimestamp(all, i)) ==
              if Keeps(T, O, list, i) then OriginOf(T, list[i]).units else 0.0
    {
      ListOfTable(T, V, k);
      EndedAt(T, V, k, i);
      KeepsIsNotDead(T, V, k, i);
    }
    SameHours(T, O, list, all, n);
  }

  lemma {:induction false} SameHours(T: Table, O: Outcome, list: seq<Spend>, all: seq<BillSpend>, n: nat)
    requires WellFormed(T) && OfTable(T, list) && n <= |list| == |all|
    requires forall i: nat | i < |list| ::
               IsPortion(T, list[i]) && HeldUnits(all[i], NextTimestamp(all, i)) ==
               if Keeps(T, O, list, i) then OriginOf(T, list[i]).units else 0.0
    ensures HeldBefore(all, n) == Kept(T, O, list, n)
  {
    hide WellFormed, Keeps, HeldUnits, OfTable, NextTimestamp;
    if n > 0 { SameHours(T, O, list, all, n - 1); }
  }

  lemma BillOf(T: Table, V: Verdicts, k: BillKey)
    requires Coherent(T, V)
    ensures StandsLaw(T, V, k)
    ensures var c := CreditIf(T, k, V.stands(k)); V.run(k, 0) == NewRun(k.holder, c.purse, c.credited, c.arrived)
    ensures forall i | 0 <= i < |V.list(k)| :: SpendList(T, k, V.list(k)) && FrozenLaw(T, V, k, i) && RunLaw(T, V, k, i)
  {
    hide RunLaw, FrozenLaw, SpendList, StandsLaw, ListLaw;
    assert BillLaws(T, V, k);
    ListIsOfBill(T, V, k);
  }

  // The terms a bill opens on.
  lemma OpensOn(T: Table, V: Verdicts, k: BillKey)
    requires Coherent(T, V)
    ensures var r, h, O := V.run(k, 0), Find(T, k.src), OutcomeOf(T, V);
            && r.holder == k.holder && r.st.credited == Brought(T, O, k)
            && r == NewRun(k.holder, r.purse, r.st.credited, r.arrived)
            && r.purse == (if h.Some? then T.carriers[h.value].t.toNode else 0)
            && r.arrived == if h.Some? && h.value < T.deals && T.carriers[h.value].t.to == k.holder &&
                               T.carriers[h.value].hash in O.happened
                            then T.carriers[h.value].arrived else None
  {
    BillOf(T, V, k);
    assert WellFormed(T);
    hide Coherent, OutcomeOf, RunLaw, FrozenLaw, SpendList, WellFormed;
    match Find(T, k.src)
    case None =>
    case Some(s) =>
      OutcomeSays(T, V, s);
      var f := (o: Origin) => if o.issuer == k.issuer then o.units else 0.0;
      SumEq(T.carriers[s].t.origins, f, (o: Origin) => if o.issuer == k.issuer then o.units else 0.0);
  }

  lemma FrozenIsTouching(T: Table, V: Verdicts, k: BillKey, i: nat)
    requires Coherent(T, V) && i < |V.list(k)| && OfTable(T, V.list(k))
    ensures V.frozen(k, i) == TouchesDeposit(T, OutcomeOf(T, V), k, V.list(k), i)
  {
    BillOf(T, V, k);
    ListOfTable(T, V, k);
    var list := V.list(k);
    forall j: nat | j < i
      ensures forall h: nat :: EarlierBuyback(T, V, k, j, h) <==>
                list[j].c < T.deals && At(T, list, j).buybackOf == Some(h) &&
                At(T, list, j).hash in OutcomeOf(T, V).happened
    {
      assert IsPortion(T, list[j]) && HoldLaw(T, V, list[j].c);
      if list[j].c < T.deals { CompletesIsAddressed(T, V, list[j].c); }
      OutcomeSays(T, V, list[j].c);
      hide Coherent, OutcomeOf, Completes;
    }
    hide Coherent, OutcomeOf, RunLaw, SpendList, WellFormed, EarlierBuyback;
    assert FrozenLaw(T, V, k, i);
    assert IsPortion(T, list[i]);
  }

  // One spend's rules are the ones written out.
  lemma SoundIsGoingThrough(T: Table, V: Verdicts, k: BillKey, i: nat)
    requires Coherent(T, V) && i < |V.list(k)| && OfTable(T, V.list(k)) && |Ended(T, V, k)| == |V.list(k)|
    ensures SoundAt(V.run(k, 0), Ended(T, V, k), i) == GoesThrough(T, OutcomeOf(T, V), k, V.list(k), i)
  {
    OpensOn(T, V, k);
    FrozenIsTouching(T, V, k, i);
    KeptIsHeld(T, V, k, i);
    EndedAt(T, V, k, i);
    if i > 0 { EndedAt(T, V, k, i - 1); }
    assert WellFormed(T);
    hide Coherent, OutcomeOf, WellFormed, Ended, TouchesDeposit, Kept, Brought, HeldBefore, Find, OfTable;
    assert IsPortion(T, V.list(k)[i]);
  }

  // A spend is covered exactly when it and every one before it on its bill go through.
  lemma FitExactly(T: Table, V: Verdicts, k: BillKey, i: nat)
    requires Coherent(T, V) && i < |V.list(k)|
    ensures WellFormed(T) && OfTable(T, V.list(k))
    ensures V.fit(k, i) <==> forall j: nat | j <= i :: GoesThrough(T, OutcomeOf(T, V), k, V.list(k), j)
  {
    ListOfTable(T, V, k);
    EndedAt(T, V, k, i);
    forall j: nat | j <= i
      ensures SoundAt(V.run(k, 0), Ended(T, V, k), j) == GoesThrough(T, OutcomeOf(T, V), k, V.list(k), j)
    {
      SoundIsGoingThrough(T, V, k, j);
    }
    FitIsSoundThrough(T, V, k, i);
    hide Coherent, SoundAt, GoesThrough, OutcomeOf, Ended;
  }

  // The judge's test of a spend is the soundness of the thread up to it.
  lemma FitsExactlyWhenSound(start: Run, spends: seq<BillSpend>, i: nat)
    requires start == NewRun(start.holder, start.purse, start.st.credited, start.arrived)
    requires DistinctHashes(spends) && i < |spends|
    ensures Fits(RunAfter(start, spends, i), spends[i]) <==> SoundThrough(start, spends, i)
  {
    hide SoundAt, DistinctHashes, RunAfter, Hashes, Fits;
    var m := BillMeaning(start.holder, start.purse, start.st.credited, start.arrived, spends, i);
    FitIsSound(start, spends, i + 1, m);
  }

  lemma FitIsSoundThrough(T: Table, V: Verdicts, k: BillKey, i: nat)
    requires Coherent(T, V) && i < |V.list(k)| && |Ended(T, V, k)| == |V.list(k)|
    ensures V.fit(k, i) <==> SoundThrough(V.run(k, 0), Ended(T, V, k), i)
  {
    hide Coherent, RunAfter, SoundThrough, DistinctHashes, InBranchOrder, StandsLaw, FrozenLaw, SpendList, Brought;
    FinalSpendsInOrder(T, V, k);
    OpensOn(T, V, k);
    RunIsBatchPrefix(T, V, k, i);
    FitsExactlyWhenSound(V.run(k, 0), Ended(T, V, k), i);
    FitIsFits(T, V, k, i);
  }

  lemma FitIsFits(T: Table, V: Verdicts, k: BillKey, i: nat)
    requires Coherent(T, V) && i < |V.list(k)| && |Ended(T, V, k)| == |V.list(k)|
    ensures V.fit(k, i) == Fits(V.run(k, i), Ended(T, V, k)[i])
  {
    hide Coherent, Ended, FrozenLaw, StandsLaw;
    ListIsOfBill(T, V, k);
    BillOf(T, V, k);
    EndedAt(T, V, k, i);
    assert RunLaw(T, V, k, i);
  }

  // ---------- The rules of the table ----------

  // The i-th spend of a bill and all before it go through.
  ghost predicate Covered(T: Table, O: Outcome, k: BillKey, list: seq<Spend>, i: nat)
    requires WellFormed(T)
  {
    OfTable(T, list) && i < |list| && forall j: nat | j <= i :: GoesThrough(T, O, k, list, j)
  }

  // Every portion of somebody else's paper is covered by its bill.
  ghost predicate Pays(T: Table, O: Outcome, c: nat)
    requires WellFormed(T) && c < |T.carriers|
  {
    var x := T.carriers[c];
    forall p | 0 <= p < |x.t.origins| && x.t.origins[p].src.Some? ::
      var k := BillKey(x.author, x.t.origins[p].src.value, x.t.origins[p].issuer);
      exists i: nat :: Covered(T, O, k, SpendsOf(T, k), i) && SpendsOf(T, k)[i] == Spend(c, p)
  }

  // What happened is what completes something, was accepted and pays; unbacked is what does not pay.
  ghost predicate Rules(T: Table, O: Outcome) {
    && WellFormed(T)
    && O.happened == (set c | 0 <= c < T.deals && Completes(T, O, c) && T.carriers[c].answer == Accepted &&
                              Pays(T, O, c) :: T.carriers[c].hash)
    && O.unbacked == set c | 0 <= c < |T.carriers| && !Pays(T, O, c) :: T.carriers[c].hash
  }

  // A bill's spends have one branch order.
  lemma {:induction false} OneOrder(T: Table, k: BillKey, a: seq<Spend>, b: seq<Spend>)
    requires WellFormed(T) && SpendList(T, k, a) && SpendList(T, k, b) && forall s :: s in a <==> s in b
    ensures a == b
  {
    assert a != [] ==> a[0] in b;
    assert b != [] ==> b[0] in a;
    if a != [] && b != [] {
      assert a == [a[0]] + a[1..] && b == [b[0]] + b[1..];
      assert a[0] == b[0];
      forall s ensures s in a[1..] <==> s in b[1..] {
        assert s in a <==> s == a[0] || s in a[1..];
        assert s in b <==> s == b[0] || s in b[1..];
        assert a[0] !in a[1..] && b[0] !in b[1..];
      }
      OneOrder(T, k, a[1..], b[1..]);
    }
  }

  lemma ListIsSpendsOf(T: Table, V: Verdicts, k: BillKey)
    requires Coherent(T, V)
    ensures V.list(k) == SpendsOf(T, k)
  {
    assert BillLaws(T, V, k);
    SpendsOfIsList(T, k);
    hide BillLaws, SpendList, SpendsOf, IsPortion;
    assert ListLaw(T, V, k) && WellFormed(T);
    hide Coherent;
    OneOrder(T, k, V.list(k), SpendsOf(T, k));
  }

  lemma PaysIsBacked(T: Table, V: Verdicts, c: nat)
    requires Coherent(T, V) && c < |T.carriers|
    ensures V.back(c) == Pays(T, OutcomeOf(T, V), c)
  {
    assert BackLaw(T, V, c);
    var O, x := OutcomeOf(T, V), T.carriers[c];
    forall p: nat | p < |x.t.origins| && x.t.origins[p].src.Some?
      ensures var k := BillKey(x.author, x.t.origins[p].src.value, x.t.origins[p].issuer);
              PortionCovered(T, V, Spend(c, p)) ==
              exists i: nat :: Covered(T, O, k, SpendsOf(T, k), i) && SpendsOf(T, k)[i] == Spend(c, p)
    {
      hide OutcomeOf;
      PortionPays(T, V, O, Spend(c, p));
    }
    hide Coherent, OutcomeOf, PortionCovered, Covered, SpendsOf;
  }

  lemma PortionPays(T: Table, V: Verdicts, O: Outcome, s: Spend)
    requires Coherent(T, V) && IsPortion(T, s) && O == OutcomeOf(T, V)
    ensures var k := KeyOf(T, s);
            PortionCovered(T, V, s) ==
            exists i: nat :: Covered(T, O, k, SpendsOf(T, k), i) && SpendsOf(T, k)[i] == s
  {
    var k := KeyOf(T, s);
    hide OutcomeOf, SpendsOf, GoesThrough, OfTable, PortionCovered, IsPortion, KeyOf, WellFormed, Coherent;
    ListIsSpendsOf(T, V, k);
    SpendsOfIsList(T, k);
    var i: nat :| i < |V.list(k)| && V.list(k)[i] == s;
    FitDecidesPortion(T, V, k, i);
    FitExactly(T, V, k, i);
    forall j: nat | j < |V.list(k)| && V.list(k)[j] == s ensures V.fit(k, j) == V.fit(k, i) {
      FitDecidesPortion(T, V, k, j);
    }
    forall j: nat | Covered(T, O, k, SpendsOf(T, k), j) && SpendsOf(T, k)[j] == s ensures V.fit(k, i) {
      FitExactly(T, V, k, j);
    }
    assert V.fit(k, i) ==> Covered(T, O, k, SpendsOf(T, k), i);
  }

  // Every reading of a table obeys them.
  lemma ReadingsObey(T: Table, V: Verdicts)
    requires Coherent(T, V)
    ensures Rules(T, OutcomeOf(T, V))
  {
    var O := OutcomeOf(T, V);
    forall c: nat | c < |T.carriers| ensures V.back(c) == Pays(T, O, c) { PaysIsBacked(T, V, c); }
    forall c: nat | c < T.deals
      ensures Completes(T, O, c) == V.addr(c)
      ensures V.eff(c) == (V.addr(c) && T.carriers[c].answer == Accepted && V.back(c))
    {
      CompletesIsAddressed(T, V, c);
    }
    assert WellFormed(T);
    hide Coherent, Pays, Completes, WellFormedCarrier;
  }

  // ---------- What they come to ----------

  // The portion `p` of carrier `c` is paid from the same bill as portion `q` of carrier `d`, a block
  // earlier in the branch.
  ghost predicate SpentEarlier(T: Table, d: nat, q: nat, c: nat, p: nat) {
    && IsPortion(T, Spend(d, q)) && IsPortion(T, Spend(c, p))
    && var x, y := T.carriers[d], T.carriers[c];
       && x.author == y.author && x.t.origins[q].src == y.t.origins[p].src
       && x.t.origins[q].issuer == y.t.origins[p].issuer
       && (x.index < y.index || (x.index == y.index && x.hash < y.hash))
  }

  // `h` is a purchase with a deposit that lies in the hands of the one who pays with it.
  ghost predicate PaysWithDeposit(T: Table, c: nat, p: nat, h: nat) {
    && IsPortion(T, Spend(c, p)) && Find(T, T.carriers[c].t.origins[p].src.value) == Some(h) && h < T.deals
    && T.carriers[h].t.to == T.carriers[c].author
    && T.carriers[h].t.buyback.Some? && T.carriers[h].t.buyback.value.deposit
  }

  // A deposit spent up to its term — not by buying back, nor after a buyback from the same bill
  // happened — is not backed, and the deal does not happen.
  lemma DepositWaits(T: Table, O: Outcome, c: nat, p: nat, h: nat)
    requires Rules(T, O) && PaysWithDeposit(T, c, p, h)
    requires T.carriers[c].t.timestamp <= T.carriers[h].t.buyback.value.until
    requires c < T.deals ==> T.carriers[c].buybackOf != Some(h)
    requires forall d: nat, q: nat | SpentEarlier(T, d, q, c, p) && d < T.deals && T.carriers[d].buybackOf == Some(h) ::
               T.carriers[d].hash !in O.happened
    ensures T.carriers[c].hash in O.unbacked && T.carriers[c].hash !in O.happened
  {
    var s := Spend(c, p);
    var k := KeyOf(T, s);
    var list := SpendsOf(T, k);
    SpendsOfIsList(T, k);
    assert OfTable(T, list) && WellFormed(T);
    forall i: nat | i < |list| && list[i] == s ensures !GoesThrough(T, O, k, list, i) {
      forall j: nat | j < i ensures SpentEarlier(T, list[j].c, list[j].p, c, p) {
        assert Precedes(T, list[j], list[i]) && IsPortion(T, list[j]);
      }
      assert TouchesDeposit(T, O, k, list, i);
    }
    hide Completes, Covered, SpendsOf;
    assert !Pays(T, O, c);
    NotPaid(T, O, c);
  }

  // So in every reading.
  lemma DepositWaitsInReading(T: Table, V: Verdicts, c: nat, p: nat, h: nat)
    requires Coherent(T, V) && PaysWithDeposit(T, c, p, h)
    requires T.carriers[c].t.timestamp <= T.carriers[h].t.buyback.value.until
    requires c < T.deals ==> T.carriers[c].buybackOf != Some(h)
    requires forall d: nat, q: nat | SpentEarlier(T, d, q, c, p) && d < T.deals && T.carriers[d].buybackOf == Some(h) ::
               !(V.addr(d) && T.carriers[d].answer == Accepted && V.back(d))
    ensures !V.back(c) && (c < T.deals ==> !V.eff(c))
  {
    var O := OutcomeOf(T, V);
    ReadingsObey(T, V);
    forall d: nat, q: nat | SpentEarlier(T, d, q, c, p) && d < T.deals && T.carriers[d].buybackOf == Some(h)
      ensures T.carriers[d].hash !in O.happened
    {
      CompletesIsAddressed(T, V, d);
      OutcomeSays(T, V, d);
    }
    hide Coherent, Rules, OutcomeOf, SpentEarlier;
    DepositWaits(T, O, c, p, h);
    OutcomeSays(T, V, c);
  }

  lemma NotPaid(T: Table, O: Outcome, c: nat)
    requires Rules(T, O) && c < |T.carriers|
    ensures T.carriers[c].hash in O.unbacked <==> !Pays(T, O, c)
    ensures c < T.deals ==>
              (T.carriers[c].hash in O.happened <==>
               Completes(T, O, c) && T.carriers[c].answer == Accepted && T.carriers[c].hash !in O.unbacked)
  {
    hide Completes, Pays, WellFormedCarrier;
  }

  lemma FitOneMore(T: Table, V: Verdicts, k: BillKey, i: nat)
    requires Coherent(T, V) && i < |V.list(k)| && OfTable(T, V.list(k))
    ensures V.fit(k, i) <==> (i > 0 ==> V.fit(k, i - 1)) && GoesThrough(T, OutcomeOf(T, V), k, V.list(k), i)
  {
    FitExactly(T, V, k, i);
    if i > 0 { FitExactly(T, V, k, i - 1); }
    hide Coherent, OutcomeOf, GoesThrough, OfTable, WellFormed;
  }

  // Past its term, or bought back by this very deal or by one that happened earlier, it is covered
  // exactly by the other rules of the thread.
  lemma DepositIsFree(T: Table, V: Verdicts, k: BillKey, i: nat, h: nat)
    requires Coherent(T, V) && i < |V.list(k)| && OfTable(T, V.list(k))
    requires Find(T, k.src) == Some(h) && h < T.deals && T.carriers[h].t.buyback.Some?
    requires var x := At(T, V.list(k), i);
             || x.t.timestamp > T.carriers[h].t.buyback.value.until
             || (V.list(k)[i].c < T.deals && x.buybackOf == Some(h))
             || exists j: nat :: j < i && V.list(k)[j].c < T.deals && At(T, V.list(k), j).buybackOf == Some(h) &&
                                 V.eff(V.list(k)[j].c)
    ensures var x, d, O := At(T, V.list(k), i), T.carriers[h], OutcomeOf(T, V);
            V.fit(k, i) <==>
            && (i > 0 ==> V.fit(k, i - 1))
            && x.node == d.t.toNode
            && (d.t.to == k.holder && V.eff(h) && d.arrived.Some? ==> x.index > d.arrived.value)
            && OriginOf(T, V.list(k)[i]).prev ==
               (if i == 0 then None else Some(Ref(k.holder, At(T, V.list(k), i - 1).hash)))
            && OriginOf(T, V.list(k)[i]).units <= Brought(T, O, k) - Kept(T, O, V.list(k), i) + 0.000000001
  {
    var list, O := V.list(k), OutcomeOf(T, V);
    assert WellFormed(T);
    hide Coherent, OutcomeOf, WellFormed, Brought, Kept, OfTable;
    FitOneMore(T, V, k, i);
    assert IsPortion(T, list[i]);
    forall j: nat | j < i ensures IsPortion(T, list[j]) && list[j].c < |T.carriers| {
      ListOfTable(T, V, k);
      OutcomeSays(T, V, list[j].c);
    }
    OutcomeSays(T, V, h);
  }

  // ---------- What a bill holds ----------

  // A spend takes its hours from the bill exactly when it is covered and keeps them: the hours of an
  // offer refused, or unanswered when the holder next spent past its term, are back on the bill.
  lemma SpendTakes(T: Table, V: Verdicts, k: BillKey, i: nat)
    requires Coherent(T, V) && i < |V.list(k)| && OfTable(T, V.list(k))
    ensures V.run(k, i + 1).st.consumed == V.run(k, i).st.consumed +
            if V.fit(k, i) && Keeps(T, OutcomeOf(T, V), V.list(k), i) then OriginOf(T, V.list(k)[i]).units else 0.0
  {
    hide Coherent, OutcomeOf, Keeps, OfTable, Ended, SpendList, FinalSpends, FaultOf, Dead;
    EndedIs(T, V, k);
    EndedAt(T, V, k, i);
    RunStep(T, V, k, i);
    KeepsIsNotDead(T, V, k, i);
    FitIsFits(T, V, k, i);
  }

  lemma EndedIs(T: Table, V: Verdicts, k: BillKey)
    requires Coherent(T, V)
    ensures SpendList(T, k, V.list(k)) && Ended(T, V, k) == FinalSpends(T, V, k, |V.list(k)|)
    ensures |Ended(T, V, k)| == |V.list(k)|
  {
    ListIsOfBill(T, V, k);
    hide Coherent, SpendList, FinalSpends;
  }

  lemma RefusedGivesBack(T: Table, V: Verdicts, k: BillKey, i: nat)
    requires Coherent(T, V) && i < |V.list(k)| && OfTable(T, V.list(k)) && V.list(k)[i].c < T.deals
    requires At(T, V.list(k), i).answer == Refused
    ensures V.run(k, i + 1).st.consumed == V.run(k, i).st.consumed
  {
    SpendTakes(T, V, k, i);
    hide Coherent, OutcomeOf;
  }

  // What a bill holds in the end: the spends covered are the first m, and what they keep is gone.
  ghost predicate Ends(T: Table, O: Outcome, k: BillKey, list: seq<Spend>, st: BillState, m: nat)
    requires WellFormed(T)
  {
    && OfTable(T, list) && m <= |list|
    && (forall i: nat | i < |list| :: Covered(T, O, k, list, i) <==> i < m)
    && st.credited == Brought(T, O, k) && st.consumed == Kept(T, O, list, m)
    && st.backed == (set i | 0 <= i < m :: At(T, list, i).hash)
    && st.unbacked == (set i | m <= i < |list| :: At(T, list, i).hash)
  }

  lemma BillEnds(T: Table, V: Verdicts, k: BillKey) returns (m: nat)
    requires Coherent(T, V)
    ensures WellFormed(T) && Ends(T, OutcomeOf(T, V), k, V.list(k), V.run(k, |V.list(k)|).st, m)
  {
    assert WellFormed(T);
    hide Coherent, OutcomeOf, RunAfter, Brought, Ended, SpendList, WellFormed, OfTable, DistinctHashes, InBranchOrder,
         FinalSpends, RunMeans, Ends;
    var all, start, n := Ended(T, V, k), V.run(k, 0), |V.list(k)|;
    OpensOn(T, V, k);
    RunIsBatchPrefix(T, V, k, n);
    FinalSpendsInOrder(T, V, k);
    EndedIs(T, V, k);
    m := BillMeaning(start.holder, start.purse, start.st.credited, start.arrived, all, n);
    MeaningEnds(T, V, k, m);
  }

  lemma MeaningEnds(T: Table, V: Verdicts, k: BillKey, m: nat)
    requires Coherent(T, V) && m <= |Ended(T, V, k)| == |V.list(k)|
    requires RunMeans(V.run(k, 0), Ended(T, V, k), |V.list(k)|, m)
    requires V.run(k, |V.list(k)|) == RunAfter(V.run(k, 0), Ended(T, V, k), |V.list(k)|)
    ensures WellFormed(T) && Ends(T, OutcomeOf(T, V), k, V.list(k), V.run(k, |V.list(k)|).st, m)
  {
    assert WellFormed(T);
    hide Coherent, OutcomeOf, RunAfter, Brought, Kept, HeldBefore, SoundThrough, Ended, SpendList, WellFormed, OfTable,
         Covered, Hashes;
    ListOfTable(T, V, k);
    OpensOn(T, V, k);
    KeptIsHeld(T, V, k, m);
    CoveredAreSound(T, V, k, m);
    EndedHashes(T, V, k, 0, m);
    EndedHashes(T, V, k, m, |V.list(k)|);
  }

  lemma CoveredAreSound(T: Table, V: Verdicts, k: BillKey, m: nat)
    requires Coherent(T, V) && m <= |V.list(k)| && OfTable(T, V.list(k)) && |Ended(T, V, k)| == |V.list(k)|
    requires SoundThrough(V.run(k, 0), Ended(T, V, k), m - 1)
    requires m < |V.list(k)| ==> !SoundThrough(V.run(k, 0), Ended(T, V, k), m)
    ensures forall i: nat | i < |V.list(k)| :: Covered(T, OutcomeOf(T, V), k, V.list(k), i) <==> i < m
  {
    assert WellFormed(T);
    forall i: nat | i < |V.list(k)|
      ensures SoundAt(V.run(k, 0), Ended(T, V, k), i) == GoesThrough(T, OutcomeOf(T, V), k, V.list(k), i)
    {
      SoundIsGoingThrough(T, V, k, i);
    }
    hide Coherent, OutcomeOf, SoundAt, GoesThrough, Ended, OfTable, WellFormed;
  }

  lemma EndedHashes(T: Table, V: Verdicts, k: BillKey, a: nat, b: nat)
    requires Coherent(T, V) && a <= b <= |V.list(k)| && OfTable(T, V.list(k)) && |Ended(T, V, k)| == |V.list(k)|
    ensures Hashes(Ended(T, V, k)[a..b]) == set i | a <= i < b :: At(T, V.list(k), i).hash
  {
    hide Coherent, Ended, OfTable;
    var all, list := Ended(T, V, k), V.list(k);
    forall i: nat | a <= i < b ensures IsPortion(T, list[i]) && all[i].hash == At(T, list, i).hash {
      EndedAt(T, V, k, i);
    }
    forall i: nat | a <= i < b ensures all[i] in all[a..b] {
      assert all[a..b][i - a] == all[i];
    }
    forall s | s in all[a..b] ensures exists i: nat :: a <= i < b && all[i] == s {
      var j :| 0 <= j < b - a && all[a..b][j] == s;
      assert all[a + j] == s;
    }
  }
}
