// Conservation of paper as the walk tells it: of the deals it takes for happened.
module WalkConservation {
  import opened Sums
  import opened Settlement
  import opened DealsTable
  import opened Happened
  import opened WalkSteps
  import opened WalkTruth
  import opened Conservation

  // Hours of I's paper that H paid, and was paid, in deals of this set.
  ghost function PaidBy(T: Table, happened: set<Hash>, H: ChainId, I: ChainId): real
    requires T.deals <= |T.carriers|
  {
    SumTo(T.deals, c => if 0 <= c < T.deals && T.carriers[c].hash in happened && T.carriers[c].author == H
                        then BillCredit(T.carriers[c].t, I) else 0.0)
  }

  ghost function PaidTo(T: Table, happened: set<Hash>, H: ChainId, I: ChainId): real
    requires T.deals <= |T.carriers|
  {
    SumTo(T.deals, c => if 0 <= c < T.deals && T.carriers[c].hash in happened && T.carriers[c].t.to == H
                        then BillCredit(T.carriers[c].t, I) else 0.0)
  }

  lemma PaidIsMoved(T: Table, V: Verdicts, happened: set<Hash>, H: ChainId, I: ChainId)
    requires WellFormed(T) && happened == set c | 0 <= c < T.deals && V.eff(c) :: T.carriers[c].hash
    ensures PaidBy(T, happened, H, I) == Outgoing(T, V, H, I)
    ensures PaidTo(T, happened, H, I) == Incoming(T, V, H, I)
  {
    forall c | 0 <= c < T.deals ensures T.carriers[c].hash in happened <==> V.eff(c) {
      if T.carriers[c].hash in happened {
        var d: nat :| d < T.deals && V.eff(d) && T.carriers[d].hash == T.carriers[c].hash;
        assert c == d;
      }
    }
    hide WellFormed;
    var paid := (c: int) => if 0 <= c < T.deals && T.carriers[c].hash in happened && T.carriers[c].author == H
                          then BillCredit(T.carriers[c].t, I) else 0.0;
    var got := (c: int) => if 0 <= c < T.deals && T.carriers[c].hash in happened && T.carriers[c].t.to == H
                          then BillCredit(T.carriers[c].t, I) else 0.0;
    SumToEq(T.deals, paid, c => Took(T, V, H, I, c));
    SumToEq(T.deals, got, c => Brought(T, V, H, I, c));
    SumToEq(T.deals, paid, c => if 0 <= c < T.deals && T.carriers[c].hash in happened && T.carriers[c].author == H
                              then BillCredit(T.carriers[c].t, I) else 0.0);
    SumToEq(T.deals, got, c => if 0 <= c < T.deals && T.carriers[c].hash in happened && T.carriers[c].t.to == H
                              then BillCredit(T.carriers[c].t, I) else 0.0);
  }

  // On any table on which some reading finds every refusal of the walk right.
  lemma HarmlessWalkConserves(T: Table, V: Verdicts, H: ChainId, I: ChainId)
    requires WellFormed(T) && Reading(T, V) && Harmless(V, Judgement(T)) && H != I && T.deals <= |T.carriers|
    ensures var happened := HappenedBy(T, Judgement(T), T.deals);
            PaidBy(T, happened, H, I) <= PaidTo(T, happened, H, I) + 0.000000001 * (|BillsOf(T, H, I)| as real)
  {
    hide WellFormed, Coherent, SpendsOf, Harmless, Judgement, BillsOf, HappenedBy, PaidBy, PaidTo;
    JudgementIsTrue(T, V);
    PaidIsMoved(T, V, HappenedBy(T, Judgement(T), T.deals), H, I);
    PaperIsConserved(T, V, H, I);
  }

  // On every table whose references name earlier blocks and whose carriers can be ranked.
  lemma RankedWalkConserves(T: Table, H: ChainId, I: ChainId)
    requires WellFormed(T) && Stratified(T) && Ranked(T) && H != I && T.deals <= |T.carriers|
    ensures var happened := HappenedBy(T, Judgement(T), T.deals);
            PaidBy(T, happened, H, I) <= PaidTo(T, happened, H, I) + 0.000000001 * (|BillsOf(T, H, I)| as real)
  {
    hide WellFormed, Stratified, Ranked, Reading, Judgement, BillsOf, HappenedBy, PaidBy, PaidTo;
    RefusesNothing(T);
    TruthIsReading(T);
    HarmlessWalkConserves(T, Truth(T), H, I);
  }

  // In particular when each bill is spent from one branch.
  lemma OneBranchWalkConserves(T: Table, H: ChainId, I: ChainId)
    requires WellFormed(T) && Stratified(T) && InOneBranch(T) && H != I && T.deals <= |T.carriers|
    ensures var happened := HappenedBy(T, Judgement(T), T.deals);
            PaidBy(T, happened, H, I) <= PaidTo(T, happened, H, I) + 0.000000001 * (|BillsOf(T, H, I)| as real)
  {
    hide WellFormed, Stratified, Ranked, InOneBranch, SpentInOrder, Judgement, BillsOf, HappenedBy, PaidBy, PaidTo;
    OneBranchIsInOrder(T);
    InOrderIsRanked(T);
    RankedWalkConserves(T, H, I);
  }
}
