// When a deal happens and what pays it (records/settlement): the seller's answer to an
// offer, and one bill's thread of spends. Hours are reals; TOLERANCE is the 1e-9 the
// judge of a spend allows.
module Settlement {
  import opened Options
  import opened Sums

  // 32-byte values, ordered as big-endian numbers.
  type Hash = nat
  type ChainId = nat

  const TOLERANCE: real := 0.000000001

  datatype Ref = Ref(chain: ChainId, hash: Hash)

  // One named portion of a payment: whose paper, how much, and — for somebody else's
  // paper — the bill it is spent from and the payer's previous spend of that bill.
  datatype Origin = Origin(issuer: ChainId, units: real, src: Option<Ref>, prev: Option<Ref>)

  // A pre-signed return: until when, and whether the payment lies as a deposit.
  datatype Buyback = Buyback(until: int, deposit: bool)

  datatype Transfer = Transfer(from: ChainId, to: ChainId, toNode: nat, origins: seq<Origin>,
                               timestamp: int, until: Option<int>, buyback: Option<Buyback>)

  datatype Answer = NoAnswer | Accepted | Refused

  // ---------- The seller's answer ----------

  datatype ObservedReply =
    ObservedReply(deal: Ref, accepted: bool, timestamp: int, author: ChainId, node: nat, index: nat, since: int)

  datatype DealAnswer = DealAnswer(answer: Answer, reply: Option<nat>)

  // A reply in the purse the deal pays into, naming the deal in full.
  predicate FromThePurse(deal: Transfer, dealRef: Ref, r: ObservedReply) {
    r.deal == dealRef && r.author == deal.to && r.node == deal.toNode
  }

  predicate Late(deal: Transfer, r: ObservedReply) {
    deal.until.None? || (if r.timestamp > r.since then r.timestamp else r.since) > deal.until.value
  }

  // The first word of the purse being paid: no reply of it lies at an earlier position.
  ghost predicate IsFirstWord(deal: Transfer, dealRef: Ref, replies: seq<ObservedReply>, i: nat) {
    && i < |replies| && FromThePurse(deal, dealRef, replies[i])
    && forall j | 0 <= j < |replies| && FromThePurse(deal, dealRef, replies[j]) ::
         replies[i].index < replies[j].index || (replies[i].index == replies[j].index && i <= j)
  }

  method AnswerOf(deal: Transfer, dealRef: Ref, replies: seq<ObservedReply>) returns (out: DealAnswer)
    ensures out.answer == NoAnswer <==>
            !exists i: nat :: IsFirstWord(deal, dealRef, replies, i) && !Late(deal, replies[i])
    ensures out.answer == NoAnswer <==> out.reply.None?
    ensures out.reply.Some? ==>
              && IsFirstWord(deal, dealRef, replies, out.reply.value)
              && !Late(deal, replies[out.reply.value])
              && (out.answer == Accepted <==> replies[out.reply.value].accepted)
  {
    out := DealAnswer(NoAnswer, None);
    var first: Option<nat> := None;
    for i := 0 to |replies|
      invariant first.None? ==> forall j | 0 <= j < i :: !FromThePurse(deal, dealRef, replies[j])
      invariant first.Some? ==> first.value < i && IsFirstWord(deal, dealRef, replies[..i], first.value)
    {
      var r := replies[i];
      assert replies[..i + 1][..i] == replies[..i];
      if FromThePurse(deal, dealRef, r) {
        if first.None? || r.index < replies[first.value].index {
          first := Some(i);
        }
      }
    }
    assert replies[..|replies|] == replies;
    if first.None? {
      return;
    }
    var r := replies[first.value];
    if Late(deal, r) {
      forall i: nat | IsFirstWord(deal, dealRef, replies, i) ensures Late(deal, replies[i]) {
        assert i == first.value;
      }
      return;
    }
    out := DealAnswer(if r.accepted then Accepted else Refused, first);
  }

  // Which reply answers: the earliest of the purse being paid, in the branch and then on the table,
  // when both its own date and the date of its place in the branch are within the term.
  lemma AnswersExactly(deal: Transfer, dealRef: Ref, replies: seq<ObservedReply>, i: nat)
    ensures IsFirstWord(deal, dealRef, replies, i) && !Late(deal, replies[i]) <==>
            && i < |replies|
            && replies[i].deal == dealRef && replies[i].author == deal.to && replies[i].node == deal.toNode
            && (forall j | 0 <= j < |replies| && replies[j].deal == dealRef && replies[j].author == deal.to &&
                           replies[j].node == deal.toNode ::
                  replies[i].index <= replies[j].index && (replies[i].index == replies[j].index ==> i <= j))
            && deal.until.Some? && replies[i].timestamp <= deal.until.value && replies[i].since <= deal.until.value
  {
  }

  // ---------- Pre-signed returns ----------

  // How many hours of `issuer` the block put into its receiver's hands.
  ghost function BillCredit(t: Transfer, issuer: ChainId): real {
    Sum(t.origins, (o: Origin) => if o.issuer == issuer then o.units else 0.0)
  }

  method ComputeBillCredit(t: Transfer, issuer: ChainId) returns (units: real)
    ensures units == BillCredit(t, issuer)
  {
    ghost var f := (o: Origin) => if o.issuer == issuer then o.units else 0.0;
    units := 0.0;
    for i := 0 to |t.origins|
      invariant units == Sum(t.origins[..i], f)
    {
      assert t.origins[..i + 1] == t.origins[..i] + [t.origins[i]];
      SumSnoc(t.origins[..i], t.origins[i], f);
      if t.origins[i].issuer == issuer {
        units := units + t.origins[i].units;
      }
    }
    assert t.origins[..|t.origins|] == t.origins;
  }

  predicate DepositFrozen(purchase: Transfer, spendTimestamp: int, boughtBack: bool) {
    && purchase.buyback.Some? && purchase.buyback.value.deposit
    && !boughtBack && spendTimestamp <= purchase.buyback.value.until
  }

  // ---------- Bills ----------

  datatype BillSpend =
    BillSpend(hash: Hash, node: nat, index: nat, timestamp: int, units: real, prev: Option<Ref>,
              move: bool, answer: Answer, until: int, stands: bool, frozen: bool)

  datatype Fault = DepositIsFrozen | WrongPurse | BeforeArrival | FirstNamesPrevious | ThreadBroken | Overdrawn

  datatype BillState =
    BillState(credited: real, consumed: real, backed: set<Hash>, unbacked: set<Hash>, fault: Option<Fault>)
  {
    function Remaining(): real { credited - consumed }
  }

  // A bill being walked: its terms, the last spend on the thread, whether the thread broke.
  datatype Run =
    Run(holder: ChainId, purse: nat, arrived: Option<nat>, last: Option<Hash>, broken: bool, st: BillState)

  function NewRun(holder: ChainId, purse: nat, credited: real, arrived: Option<nat>): Run {
    Run(holder, purse, arrived, None, false, BillState(credited, 0.0, {}, {}, None))
  }

  function FaultOf(r: Run, s: BillSpend): Option<Fault> {
    if s.frozen then Some(DepositIsFrozen)
    else if s.node != r.purse then Some(WrongPurse)
    else if r.arrived.Some? && s.index <= r.arrived.value then Some(BeforeArrival)
    else if r.last.None? && s.prev.Some? then Some(FirstNamesPrevious)
    else if r.last.Some? && s.prev != Some(Ref(r.holder, r.last.value)) then Some(ThreadBroken)
    else if s.units > r.st.Remaining() + TOLERANCE then Some(Overdrawn)
    else None
  }

  function Fits(r: Run, s: BillSpend): bool {
    !r.broken && FaultOf(r, s).None?
  }

  function Judged(r: Run, s: BillSpend): Run {
    if Fits(r, s) then
      r.(last := Some(s.hash), st := r.st.(backed := r.st.backed + {s.hash}))
    else
      r.(broken := true,
         st := r.st.(unbacked := r.st.unbacked + {s.hash},
                     fault := if r.broken then r.st.fault else FaultOf(r, s)))
  }

  // An offer refused, or unanswered past its term by the holder's next spend, held nothing.
  predicate Dead(s: BillSpend, next: Option<int>) {
    || !s.stands
    || (!s.move && (s.answer == Refused ||
                    (s.answer == NoAnswer && next.Some? && next.value > s.until)))
  }

  function HeldUnits(s: BillSpend, next: Option<int>): real {
    if Dead(s, next) then 0.0 else s.units
  }

  function Settled(r: Run, s: BillSpend, next: Option<int>): Run {
    if s.hash in r.st.backed then
      r.(st := r.st.(consumed := r.st.consumed + HeldUnits(s, next)))
    else r
  }

  class BillRun {
    var holder: ChainId
    var purse: nat
    var arrived: Option<nat>
    var last: Option<Hash>
    var broken: bool
    var st: BillState

    function Value(): Run
      reads this
    {
      Run(holder, purse, arrived, last, broken, st)
    }

    constructor (holder: ChainId, purse: nat, credited: real, arrived: Option<nat>)
      ensures Value() == NewRun(holder, purse, credited, arrived)
    {
      this.holder, this.purse, this.arrived := holder, purse, arrived;
      last, broken := None, false;
      st := BillState(credited, 0.0, {}, {}, None);
    }

    method Judge(s: BillSpend) returns (ok: bool)
      modifies this
      ensures Value() == Judged(old(Value()), s) && ok == Fits(old(Value()), s)
    {
      if broken {
        st := st.(unbacked := st.unbacked + {s.hash});
        return false;
      }
      var fault: Option<Fault> := None;
      if s.frozen {
        fault := Some(DepositIsFrozen);
      } else if s.node != purse {
        fault := Some(WrongPurse);
      } else if arrived.Some? && s.index <= arrived.value {
        fault := Some(BeforeArrival);
      } else if last.None? {
        if s.prev.Some? { fault := Some(FirstNamesPrevious); }
      } else if s.prev.None? || s.prev.value.chain != holder || s.prev.value.hash != last.value {
        fault := Some(ThreadBroken);
      }
      if fault.None? && s.units > st.Remaining() + TOLERANCE {
        fault := Some(Overdrawn);
      }
      if fault.Some? {
        broken := true;
        st := st.(fault := fault, unbacked := st.unbacked + {s.hash});
        return false;
      }
      st := st.(backed := st.backed + {s.hash});
      last := Some(s.hash);
      return true;
    }

    method Settle(s: BillSpend, next: Option<int>)
      modifies this
      ensures Value() == Settled(old(Value()), s, next)
    {
      if s.hash !in st.backed { return; }
      var dead := !s.stands;
      if !dead && !s.move {
        if s.answer == Refused {
          dead := true;
        } else if s.answer == NoAnswer && next.Some? && next.value > s.until {
          dead := true;
        }
      }
      if !dead { st := st.(consumed := st.consumed + s.units); }
    }
  }

  // ---------- check_bill ----------

  // Branch order; the hash breaks ties.
  predicate SpendBefore(a: BillSpend, b: BillSpend) {
    a.index < b.index || (a.index == b.index && a.hash < b.hash)
  }

  predicate InBranchOrder(spends: seq<BillSpend>) {
    forall i, j | 0 <= i < j < |spends| :: SpendBefore(spends[i], spends[j])
  }

  predicate DistinctHashes(spends: seq<BillSpend>) {
    forall i, j | 0 <= i < j < |spends| :: spends[i].hash != spends[j].hash
  }

  function NextTimestamp(spends: seq<BillSpend>, k: nat): Option<int>
    requires k < |spends|
  {
    if k + 1 < |spends| then Some(spends[k + 1].timestamp) else None
  }

  // One spend judged and, if it fits, settled.
  function Taken(r: Run, s: BillSpend, next: Option<int>): Run {
    if Fits(r, s) then Settled(Judged(r, s), s, next) else Judged(r, s)
  }

  // A broken thread stays broken; a spend out of another purse does not fit and breaks it.
  lemma NeverFits(r: Run, s: BillSpend)
    ensures r.broken || s.node != r.purse ==> !Fits(r, s)
  {
  }

  lemma TakenBreaks(r: Run, s: BillSpend, next: Option<int>)
    ensures Taken(r, s, next).purse == r.purse
    ensures r.broken || s.node != r.purse ==> Taken(r, s, next).broken
  {
  }

  // The run after the first k spends.
  function RunAfter(start: Run, spends: seq<BillSpend>, k: nat): Run
    requires k <= |spends|
  {
    if k == 0 then start else Taken(RunAfter(start, spends, k - 1), spends[k - 1], NextTimestamp(spends, k - 1))
  }

  function Insert(s: BillSpend, sorted: seq<BillSpend>): seq<BillSpend> {
    if sorted == [] || !SpendBefore(sorted[0], s) then [s] + sorted else [sorted[0]] + Insert(s, sorted[1..])
  }

  function Sort(spends: seq<BillSpend>): seq<BillSpend> {
    if spends == [] then [] else Insert(spends[0], Sort(spends[1..]))
  }

  // Neighbours with one hash are one block seen twice.
  function Unique(spends: seq<BillSpend>): seq<BillSpend>
    decreases |spends|
  {
    if |spends| <= 1 then spends
    else if spends[0].hash == spends[1].hash then Unique([spends[0]] + spends[2..])
    else [spends[0]] + Unique(spends[1..])
  }

  // None stands before one it comes after.
  ghost predicate Ordered(spends: seq<BillSpend>) {
    forall i, j | 0 <= i < j < |spends| :: !SpendBefore(spends[j], spends[i])
  }

  lemma NothingIsOrdered()
    ensures Ordered([])
  {
  }

  // The walk goes over all spends handed in, in branch order, each block once.
  lemma WalkedIsSorted(spends: seq<BillSpend>)
    ensures multiset(Sort(spends)) == multiset(spends)
    ensures Ordered(Sort(spends))
    ensures Hashes(Unique(Sort(spends))) == Hashes(spends) && forall s | s in Unique(Sort(spends)) :: s in spends
    ensures var w := Unique(Sort(spends)); forall i | 0 <= i < |w| - 1 :: w[i].hash != w[i + 1].hash
  {
    hide Sort, Unique, Ordered;
    SortPermutes(spends);
    SortSorts(spends);
    UniqueKeepsHashes(Sort(spends));
    UniqueNeighbours(Sort(spends));
    forall s ensures s in spends <==> s in Sort(spends) {
      assert s in spends <==> s in multiset(spends);
      assert s in Sort(spends) <==> s in multiset(Sort(spends));
    }
  }

  lemma {:induction false} SortPermutes(spends: seq<BillSpend>)
    ensures multiset(Sort(spends)) == multiset(spends)
  {
    if spends != [] {
      SortPermutes(spends[1..]);
      InsertPermutes(spends[0], Sort(spends[1..]));
      assert spends == [spends[0]] + spends[1..];
    }
  }

  lemma {:induction false} InsertPermutes(s: BillSpend, sorted: seq<BillSpend>)
    ensures multiset(Insert(s, sorted)) == multiset(sorted) + multiset{s}
  {
    if sorted != [] {
      InsertPermutes(s, sorted[1..]);
      assert sorted == [sorted[0]] + sorted[1..];
    }
  }

  lemma {:induction false} SortSorts(spends: seq<BillSpend>)
    ensures Ordered(Sort(spends))
  {
    hide Ordered, SpendBefore, Insert;
    if spends == [] {
      NothingIsOrdered();
    } else {
      SortSorts(spends[1..]);
      InsertSorts(spends[0], Sort(spends[1..]));
    }
  }

  lemma {:induction false} InsertSorts(s: BillSpend, sorted: seq<BillSpend>)
    requires Ordered(sorted)
    ensures Ordered(Insert(s, sorted))
  {
    if sorted != [] && SpendBefore(sorted[0], s) {
      var rest := Insert(s, sorted[1..]);
      InsertSorts(s, sorted[1..]);
      InsertPermutes(s, sorted[1..]);
      forall x | x in rest ensures !SpendBefore(x, sorted[0]) {
        assert x in multiset(rest);
        assert x == s || x in sorted[1..];
      }
    }
  }

  lemma {:induction false} UniqueKeepsHashes(spends: seq<BillSpend>)
    ensures Hashes(Unique(spends)) == Hashes(spends) && forall s | s in Unique(spends) :: s in spends
    decreases |spends|
  {
    if |spends| > 1 {
      var first, second, rest := spends[0], spends[1], spends[2..];
      assert spends == [first] + ([second] + rest) && spends[1..] == [second] + rest;
      UniqueKeepsHashes(if first.hash == second.hash then [first] + rest else [second] + rest);
      HashesOfFirst(first, rest);
      HashesOfFirst(second, rest);
      HashesOfFirst(first, [second] + rest);
      HashesOfFirst(first, Unique([second] + rest));
    }
  }

  lemma HashesOfFirst(s: BillSpend, rest: seq<BillSpend>)
    ensures Hashes([s] + rest) == {s.hash} + Hashes(rest)
  {
    assert forall x :: x in [s] + rest <==> x == s || x in rest;
  }

  lemma {:induction false} UniqueNeighbours(spends: seq<BillSpend>)
    ensures var w := Unique(spends);
            (spends != [] ==> w != [] && w[0] == spends[0]) && forall i | 0 <= i < |w| - 1 :: w[i].hash != w[i + 1].hash
    decreases |spends|
  {
    if |spends| > 1 {
      UniqueNeighbours(if spends[0].hash == spends[1].hash then [spends[0]] + spends[2..] else spends[1..]);
    }
  }

  method CheckBill(holder: ChainId, purse: nat, credited: real, arrived: Option<nat>, spends: seq<BillSpend>)
    returns (state: BillState)
    ensures var walked := Unique(Sort(spends));
            state == RunAfter(NewRun(holder, purse, credited, arrived), walked, |walked|).st
  {
    var walked := Unique(Sort(spends));
    var run := new BillRun(holder, purse, credited, arrived);
    ghost var start := NewRun(holder, purse, credited, arrived);
    for i := 0 to |walked|
      invariant fresh(run)
      invariant run.Value() == RunAfter(start, walked, i)
    {
      var ok := run.Judge(walked[i]);
      if ok {
        run.Settle(walked[i], NextTimestamp(walked, i));
      }
    }
    assert walked[..|walked|] == walked;
    state := run.st;
  }

  // Spends already in order, each block once, are walked as given.
  lemma {:induction false} SortedIsWalkedAsGiven(spends: seq<BillSpend>)
    requires InBranchOrder(spends) && DistinctHashes(spends)
    ensures Unique(Sort(spends)) == spends
  {
    SortKeepsOrder(spends);
    UniqueKeepsDistinct(spends);
  }

  lemma {:induction false} SortKeepsOrder(spends: seq<BillSpend>)
    requires InBranchOrder(spends)
    ensures Sort(spends) == spends
  {
    if spends != [] {
      SortKeepsOrder(spends[1..]);
      assert spends == [spends[0]] + spends[1..];
      if |spends| > 1 { assert SpendBefore(spends[0], spends[1]); }
    }
  }

  lemma {:induction false} UniqueKeepsDistinct(spends: seq<BillSpend>)
    requires DistinctHashes(spends)
    ensures Unique(spends) == spends
  {
    if |spends| > 1 {
      assert spends == [spends[0]] + spends[1..];
      UniqueKeepsDistinct(spends[1..]);
    }
  }

  // ---------- What the walk of a bill means ----------

  // The rules of a spend that look at the block and at the spend before it only.
  predicate OnTheThread(holder: ChainId, purse: nat, arrived: Option<nat>, spends: seq<BillSpend>, k: nat)
    requires k < |spends|
  {
    var s := spends[k];
    && !s.frozen && s.node == purse && (arrived.Some? ==> s.index > arrived.value)
    && s.prev == if k == 0 then None else Some(Ref(holder, spends[k - 1].hash))
  }

  // The hours the first k spends hold.
  function HeldBefore(spends: seq<BillSpend>, k: nat): real
    requires k <= |spends|
  {
    if k == 0 then 0.0 else HeldBefore(spends, k - 1) + HeldUnits(spends[k - 1], NextTimestamp(spends, k - 1))
  }

  // On the thread, and covered by what the spends before it left.
  ghost predicate SoundAt(r: Run, spends: seq<BillSpend>, k: nat)
    requires k < |spends|
  {
    && OnTheThread(r.holder, r.purse, r.arrived, spends, k)
    && spends[k].units <= r.st.credited - HeldBefore(spends, k) + TOLERANCE
  }

  // Every spend up to and with the k-th is sound.
  ghost predicate SoundThrough(r: Run, spends: seq<BillSpend>, k: int)
    requires k < |spends|
  {
    forall j: nat | j <= k :: SoundAt(r, spends, j)
  }

  function Hashes(spends: seq<BillSpend>): set<Hash> {
    set s | s in spends :: s.hash
  }

  ghost predicate RunMeans(start: Run, spends: seq<BillSpend>, k: nat, m: nat)
    requires m <= k <= |spends|
  {
    var r := RunAfter(start, spends, k);
    && r == Run(start.holder, start.purse, start.arrived, r.last, m < k, r.st)
    && r.st.credited == start.st.credited
    && r.st.consumed == HeldBefore(spends, m)
    && r.st.backed == Hashes(spends[0..m]) && r.st.unbacked == Hashes(spends[m..k])
    && (m == k ==> r.last == if k == 0 then None else Some(spends[k - 1].hash))
    && SoundThrough(start, spends, m - 1) && (m < k ==> !SoundThrough(start, spends, m))
  }

  // The backed spends are the longest sound prefix; they alone consume the bill.
  lemma {:induction false} BillMeaning(holder: ChainId, purse: nat, credited: real, arrived: Option<nat>,
                                       spends: seq<BillSpend>, k: nat) returns (m: nat)
    requires DistinctHashes(spends) && k <= |spends|
    ensures m <= k && RunMeans(NewRun(holder, purse, credited, arrived), spends, k, m)
  {
    if k == 0 {
      m := 0;
    } else {
      m := BillMeaning(holder, purse, credited, arrived, spends, k - 1);
      m := BillMeaningStep(NewRun(holder, purse, credited, arrived), spends, k, m);
    }
  }

  lemma {:induction false} BillMeaningStep(start: Run, spends: seq<BillSpend>, k: nat, m: nat) returns (m': nat)
    requires DistinctHashes(spends) && 0 < k <= |spends| && m <= k - 1
    requires RunMeans(start, spends, k - 1, m)
    ensures m' <= k && RunMeans(start, spends, k, m')
  {
    hide RunMeans, Taken, DistinctHashes;
    FitIsSound(start, spends, k, m);
    if Fits(RunAfter(start, spends, k - 1), spends[k - 1]) {
      FitStep(start, spends, k);
      m' := k;
    } else {
      UnfitStep(start, spends, k, m);
      m' := m;
    }
  }

  lemma FitStep(start: Run, spends: seq<BillSpend>, k: nat)
    requires 0 < k <= |spends| && RunMeans(start, spends, k - 1, k - 1)
    requires Fits(RunAfter(start, spends, k - 1), spends[k - 1]) && SoundAt(start, spends, k - 1)
    ensures RunMeans(start, spends, k, k)
  {
    hide HeldUnits, Dead, OnTheThread, Fits, FaultOf;
    HashesOfOneMore(spends, 0, k);
    assert spends[k..k] == [] && spends[k - 1..k - 1] == [];
  }

  lemma UnfitStep(start: Run, spends: seq<BillSpend>, k: nat, m: nat)
    requires 0 < k <= |spends| && m <= k - 1 && RunMeans(start, spends, k - 1, m)
    requires !Fits(RunAfter(start, spends, k - 1), spends[k - 1]) && !(m == k - 1 && SoundAt(start, spends, k - 1))
    ensures RunMeans(start, spends, k, m)
  {
    hide HeldUnits, Dead, OnTheThread, Fits, FaultOf;
    HashesOfOneMore(spends, m, k);
  }

  // While the thread is whole, a spend fits exactly when it is sound.
  lemma FitIsSound(start: Run, spends: seq<BillSpend>, k: nat, m: nat)
    requires 0 < k <= |spends| && m <= k - 1 && RunMeans(start, spends, k - 1, m)
    ensures Fits(RunAfter(start, spends, k - 1), spends[k - 1]) <==> m == k - 1 && SoundAt(start, spends, k - 1)
  {
    hide HeldUnits, Dead, Hashes;
  }

  lemma HashesOfOneMore(spends: seq<BillSpend>, m: nat, k: nat)
    requires m < k <= |spends|
    ensures Hashes(spends[m..k]) == Hashes(spends[m..k - 1]) + {spends[k - 1].hash}
  {
    assert spends[m..k] == spends[m..k - 1] + [spends[k - 1]];
  }

  // A spend is backed exactly when everything up to it is sound.
  lemma {:induction false} BackedExactlyWhenSound(holder: ChainId, purse: nat, credited: real, arrived: Option<nat>,
                                                  spends: seq<BillSpend>, k: nat)
    requires DistinctHashes(spends) && k < |spends|
    ensures var start := NewRun(holder, purse, credited, arrived);
            var st := RunAfter(start, spends, |spends|).st;
            && (spends[k].hash in st.backed <==> SoundThrough(start, spends, k))
            && (spends[k].hash in st.unbacked <==> !SoundThrough(start, spends, k))
  {
    var start := NewRun(holder, purse, credited, arrived);
    var m := BillMeaning(holder, purse, credited, arrived, spends, |spends|);
    if k < m {
      assert spends[k] in spends[0..m];
    } else {
      assert spends[k] in spends[m..|spends|];
    }
  }

  // A bill never gives out more than came, up to the tolerance of one comparison.
  lemma {:induction false} NeverOverdrawn(holder: ChainId, purse: nat, credited: real, arrived: Option<nat>,
                                          spends: seq<BillSpend>)
    requires DistinctHashes(spends) && credited >= 0.0
    requires forall s | s in spends :: s.units >= 0.0
    ensures var st := RunAfter(NewRun(holder, purse, credited, arrived), spends, |spends|).st;
            0.0 <= st.consumed <= credited + TOLERANCE
  {
    var start := NewRun(holder, purse, credited, arrived);
    var m := BillMeaning(holder, purse, credited, arrived, spends, |spends|);
    HeldIsCovered(start, spends, m);
  }

  lemma {:induction false} HeldIsCovered(start: Run, spends: seq<BillSpend>, m: nat)
    requires m <= |spends| && SoundThrough(start, spends, m - 1) && start.st.credited >= 0.0
    requires forall s | s in spends :: s.units >= 0.0
    ensures 0.0 <= HeldBefore(spends, m) <= start.st.credited + TOLERANCE
  {
    if m > 0 {
      assert SoundAt(start, spends, m - 1) && spends[m - 1] in spends;
      HeldIsCovered(start, spends, m - 1);
    }
  }

  // The fault told is that of the first spend that does not fit, and of its faults the first in this
  // order: a frozen deposit, another purse, before the paper was accepted, a previous spend named or
  // not named, too much.
  lemma {:induction false} FirstFaultIsTold(start: Run, spends: seq<BillSpend>, n: nat, k: nat)
    requires n < k <= |spends| && !RunAfter(start, spends, n).broken && !Fits(RunAfter(start, spends, n), spends[n])
    ensures var r, s, told := RunAfter(start, spends, n), spends[n], RunAfter(start, spends, k).st.fault;
            && RunAfter(start, spends, k).broken && told.Some?
            && (told == Some(DepositIsFrozen) <==> s.frozen)
            && (told == Some(WrongPurse) <==> !s.frozen && s.node != r.purse)
            && (told == Some(BeforeArrival) <==>
                  !s.frozen && s.node == r.purse && r.arrived.Some? && s.index <= r.arrived.value)
            && (told == Some(FirstNamesPrevious) ==> r.last.None? && s.prev.Some?)
            && (told == Some(ThreadBroken) ==> r.last.Some? && s.prev != Some(Ref(r.holder, r.last.value)))
            && (told == Some(Overdrawn) ==>
                  && s.prev == (if r.last.None? then None else Some(Ref(r.holder, r.last.value)))
                  && s.units > r.st.credited - r.st.consumed + 0.000000001)
  {
    if n + 1 < k { FirstFaultIsTold(start, spends, n, k - 1); }
  }

  // A reader may pass a prefix: the verdicts on its spends do not change.
  lemma {:induction false} PrefixVerdictsStand(holder: ChainId, purse: nat, credited: real, arrived: Option<nat>,
                                               spends: seq<BillSpend>, n: nat, k: nat)
    requires DistinctHashes(spends) && k < n <= |spends|
    ensures var start := NewRun(holder, purse, credited, arrived);
            spends[k].hash in RunAfter(start, spends[..n], n).st.backed <==>
            spends[k].hash in RunAfter(start, spends, |spends|).st.backed
  {
    var start := NewRun(holder, purse, credited, arrived);
    BackedExactlyWhenSound(holder, purse, credited, arrived, spends, k);
    BackedExactlyWhenSound(holder, purse, credited, arrived, spends[..n], k);
    forall j: nat | j <= k
      ensures SoundAt(start, spends[..n], j) <==> SoundAt(start, spends, j)
    {
      HeldOfPrefix(spends, n, j);
    }
  }

  lemma {:induction false} HeldOfPrefix(spends: seq<BillSpend>, n: nat, j: nat)
    requires j < n <= |spends|
    ensures HeldBefore(spends[..n], j) == HeldBefore(spends, j)
  {
    if j > 0 {
      HeldOfPrefix(spends, n, j - 1);
      assert NextTimestamp(spends[..n], j - 1) == NextTimestamp(spends, j - 1);
    }
  }
}
