// When an unanswered offer has lapsed for good: no block of the seller's purse that is yet to
// come can answer it (aggregator/recognition).
module Lapse {
  import opened Options
  import opened Settlement
  import opened Witnesses

  // A reply inside a block of the purse.
  datatype Word = Word(deal: Ref, accepted: bool, timestamp: int)

  datatype PurseBlock = PurseBlock(claimed: int, word: Option<Word>)

  // The blocks of the seller's purse on the table, by position; one block a position.
  type Purse = map<nat, PurseBlock>

  function Max(a: int, b: int): int { if a < b then b else a }

  // The latest date claimed at a position below n.
  function Latest(p: Purse, n: nat): Option<int> {
    if n == 0 then None
    else if n - 1 !in p then Latest(p, n - 1)
    else match Latest(p, n - 1)
      case None => Some(p[n - 1].claimed)
      case Some(t) => Some(Max(t, p[n - 1].claimed))
  }

  // Time in a branch only goes forward: the date of a position is the latest claimed up to it.
  function Since(p: Purse, i: nat): (t: int)
    requires i in p
    ensures t >= p[i].claimed
  {
    Latest(p, i + 1).value
  }

  predicate Names(p: Purse, i: nat, deal: Ref) {
    i in p && p[i].word.Some? && p[i].word.value.deal == deal
  }

  ghost predicate FirstWord(p: Purse, i: nat, deal: Ref) {
    Names(p, i, deal) && forall j: nat | j < i :: !Names(p, j, deal)
  }

  predicate InTime(p: Purse, i: nat, until: int)
    requires i in p && p[i].word.Some?
  {
    Max(p[i].word.value.timestamp, Since(p, i)) <= until
  }

  // The purse accepts or refuses the offer by its term.
  ghost predicate Answers(p: Purse, deal: Ref, until: int) {
    exists i :: FirstWord(p, i, deal) && InTime(p, i, until)
  }

  // ---------- The answer as the judge of replies finds it ----------

  // The replies on the table of which those of the purse are the words of its blocks.
  ghost predicate Lists(deal: Transfer, dealRef: Ref, replies: seq<ObservedReply>, p: Purse) {
    && (forall k | 0 <= k < |replies| && FromThePurse(deal, dealRef, replies[k]) ::
          var r := replies[k];
          r.index >= 0 && Names(p, r.index, dealRef) && r.timestamp == p[r.index].word.value.timestamp &&
          r.accepted == p[r.index].word.value.accepted && r.since == Since(p, r.index))
    && forall i | Names(p, i, dealRef) ::
         exists k :: 0 <= k < |replies| && FromThePurse(deal, dealRef, replies[k]) && replies[k].index == i
  }

  // The judge answers exactly when the purse does.
  lemma JudgedAsThePurse(deal: Transfer, dealRef: Ref, replies: seq<ObservedReply>, p: Purse)
    requires Lists(deal, dealRef, replies, p) && deal.until.Some?
    ensures Answers(p, dealRef, deal.until.value) <==>
            exists k: nat :: IsFirstWord(deal, dealRef, replies, k) && !Late(deal, replies[k])
  {
    var until := deal.until.value;
    if i: nat :| FirstWord(p, i, dealRef) && InTime(p, i, until) {
      var k := FirstListed(deal, dealRef, replies, i, |replies|);
      assert IsFirstWord(deal, dealRef, replies, k);
    }
    if k: nat :| IsFirstWord(deal, dealRef, replies, k) && !Late(deal, replies[k]) {
      var i: nat := replies[k].index;
      assert FirstWord(p, i, dealRef) && InTime(p, i, until);
    }
  }

  // The first of the replies listed for a position.
  lemma {:induction false} FirstListed(deal: Transfer, dealRef: Ref, replies: seq<ObservedReply>, i: nat, n: nat)
    returns (k: nat)
    requires n <= |replies|
    requires exists k :: 0 <= k < n && FromThePurse(deal, dealRef, replies[k]) && replies[k].index == i
    ensures k < n && FromThePurse(deal, dealRef, replies[k]) && replies[k].index == i
    ensures forall j | 0 <= j < k :: !(FromThePurse(deal, dealRef, replies[j]) && replies[j].index == i)
  {
    if exists k :: 0 <= k < n - 1 && FromThePurse(deal, dealRef, replies[k]) && replies[k].index == i {
      k := FirstListed(deal, dealRef, replies, i, n - 1);
    } else {
      k := n - 1;
    }
  }

  // ---------- What can still come ----------

  // Later blocks take free positions.
  ghost predicate Extends(p: Purse, q: Purse) {
    forall i | i in p :: i in q && q[i] == p[i]
  }

  ghost predicate Final(p: Purse, deal: Ref, until: int) {
    forall q | Extends(p, q) :: !Answers(q, deal, until)
  }

  // Nothing is missing up to the position.
  ghost predicate Whole(p: Purse, i: nat) {
    forall j: nat | j <= i :: j in p
  }

  // A position past which any answer is late, with the whole purse before it.
  ghost predicate PointOfNoReturn(p: Purse, i: nat, deal: Ref, until: int) {
    Whole(p, i) && (Names(p, i, deal) || Since(p, i) > until)
  }

  lemma {:induction false} LatestGrows(p: Purse, n: nat, m: nat)
    requires n <= m
    ensures Latest(p, n).Some? ==> Latest(p, m).Some? && Latest(p, n).value <= Latest(p, m).value
  {
    if n < m { LatestGrows(p, n, m - 1); }
  }

  lemma {:induction false} SameBelow(p: Purse, q: Purse, n: nat)
    requires forall j: nat | j < n :: (j in p <==> j in q) && (j in p ==> p[j] == q[j])
    ensures Latest(p, n) == Latest(q, n)
  {
    if n > 0 { SameBelow(p, q, n - 1); }
  }

  lemma NoReturn(p: Purse, i: nat, deal: Ref, until: int, q: Purse)
    requires PointOfNoReturn(p, i, deal, until) && !Answers(p, deal, until) && Extends(p, q)
    ensures !Answers(q, deal, until)
  {
    assert forall j: nat | j <= i :: j in p && q[j] == p[j] && (Names(p, j, deal) <==> Names(q, j, deal));
    if k: nat :| FirstWord(q, k, deal) && InTime(q, k, until) {
      if k <= i {
        SameBelow(p, q, k + 1);
        assert FirstWord(p, k, deal) && InTime(p, k, until);
        assert false;
      } else {
        assert !Names(q, i, deal);
        SameBelow(p, q, i + 1);
        LatestGrows(q, i + 1, k + 1);
        assert false;
      }
    }
  }

  // The least position that is missing, or none below n.
  lemma {:induction false} FirstMissing(p: Purse, n: nat) returns (i: nat)
    requires n !in p
    ensures i !in p && forall j: nat | j < i :: j in p
    decreases n
  {
    if j: nat :| j < n && j !in p {
      i := FirstMissing(p, j);
    } else {
      i := n;
    }
  }

  lemma {:induction false} Bounded(keys: set<nat>) returns (n: nat)
    ensures forall j | j in keys :: j < n
  {
    if keys == {} {
      n := 0;
    } else {
      var k :| k in keys;
      var m := Bounded(keys - {k});
      n := if k < m then m else k + 1;
      assert forall j | j in keys :: j == k || j in keys - {k};
    }
  }

  // A block at the first missing position answers in time, unless there is no return before it.
  lemma CanStillAnswer(p: Purse, i: nat, deal: Ref, until: int) returns (q: Purse)
    requires i !in p && forall j: nat | j < i :: j in p && !PointOfNoReturn(p, j, deal, until)
    ensures Extends(p, q) && Answers(q, deal, until)
  {
    q := p[i := PurseBlock(until, Some(Word(deal, true, until)))];
    SameBelow(p, q, i);
    forall j: nat | j < i ensures !Names(p, j, deal) && Since(p, j) <= until {
      assert Whole(p, j);
    }
    if i > 0 { assert Since(p, i - 1) <= until; }
    assert FirstWord(q, i, deal) && InTime(q, i, until);
  }

  // An unanswered offer has lapsed for good exactly when there is a point of no return.
  lemma LapseIsFinalExactly(p: Purse, deal: Ref, until: int)
    requires !Answers(p, deal, until)
    ensures Final(p, deal, until) <==> exists i :: PointOfNoReturn(p, i, deal, until)
  {
    if i: nat :| PointOfNoReturn(p, i, deal, until) {
      forall q | Extends(p, q) ensures !Answers(q, deal, until) { NoReturn(p, i, deal, until, q); }
    } else {
      var n := Bounded(p.Keys);
      var i := FirstMissing(p, n);
      var q := CanStillAnswer(p, i, deal, until);
      assert !Final(p, deal, until);
    }
  }

  // ---------- How the table tells ----------

  datatype Level = Unsure | Seen | Witnessed

  // What the table looks replies up by: the hash alone.
  predicate Mentions(p: Purse, i: nat, deal: Ref) {
    i in p && p[i].word.Some? && p[i].word.value.deal.hash == deal.hash
  }

  predicate Marks(p: Purse, i: nat, deal: Ref, until: int) {
    i in p && (Mentions(p, i, deal) || Since(p, i) > until)
  }

  // The point the table looks at: the first reply found by hash, or the first date past the
  // term, whichever is earlier.
  ghost predicate IsPoint(p: Purse, i: nat, deal: Ref, until: int) {
    Marks(p, i, deal, until) && forall j: nat | j < i :: !Marks(p, j, deal, until)
  }

  // A position and the date it carries.
  datatype Entry = Entry(index: nat, date: int)

  ghost predicate Sorted(v: seq<Entry>) {
    forall i, j | 0 <= i < j < |v| :: v[i].index < v[j].index
  }

  ghost predicate Has(v: seq<Entry>, i: nat) {
    exists k :: 0 <= k < |v| && v[k].index == i
  }

  // The dates of the purse by position.
  ghost predicate Dates(p: Purse, v: seq<Entry>) {
    && Sorted(v)
    && (forall k | 0 <= k < |v| :: v[k].index in p && v[k].date == Since(p, v[k].index))
    && forall i | i in p :: Has(v, i)
  }

  method InsertAt(v: seq<Entry>, x: Entry) returns (out: seq<Entry>)
    requires Sorted(v) && !Has(v, x.index)
    ensures Sorted(out) && forall y :: y in out <==> y in v || y == x
  {
    var at: nat := |v|;
    while at > 0 && v[at - 1].index > x.index
      invariant at <= |v| && forall j | at <= j < |v| :: x.index < v[j].index
    {
      at := at - 1;
    }
    out := v[..at] + [x] + v[at..];
    InsertedHolds(v, x, at);
    if at > 0 { assert Has(v, v[at - 1].index); }
  }

  lemma InsertedHolds(v: seq<Entry>, x: Entry, at: nat)
    requires at <= |v|
    ensures forall y :: y in v[..at] + [x] + v[at..] <==> y in v || y == x
  {
    assert v == v[..at] + v[at..];
  }

  // Blocks in any order, sorted by position, each with the date it claims.
  method Stamp(p: Purse, scan: seq<nat>) returns (v: seq<Entry>)
    requires forall i, j | 0 <= i < j < |scan| :: scan[i] != scan[j]
    requires forall i :: i in scan <==> i in p
    ensures Sorted(v) && forall y :: y in v <==> y.index in p && y.date == p[y.index].claimed
  {
    v := [];
    for k := 0 to |scan|
      invariant Sorted(v)
      invariant forall y :: y in v <==> y.index in scan[..k] && y.index in p && y.date == p[y.index].claimed
    {
      assert scan[k] in p && scan[..k + 1] == scan[..k] + [scan[k]];
      v := InsertAt(v, Entry(scan[k], p[scan[k]].claimed));
    }
    assert scan[..|scan|] == scan;
  }

  ghost predicate Claims(p: Purse, v: seq<Entry>) {
    && Sorted(v)
    && (forall k | 0 <= k < |v| :: v[k].index in p && v[k].date == p[v[k].index].claimed)
    && forall i | i in p :: Has(v, i)
  }

  lemma StampsAreClaims(p: Purse, v: seq<Entry>)
    requires Sorted(v) && forall y :: y in v <==> y.index in p && y.date == p[y.index].claimed
    ensures Claims(p, v)
  {
    forall i | i in p ensures Has(v, i) {
      assert Entry(i, p[i].claimed) in v;
    }
    assert forall k | 0 <= k < |v| :: v[k] in v;
  }

  // Then every date is raised to the latest before it.
  method BranchTime(p: Purse, scan: seq<nat>) returns (v: seq<Entry>)
    requires forall i, j | 0 <= i < j < |scan| :: scan[i] != scan[j]
    requires forall i :: i in scan <==> i in p
    ensures Dates(p, v)
  {
    v := Stamp(p, scan);
    StampsAreClaims(p, v);
    v := Raise(p, v);
  }

  method Raise(p: Purse, raw: seq<Entry>) returns (v: seq<Entry>)
    requires Claims(p, raw)
    ensures Dates(p, v)
  {
    hide Since, Has;
    v := raw;
    for k := 0 to |v|
      invariant |v| == |raw|
      invariant forall j | 0 <= j < |v| :: v[j].index == raw[j].index
      invariant forall j | k <= j < |v| :: v[j].date == p[raw[j].index].claimed
      invariant forall j | 0 <= j < k :: v[j].date == Since(p, raw[j].index)
    {
      LatestOf(p, raw, k);
      if k > 0 { v := v[k := Entry(v[k].index, Max(v[k].date, v[k - 1].date))]; }
    }
    HasTheSame(raw, v);
  }

  lemma HasTheSame(raw: seq<Entry>, v: seq<Entry>)
    requires |v| == |raw| && forall j | 0 <= j < |v| :: v[j].index == raw[j].index
    ensures forall i :: Has(raw, i) ==> Has(v, i)
  {
    forall i | Has(raw, i) ensures Has(v, i) {
      var k :| 0 <= k < |raw| && raw[k].index == i;
      assert v[k].index == i;
    }
  }

  // Between neighbours in the list nothing is claimed.
  lemma LatestOf(p: Purse, v: seq<Entry>, k: nat)
    requires Claims(p, v) && k < |v|
    ensures Since(p, v[k].index) == if k == 0 then v[k].date else Max(v[k].date, Since(p, v[k - 1].index))
  {
    var from := if k == 0 then 0 else v[k - 1].index + 1;
    forall i: nat | from <= i < v[k].index ensures i !in p {
      assert i in p ==> Has(v, i);
    }
    NothingClaimed(p, from, v[k].index);
  }

  lemma {:induction false} NothingClaimed(p: Purse, a: nat, b: nat)
    requires a <= b && forall i: nat | a <= i < b :: i !in p
    ensures Latest(p, a) == Latest(p, b)
  {
    if a < b { NothingClaimed(p, a, b - 1); }
  }

  // The first of the replies found by hash.
  method FirstMention(p: Purse, v: seq<Entry>, deal: Ref) returns (point: Option<nat>)
    requires Dates(p, v)
    ensures point.Some? ==> Mentions(p, point.value, deal)
    ensures forall i | Mentions(p, i, deal) :: point.Some? && point.value <= i
  {
    point := None;
    for k := 0 to |v|
      invariant point.Some? ==> Mentions(p, point.value, deal)
      invariant forall j | 0 <= j < k && Mentions(p, v[j].index, deal) :: point.Some? && point.value <= v[j].index
    {
      if Mentions(p, v[k].index, deal) && (point.None? || v[k].index < point.value) { point := Some(v[k].index); }
    }
    forall i | Mentions(p, i, deal) ensures point.Some? && point.value <= i {
      assert Has(v, i);
    }
  }

  // The first position dated past the term.
  method FirstPast(p: Purse, v: seq<Entry>, until: int) returns (past: nat)
    requires Dates(p, v)
    ensures past <= |v| && (past < |v| ==> v[past].date > until)
    ensures forall i | i in p && Since(p, i) > until :: past < |v| && v[past].index <= i
  {
    past := 0;
    while past < |v| && v[past].date <= until
      invariant past <= |v| && forall j | 0 <= j < past :: v[j].date <= until
    {
      past := past + 1;
    }
    forall i | i in p && Since(p, i) > until ensures past < |v| && v[past].index <= i {
      assert Has(v, i);
    }
  }

  // The verdict on an unanswered offer, given the merges that fix the purse.
  method LapseLevel(p: Purse, v: seq<Entry>, deal: Ref, until: int,
                    fixes: seq<Fix>, ghost s: seq<Fix>, w: seq<Fix>) returns (level: Level)
    requires Dates(p, v) && Raised(fixes, s, w)
    ensures level != Unsure <==> exists i :: IsPoint(p, i, deal, until) && Whole(p, i)
    ensures level == Witnessed <==>
            exists i: nat, f | f in fixes :: IsPoint(p, i, deal, until) && Whole(p, i) && i <= f.index
  {
    hide Since, Mentions, Raised;
    var point := FirstMention(p, v, deal);
    var past := FirstPast(p, v, until);
    if past < |v| && (point.None? || v[past].index < point.value) { point := Some(v[past].index); }
    level := Unsure;
    if point.None? {
      assert forall i :: !Marks(p, i, deal, until);
      return;
    }
    assert IsPoint(p, point.value, deal, until);
    assert forall i | IsPoint(p, i, deal, until) :: i == point.value;
    var at: nat := 0;
    while at < |v| && v[at].index < point.value
      invariant at <= |v| && forall j | 0 <= j < at :: v[j].index < point.value
    {
      at := at + 1;
    }
    RankIsPosition(p, v, at, point.value);
    if at < |v| && v[at].index == point.value && at == point.value {
      var fixed := WitnessedAt(fixes, s, w, point.value);
      level := if fixed.Some? then Witnessed else Seen;
    }
  }

  lemma {:induction false} Ascends(v: seq<Entry>, i: nat, j: nat)
    requires Sorted(v) && i <= j < |v|
    ensures v[j].index - v[i].index >= j - i
  {
    if i < j { Ascends(v, i, j - 1); }
  }

  lemma {:induction false} WholeFrom(p: Purse, v: seq<Entry>, n: nat)
    requires Dates(p, v) && Whole(p, n)
    ensures n < |v| && v[n].index == n
  {
    hide Since;
    if n > 0 { WholeFrom(p, v, n - 1); }
    assert Has(v, n);
    var k: nat :| k < |v| && v[k].index == n;
    Ascends(v, 0, k);
    if k < n {
      WholeFrom(p, v, k);
      assert false;
    }
    Ascends(v, n, k);
    Ascends(v, 0, n);
  }

  // Ascending positions: none is missing before one exactly when it stands at its own place.
  lemma RankIsPosition(p: Purse, v: seq<Entry>, at: nat, point: nat)
    requires Dates(p, v) && at <= |v| && point in p
    requires forall j | 0 <= j < at :: v[j].index < point
    requires at < |v| ==> v[at].index >= point
    ensures (at < |v| && v[at].index == point && at == point) <==> Whole(p, point)
  {
    hide Since;
    if Whole(p, point) {
      WholeFrom(p, v, point);
      if at < point { WholeFrom(p, v, at); }
    }
    if at < |v| && v[at].index == point && at == point {
      forall j: nat | j <= point ensures j in p {
        Ascends(v, 0, j);
        Ascends(v, j, point);
      }
    }
  }

  // ---------- Seen and final ----------

  // What has lapsed for good is seen to have lapsed.
  lemma FinalIsSeen(p: Purse, deal: Ref, until: int, i: nat)
    requires PointOfNoReturn(p, i, deal, until)
    ensures exists j :: IsPoint(p, j, deal, until) && Whole(p, j)
  {
    var j := FirstMark(p, deal, until, i);
    assert IsPoint(p, j, deal, until) && Whole(p, j);
  }

  lemma {:induction false} FirstMark(p: Purse, deal: Ref, until: int, i: nat) returns (j: nat)
    requires Marks(p, i, deal, until)
    ensures j <= i && IsPoint(p, j, deal, until)
    decreases i
  {
    if k: nat :| k < i && Marks(p, k, deal, until) {
      j := FirstMark(p, deal, until, k);
    } else {
      j := i;
    }
  }

  // No reply names another chain's deal of the same hash.
  ghost predicate InFull(p: Purse, deal: Ref) {
    forall i | Mentions(p, i, deal) :: Names(p, i, deal)
  }

  // While replies name the deal in full, seen and final are one.
  lemma SeenIsFinal(p: Purse, deal: Ref, until: int)
    requires !Answers(p, deal, until) && InFull(p, deal)
    ensures (exists i :: IsPoint(p, i, deal, until) && Whole(p, i)) <==> Final(p, deal, until)
  {
    LapseIsFinalExactly(p, deal, until);
    if i: nat :| PointOfNoReturn(p, i, deal, until) { FinalIsSeen(p, deal, until, i); }
    if i: nat :| IsPoint(p, i, deal, until) && Whole(p, i) { assert PointOfNoReturn(p, i, deal, until); }
  }

  // A reply that names the hash under another chain makes an offer look lapsed that can
  // still be accepted.
  lemma StrayReplyMisleads()
    ensures var p: Purse := map[0 := PurseBlock(5, Some(Word(Ref(8, 1), true, 5)))];
            var deal := Ref(7, 1);
            && !Answers(p, deal, 10)
            && IsPoint(p, 0, deal, 10) && Whole(p, 0) && !Final(p, deal, 10)
  {
    var p: Purse := map[0 := PurseBlock(5, Some(Word(Ref(8, 1), true, 5)))];
    var deal := Ref(7, 1);
    assert Latest(p, 1) == Some(5);
    assert forall j :: !PointOfNoReturn(p, j, deal, 10) by {
      forall j: nat ensures !PointOfNoReturn(p, j, deal, 10) {
        assert Whole(p, j) ==> j in p;
      }
    }
    assert forall i :: !FirstWord(p, i, deal);
    LapseIsFinalExactly(p, deal, 10);
  }
}
