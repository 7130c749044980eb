// Revocations heard one by one, in any order and any number of times, come to what the
// storage-wide search finds.
module RevocationFold {
  import opened Options
  import opened Blocks
  import opened KeyTree
  import opened Revocations
  import BranchKeys

  function PositionOf(b: Block): Position { Position(b.address.node, b.address.index) }

  predicate IsWord(s: Store, target: nat, b: Block) {
    && BlockAt(s, PositionOf(b)) == Some(b) && Above(b.address.node, target)
    && b.body.Revocation? && b.body.word.Some? && b.body.word.value.revoked == target
  }

  ghost predicate AllWords(s: Store, target: nat, heard: seq<Block>) {
    forall i | 0 <= i < |heard| :: IsWord(s, target, heard[i])
  }

  // What the aggregator holds of a branch after hearing these words.
  function HeardAll(heard: seq<Block>): Option<BranchKeys.Standing>
    requires forall i | 0 <= i < |heard| :: heard[i].body.Revocation? && heard[i].body.word.Some?
  {
    if heard == [] then None
    else Some(BranchKeys.Heard(HeardAll(heard[..|heard| - 1]), BranchKeys.Word(heard[|heard| - 1])))
  }

  function Positions(heard: seq<Block>): set<Position> {
    set i | 0 <= i < |heard| :: PositionOf(heard[i])
  }

  function StandingOf(s: Store, target: nat, last: Position, earliest: Position): BranchKeys.Standing
    requires WordOn(s, target, last).Some? && WordOn(s, target, earliest).Some?
  {
    var replacement := WordOn(s, target, last).value.replacement;
    BranchKeys.Standing(Depth(last.node), last.index, WordOn(s, target, earliest).value.since, replacement,
                        if replacement.Some? then [replacement.value] else [])
  }

  // One more word, heard before or not.
  lemma HearOne(s: Store, target: nat, words: set<Position>, last: Position, earliest: Position, b: Block)
    returns (last': Position, earliest': Position)
    requires AreWords(s, target, words) && Decides(s, target, words, last, earliest) && IsWord(s, target, b)
    ensures Decides(s, target, words + {PositionOf(b)}, last', earliest')
    ensures BranchKeys.Heard(Some(StandingOf(s, target, last, earliest)), BranchKeys.Word(b)) ==
            StandingOf(s, target, last', earliest')
  {
    var p := PositionOf(b);
    last', earliest' := last, earliest;
    if Depth(p.node) == Depth(last.node) { OneAncestorADepth(p.node, last.node, target); }
    if Depth(p.node) < Depth(last.node) {
      last', earliest' := p, p;
    } else if Depth(p.node) == Depth(last.node) {
      if p.index > last.index { last' := p; }
      if b.body.word.value.since < WordOn(s, target, earliest).value.since { earliest' := p; }
      assert p.index == last.index ==> p == last;
    }
  }

  lemma {:induction false} FoldDecides(s: Store, target: nat, heard: seq<Block>)
      returns (last: Position, earliest: Position)
    requires AllWords(s, target, heard) && heard != []
    ensures AreWords(s, target, Positions(heard)) && Decides(s, target, Positions(heard), last, earliest)
    ensures HeardAll(heard) == Some(StandingOf(s, target, last, earliest))
  {
    var n := |heard| - 1;
    var less, b := heard[..n], heard[n];
    assert IsWord(s, target, b);
    assert Positions(heard) == Positions(less) + {PositionOf(b)};
    if n == 0 {
      last, earliest := PositionOf(b), PositionOf(b);
      assert Positions(less) == {};
    } else {
      last, earliest := FoldDecides(s, target, less);
      last, earliest := HearOne(s, target, Positions(less), last, earliest, b);
    }
  }

  // The standing word of a branch, and the state the search gives it, say the same.
  predicate SaySame(r: Option<BranchKeys.Standing>, st: Option<State>) {
    if r.None? then st.None?
    else st.Some? && r.value.since == st.value.since && r.value.replacement == st.value.replacement &&
         r.value.depth == Depth(st.value.latest.node) && r.value.block == st.value.latest.index
  }

  // In whatever order and however often the words that count are heard.
  lemma FoldIsEffective(s: Store, target: nat, heard: seq<Block>)
    requires AllWords(s, target, heard) && Positions(heard) == Counted(s, target)
    ensures SaySame(HeardAll(heard), Effective(s, target))
  {
    hide WordOn, Counted;
    CountedAreWords(s, target);
    DecisionExists(s, target, Counted(s, target));
    if heard != [] {
      var last, earliest := FoldDecides(s, target, heard);
      DecisionIs(s, target, Positions(heard), last, earliest);
    }
  }

  // The words on a node by its ancestors, whether or not they count.
  function Words(s: Store, target: nat): set<Position> {
    set pos | pos in Listed(s, target) && Above(pos.node, target) && WordOn(s, target, pos).Some?
  }

  // Of the highest author who said a word at all, the last word counts, and so does one that
  // names his earliest compromise.
  ghost predicate DecisiveWordsCount(s: Store, target: nat, last: Position, earliest: Position, counted: Position) {
    && Decides(s, target, Words(s, target), last, earliest) && last in Counted(s, target)
    && counted in Counted(s, target) && counted.node == last.node
    && WordOn(s, target, counted).Some? &&
       WordOn(s, target, counted).value.since == WordOn(s, target, earliest).value.since
  }

  lemma CountedIsWords(s: Store, target: nat)
    ensures Counted(s, target) <= Words(s, target) && AreWords(s, target, Words(s, target))
  {
  }

  // Hearing all the words on a branch, in any order and however often, gives what the search
  // gives exactly when there is none, or the decisive ones count.
  lemma HearingAllIsEffective(s: Store, target: nat, heard: seq<Block>)
    requires AllWords(s, target, heard) && Positions(heard) == Words(s, target)
    ensures SaySame(HeardAll(heard), Effective(s, target)) <==>
            heard == [] || exists last, earliest, counted :: DecisiveWordsCount(s, target, last, earliest, counted)
  {
    hide WordOn, Words, Counted;
    CountedIsWords(s, target);
    if heard == [] {
      FoldIsEffective(s, target, heard);
    } else {
      var last, earliest := FoldDecides(s, target, heard);
      SameIffDecisiveCount(s, target, last, earliest);
      forall l, e, c | DecisiveWordsCount(s, target, l, e, c) ensures DecisiveWordsCount(s, target, last, earliest, c) {
        OneDecision(s, target, Words(s, target), last, earliest, l, e);
      }
    }
  }

  lemma OneDecision(s: Store, target: nat, words: set<Position>, last: Position, earliest: Position, l: Position,
      e: Position)
    requires AreWords(s, target, words) && Decides(s, target, words, last, earliest) && Decides(s, target, words, l, e)
    ensures l == last && WordOn(s, target, e).value.since == WordOn(s, target, earliest).value.since
  {
    hide WordOn;
  }

  lemma SameIffDecisiveCount(s: Store, target: nat, last: Position, earliest: Position)
    requires Decides(s, target, Words(s, target), last, earliest)
    ensures SaySame(Some(StandingOf(s, target, last, earliest)), Effective(s, target)) <==>
            exists counted :: DecisiveWordsCount(s, target, last, earliest, counted)
  {
    hide WordOn, Words, Counted;
    CountedIsWords(s, target);
    var words, counts := Words(s, target), Counted(s, target);
    DecisionExists(s, target, counts);
    if counts != {} {
      var l, e :| Decides(s, target, counts, l, e);
      DecisionIs(s, target, counts, l, e);
      if Depth(l.node) == Depth(last.node) { OneAncestorADepth(l.node, last.node, target); }
      if SaySame(Some(StandingOf(s, target, last, earliest)), Effective(s, target)) {
        assert DecisiveWordsCount(s, target, last, earliest, e);
      }
      forall c | DecisiveWordsCount(s, target, last, earliest, c)
        ensures l == last && WordOn(s, target, e).value.since == WordOn(s, target, earliest).value.since
      {
        LastOfMore(target, words, counts, last, l);
      }
    }
  }

  lemma LastOfMore(target: nat, words: set<Position>, counts: set<Position>, last: Position, l: Position)
    requires counts <= words && last in counts && IsLast(words, last) && IsLast(counts, l)
    ensures l == last
  {
  }

  // In particular when no author was compromised by the time of its word.
  lemma AllCountIsEffective(s: Store, target: nat, heard: seq<Block>)
    requires AllWords(s, target, heard) && Positions(heard) == Words(s, target)
    requires forall pos | pos in Words(s, target) :: Weighs(s, pos, Effective(s, pos.node))
    ensures SaySame(HeardAll(heard), Effective(s, target))
  {
    assert Counted(s, target) == Words(s, target);
    FoldIsEffective(s, target, heard);
  }

  // ---------- Where the two part ----------

  // The root of chain 7, and its first child.
  const ROOT := Node(0, 7, 70, ZeroHash, {7}, 0)
  const AUTHOR := Node(1, 17, 71, OfNode(ROOT), {70}, 0)

  // The root declares node 1 compromised since 5; at 10 node 1 revokes node 3. Each word is
  // signed by its author.
  const ROOTS_WORD := Block(Address(7, 0, 0), ZeroHash, 8, Revocation(Some(RevocationPayload(1, 5, None))), {70})
  const LATE_WORD := Block(Address(7, 1, 0), ZeroHash, 10, Revocation(Some(RevocationPayload(3, 9, None))), {71})

  const ROOTS_CERTIFICATE := BranchKeys.Certificate(ROOTS_WORD, [ROOT])
  const LATE_CERTIFICATE := BranchKeys.Certificate(LATE_WORD, [ROOT, AUTHOR])

  function Compromised(): Store {
    Store(7, map[0 := ROOT, 1 := AUTHOR], map[0 := 0, 1 := 0],
      map[Position(0, 0) := ROOTS_WORD, Position(1, 0) := LATE_WORD], map[],
          map[1 := [Position(0, 0)], 3 := [Position(1, 0)]])
  }

  lemma CertificatesHold()
    ensures BranchKeys.CertificateHolds(ROOTS_CERTIFICATE) && BranchKeys.CertificateHolds(LATE_CERTIFICATE)
    ensures Depth(1) == 1 && Depth(0) == 0 && Depth(3) == 2
  {
    assert Above(1, 3) && Above(0, 1);
  }

  // A word written after its author was compromised carries a certificate that holds and is
  // heard, though the search finds it weighs nothing; and it is a word that decides.
  lemma CompromisedAuthorIsHeard()
    ensures var s := Compromised();
            && BranchKeys.CertificateHolds(LATE_CERTIFICATE) && AllWords(s, 3, [LATE_WORD]) &&
               Positions([LATE_WORD]) == Words(s, 3)
            && HeardAll([LATE_WORD]) == Some(BranchKeys.Standing(1, 0, 9, None, [])) && Effective(s, 3).None?
  {
    var s := Compromised();
    CertificatesHold();
    RootIsCounted();
    DecisionIs(s, 1, Counted(s, 1), Position(0, 0), Position(0, 0));
    assert Effective(s, 1).Some? && Effective(s, 1).value.since == 5 && Effective(s, 1).value.replacement.None?;
    assert s.listed[3][0] == Position(1, 0);
    assert !Weighs(s, Position(1, 0), Effective(s, 1));
    assert Counted(s, 3) == {};
    DecisionExists(s, 3, {});
    assert [LATE_WORD][..0] == [];
    assert [LATE_WORD][0] == LATE_WORD;
  }

  lemma RootIsCounted()
    ensures var s := Compromised();
            Counted(s, 1) == {Position(0, 0)} && Decides(s, 1, Counted(s, 1), Position(0, 0), Position(0, 0))
  {
    var s := Compromised();
    assert s.listed[1][0] == Position(0, 0);
    assert Listed(s, 1) == {Position(0, 0)};
    assert Counted(s, 0) == {};
    DecisionExists(s, 0, {});
    assert Effective(s, 0).None?;
  }

  // The aggregator, told both words, holds node 3 frozen since 9.
  method HearBoth() returns (keys: BranchKeys.BranchKeys)
    ensures fresh(keys) && keys.Valid()
    ensures keys.revocations == map[BranchKeys.Key(7, 1) := BranchKeys.Standing(0, 0, 5, None, []),
                                    BranchKeys.Key(7, 3) := BranchKeys.Standing(1, 0, 9, None, [])]
    ensures Effective(Compromised(), 3).None?
  {
    CertificatesHold();
    CompromisedAuthorIsHeard();
    keys := new BranchKeys.BranchKeys();
    var ok := keys.LearnRevocation(ROOTS_CERTIFICATE);
    ok := keys.LearnRevocation(LATE_CERTIFICATE);
  }
}
