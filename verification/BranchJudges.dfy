// What the two judges of a branch come to, told by the branch as a whole: where it passes from
// its own line of keys to the replacement's, and which key each block is signed with.
module BranchJudges {
  import opened Options
  import opened Blocks
  import opened KeyPaths
  import opened Revocations
  import opened Validator

  // The key of the replacement's line before the i-th block, when the line begins at block `from`
  // and follows only the key changes it signed itself.
  function NewLine(replacement: nat, blocks: seq<Block>, from: nat, i: nat): nat
    requires from <= i <= |blocks|
  {
    if i == from then replacement else
    var key, b := NewLine(replacement, blocks, from, i - 1), blocks[i - 1];
    if key in b.signers && b.body.Rotation? && b.body.next.Some? then b.body.next.value else key
  }

  // The own line signs up to block `s` and no further; the replacement signs that one.
  ghost predicate PassesAt(first: nat, rev: Option<State>, blocks: seq<Block>, n: nat, s: nat) {
    && s <= n <= |blocks|
    && (forall i | 0 <= i < s :: KeyAfter(first, blocks, i) in blocks[i].signers)
    && (s < n ==>
          && rev.Some? && rev.value.replacement.Some?
          && KeyAfter(first, blocks, s) !in blocks[s].signers && rev.value.replacement.value in blocks[s].signers)
  }

  // From there on every block is signed by the replacement's line.
  ghost predicate PassesOver(first: nat, rev: Option<State>, blocks: seq<Block>, n: nat, s: nat) {
    && PassesAt(first, rev, blocks, n, s)
    && forall i | s <= i < n :: NewLine(rev.value.replacement.value, blocks, s, i) in blocks[i].signers
  }

  // Or else, past the replacement's first block, by the key the own line had come to.
  ghost predicate FallsBack(first: nat, rev: Option<State>, blocks: seq<Block>, n: nat, s: nat) {
    && PassesAt(first, rev, blocks, n, s)
    && forall i | s <= i < n ::
         || NewLine(rev.value.replacement.value, blocks, s, i) in blocks[i].signers
         || KeyAfter(first, blocks, s) in blocks[i].signers
  }

  function KeyOfLine(first: nat, rev: Option<State>, blocks: seq<Block>, n: nat, s: nat): nat
    requires s <= n <= |blocks|
  {
    if s == n || Replacement(rev).None? then KeyAfter(first, blocks, s)
    else NewLine(Replacement(rev).value, blocks, s, n)
  }

  // ---------- The strict judge ----------

  lemma {:induction false} StrictPasses(first: nat, rev: Option<State>, blocks: seq<Block>, n: nat, s: nat)
    requires n <= |blocks| && PassesOver(first, rev, blocks, n, s)
    ensures Strict(first, rev, blocks, n) == Some(Signing(KeyOfLine(first, rev, blocks, n, s), s < n))
  {
    if n > 0 { StrictPasses(first, rev, blocks, n - 1, if s == n then s - 1 else s); }
  }

  lemma {:induction false} StrictPassed(first: nat, rev: Option<State>, blocks: seq<Block>, n: nat) returns (s: nat)
    requires n <= |blocks| && Strict(first, rev, blocks, n).Some?
    ensures PassesOver(first, rev, blocks, n, s)
  {
    if n == 0 {
      s := 0;
    } else {
      s := StrictPassed(first, rev, blocks, n - 1);
      StrictPasses(first, rev, blocks, n - 1, s);
      if s == n - 1 && KeyAfter(first, blocks, s) in blocks[s].signers { s := n; }
    }
  }

  // A branch is accepted exactly when every block names the one before it, the first the node, no
  // time goes back, and at one block at most the keys pass from its own line to the replacement's.
  lemma AcceptedExactly(leaf: Node, rev: Option<State>, blocks: seq<Block>)
    ensures Accepts(leaf, rev, blocks) <==>
            && (blocks != [] ==> blocks[0].prev == OfNode(leaf))
            && (forall i | 1 <= i < |blocks| :: blocks[i].prev == OfBlock(blocks[i - 1]))
            && (forall i | 1 <= i < |blocks| :: blocks[i - 1].time <= blocks[i].time)
            && exists s: nat :: PassesOver(leaf.working, rev, blocks, |blocks|, s)
  {
    var n := |blocks|;
    if Strict(leaf.working, rev, blocks, n).Some? { var s := StrictPassed(leaf.working, rev, blocks, n); }
    if s: nat :| PassesOver(leaf.working, rev, blocks, n, s) { StrictPasses(leaf.working, rev, blocks, n, s); }
    ChainedSays(leaf, blocks);
    hide Strict, PassesOver, Chained;
  }

  lemma ChainedSays(leaf: Node, blocks: seq<Block>)
    ensures Chained(leaf, blocks) <==>
            && (blocks != [] ==> blocks[0].prev == OfNode(leaf))
            && (forall i | 1 <= i < |blocks| :: blocks[i].prev == OfBlock(blocks[i - 1]))
            && (forall i | 1 <= i < |blocks| :: blocks[i - 1].time <= blocks[i].time)
  {
    if Chained(leaf, blocks) {
      assert blocks != [] ==> Continues(leaf, blocks, 0);
      forall i | 1 <= i < |blocks|
        ensures blocks[i].prev == OfBlock(blocks[i - 1]) && blocks[i - 1].time <= blocks[i].time
      {
        assert Continues(leaf, blocks, i);
      }
    }
  }

  // ---------- The lenient judge ----------

  // The mark of the i-th block: of the own line, whether it is dated past the compromise; then
  // whether the replacement's line signed it.
  function MarkOf(first: nat, rev: Option<State>, blocks: seq<Block>, s: nat, i: nat): Mark
    requires i < |blocks|
  {
    if i < s then if rev.Some? && blocks[i].time > rev.value.since then SUSPECT else CLEAN
    else if s <= i && rev.Some? && rev.value.replacement.Some? &&
            NewLine(rev.value.replacement.value, blocks, s, i) in blocks[i].signers
    then CLEAN else INVALID_AFTER_REPLACEMENT
  }

  // Where the lenient judge stands after n blocks.
  ghost predicate StandsAt(first: nat, rev: Option<State>, blocks: seq<Block>, n: nat, s: nat, w: Walk) {
    && s <= n <= |blocks| && w.switched == (s < n) && w.lineage == KeyAfter(first, blocks, s)
    && (s < n ==> Replacement(rev).Some? && w.current == NewLine(Replacement(rev).value, blocks, s, n))
  }

  lemma {:induction false} LenientFallsBack(first: nat, rev: Option<State>, blocks: seq<Block>, n: nat, s: nat)
    requires n <= |blocks| && FallsBack(first, rev, blocks, n, s)
    ensures var w := Lenient(first, rev, blocks, n);
            && w.Some? && StandsAt(first, rev, blocks, n, s, w.value) && |w.value.marks| == n
            && forall i | 0 <= i < n :: w.value.marks[i] == MarkOf(first, rev, blocks, s, i)
  {
    hide Lenient, FallsBack, StandsAt, MarkOf;
    if n == 0 {
      NothingJudged(first, rev, blocks, s);
    } else {
      var s' := if s == n then s - 1 else s;
      FallsBackBefore(first, rev, blocks, n, s, s');
      LenientFallsBack(first, rev, blocks, n - 1, s');
      var w, w' := Lenient(first, rev, blocks, n - 1).value, Lenient(first, rev, blocks, n);
      LenientStep(first, rev, blocks, n, s, s', w);
      forall i | 0 <= i < n - 1 ensures MarkOf(first, rev, blocks, s, i) == MarkOf(first, rev, blocks, s', i) {
        SameMark(first, rev, blocks, n, s, s', i);
      }
      assert w'.value.marks == w.marks + [MarkOf(first, rev, blocks, s, n - 1)];
    }
  }

  lemma NothingJudged(first: nat, rev: Option<State>, blocks: seq<Block>, s: nat)
    requires FallsBack(first, rev, blocks, 0, s)
    ensures Lenient(first, rev, blocks, 0) == Some(Walk(first, first, false, []))
    ensures StandsAt(first, rev, blocks, 0, s, Walk(first, first, false, []))
  {
  }

  lemma FallsBackBefore(first: nat, rev: Option<State>, blocks: seq<Block>, n: nat, s: nat, s': nat)
    requires 0 < n <= |blocks| && FallsBack(first, rev, blocks, n, s) && s' == if s == n then s - 1 else s
    ensures FallsBack(first, rev, blocks, n - 1, s')
  {
    hide NewLine, KeyAfter;
  }

  lemma SameMark(first: nat, rev: Option<State>, blocks: seq<Block>, n: nat, s: nat, s': nat, i: nat)
    requires i < n - 1 < |blocks| && s <= n && s' == if s == n then s - 1 else s
    ensures MarkOf(first, rev, blocks, s, i) == MarkOf(first, rev, blocks, s', i)
  {
  }

  lemma LenientStep(first: nat, rev: Option<State>, blocks: seq<Block>, n: nat, s: nat, s': nat, w: Walk)
    requires 0 < n <= |blocks| && FallsBack(first, rev, blocks, n, s) && s' == (if s == n then s - 1 else s)
    requires Lenient(first, rev, blocks, n - 1) == Some(w) && StandsAt(first, rev, blocks, n - 1, s', w)
    ensures var w' := Lenient(first, rev, blocks, n);
            && w'.Some? && StandsAt(first, rev, blocks, n, s, w'.value)
            && w'.value.marks == w.marks + [MarkOf(first, rev, blocks, s, n - 1)]
  {
  }

  lemma {:induction false} LenientFellBack(first: nat, rev: Option<State>, blocks: seq<Block>, n: nat) returns (s: nat)
    requires n <= |blocks| && Lenient(first, rev, blocks, n).Some?
    ensures FallsBack(first, rev, blocks, n, s)
  {
    hide FallsBack, StandsAt, MarkOf, Lenient;
    if n == 0 {
      s := 0;
      FallsBackAtNone(first, rev, blocks);
    } else {
      LenientNone(first, rev, blocks, n);
      var s' := LenientFellBack(first, rev, blocks, n - 1);
      LenientFallsBack(first, rev, blocks, n - 1, s');
      s := if s' == n - 1 && KeyAfter(first, blocks, s') in blocks[s'].signers then n else s';
      FallsBackStep(first, rev, blocks, n, s, s', Lenient(first, rev, blocks, n - 1).value);
    }
  }

  lemma LenientNone(first: nat, rev: Option<State>, blocks: seq<Block>, n: nat)
    requires 0 < n <= |blocks| && Lenient(first, rev, blocks, n).Some?
    ensures Lenient(first, rev, blocks, n - 1).Some?
  {
  }

  lemma FallsBackAtNone(first: nat, rev: Option<State>, blocks: seq<Block>)
    ensures FallsBack(first, rev, blocks, 0, 0)
  {
  }

  lemma FallsBackStep(first: nat, rev: Option<State>, blocks: seq<Block>, n: nat, s: nat, s': nat, w: Walk)
    requires 0 < n <= |blocks| && FallsBack(first, rev, blocks, n - 1, s')
    requires Lenient(first, rev, blocks, n - 1) == Some(w) && StandsAt(first, rev, blocks, n - 1, s', w)
    requires Lenient(first, rev, blocks, n).Some?
    requires s == if s' == n - 1 && KeyAfter(first, blocks, s') in blocks[s'].signers then n else s'
    ensures FallsBack(first, rev, blocks, n, s)
  {
    NextSigned(first, rev, blocks, n, s', w);
    hide Lenient, NewLine, KeyAfter;
  }

  // What must have signed the next block for the judge to go on.
  lemma NextSigned(first: nat, rev: Option<State>, blocks: seq<Block>, n: nat, s: nat, w: Walk)
    requires 0 < n <= |blocks| && s <= n - 1
    requires Lenient(first, rev, blocks, n - 1) == Some(w) && StandsAt(first, rev, blocks, n - 1, s, w)
    requires Lenient(first, rev, blocks, n).Some?
    ensures KeyAfter(first, blocks, s) in blocks[n - 1].signers ||
            (Replacement(rev).Some? && NewLine(Replacement(rev).value, blocks, s, n - 1) in blocks[n - 1].signers)
  {
    hide KeyAfter;
  }

  // What the status says of a branch that so falls back at `s`. Nobody having revoked it, it is
  // active under its own last key; revoked without a replacement it is frozen and has no next key;
  // replaced, it goes on with the replacement's line. Each block is marked for what signed it and when.
  ghost predicate Reads(first: nat, rev: Option<State>, blocks: seq<Block>, st: BranchStatus, s: nat) {
    && FallsBack(first, rev, blocks, |blocks|, s)
    && st.revocation == rev && |st.marks| == |blocks|
    && (forall i | 0 <= i < |blocks| :: st.marks[i] == MarkOf(first, rev, blocks, s, i))
    && (rev.None? ==> st.phase == ACTIVE && st.nextKey == Some(KeyAfter(first, blocks, |blocks|)))
    && (rev.Some? && rev.value.replacement.None? ==> st.phase == FROZEN && st.nextKey == None)
    && (rev.Some? && rev.value.replacement.Some? ==>
          st.phase == REPLACED && st.nextKey == Some(NewLine(rev.value.replacement.value, blocks, s, |blocks|)))
  }

  lemma StatusReads(leaf: Node, rev: Option<State>, blocks: seq<Block>, s: nat)
    requires FallsBack(leaf.working, rev, blocks, |blocks|, s)
    ensures StatusOf(leaf, rev, blocks).Some?
    ensures Reads(leaf.working, rev, blocks, StatusOf(leaf, rev, blocks).value, s)
  {
    LenientFallsBack(leaf.working, rev, blocks, |blocks|, s);
    hide Lenient, MarkOf;
  }

  lemma ReadsOne(first: nat, rev: Option<State>, blocks: seq<Block>, s: nat, a: BranchStatus, b: BranchStatus)
    requires Reads(first, rev, blocks, a, s) && Reads(first, rev, blocks, b, s)
    ensures a == b
  {
    hide FallsBack, MarkOf;
    assert a.marks == b.marks;
  }

  // The status of a branch is exactly that; it has none exactly when no block is where the keys pass.
  lemma StatusExactly(leaf: Node, rev: Option<State>, blocks: seq<Block>, st: BranchStatus)
    ensures StatusOf(leaf, rev, blocks) == Some(st) <==> exists s: nat :: Reads(leaf.working, rev, blocks, st, s)
  {
    var first, n := leaf.working, |blocks|;
    if StatusOf(leaf, rev, blocks).Some? {
      var s := LenientFellBack(first, rev, blocks, n);
      StatusReads(leaf, rev, blocks, s);
    }
    forall s: nat | Reads(first, rev, blocks, st, s) ensures StatusOf(leaf, rev, blocks) == Some(st) {
      StatusReads(leaf, rev, blocks, s);
      ReadsOne(first, rev, blocks, s, st, StatusOf(leaf, rev, blocks).value);
    }
    hide StatusOf, Reads;
  }
}
