// The two judges of a branch and the folds that name its key (blockchain/validator,
// blockchain/blockchain, blockchain/key_path).
module Validator {
  import opened Options
  import opened Blocks
  import opened KeyTree
  import opened KeyPaths
  import opened Revocations

  datatype Mark = CLEAN | SUSPECT | INVALID_AFTER_REPLACEMENT

  datatype Phase = ACTIVE | FROZEN | REPLACED

  datatype BranchStatus = BranchStatus(phase: Phase, revocation: Option<State>, nextKey: Option<nat>, marks: seq<Mark>)

  // ---------- The branch ----------

  // The node is stored, and the branch without a gap up to its tip.
  predicate Whole(s: Store, node: nat) {
    node in s.nodes && (node in s.tips ==> forall i: nat | i <= s.tips[node] :: Position(node, i) in s.blocks)
  }

  function Length(s: Store, node: nat): nat { if node in s.tips then s.tips[node] + 1 else 0 }

  function Branch(s: Store, node: nat): (blocks: seq<Block>)
    requires Whole(s, node)
    ensures |blocks| == Length(s, node)
    ensures forall i | 0 <= i < |blocks| :: blocks[i] == s.blocks[Position(node, i)]
  {
    seq(Length(s, node), i requires 0 <= i < Length(s, node) => s.blocks[Position(node, i)])
  }

  // ---------- The strict judge ----------

  function Replacement(rev: Option<State>): Option<nat> {
    if rev.Some? then rev.value.replacement else None
  }

  function Followed(key: nat, b: Block): nat {
    match NextKey(b) case None => key case Some(next) => next
  }

  datatype Signing = Signing(key: nat, switched: bool)

  // The key goes on along the branch; the first block it did not sign may switch, once, to
  // the replacement.
  function Strict(first: nat, rev: Option<State>, blocks: seq<Block>, n: nat): Option<Signing>
    requires n <= |blocks|
  {
    if n == 0 then Some(Signing(first, false)) else
    var b := blocks[n - 1];
    match Strict(first, rev, blocks, n - 1)
    case None => None
    case Some(v) =>
      if SignedBy(b, v.key) then Some(v.(key := Followed(v.key, b)))
      else if !v.switched && Replacement(rev).Some? && SignedBy(b, Replacement(rev).value)
      then Some(Signing(Followed(Replacement(rev).value, b), true))
      else None
  }

  lemma {:induction false} StrictStays(first: nat, rev: Option<State>, blocks: seq<Block>, n: nat, m: nat)
    requires n <= m <= |blocks| && Strict(first, rev, blocks, n).None?
    ensures Strict(first, rev, blocks, m).None?
  {
    if n < m { StrictStays(first, rev, blocks, n, m - 1); }
  }

  // A block continues its predecessor, the first one the node, and time does not go back.
  predicate Continues(leaf: Node, blocks: seq<Block>, i: nat)
    requires i < |blocks|
  {
    if i == 0 then blocks[i].prev == OfNode(leaf)
    else blocks[i].prev == OfBlock(blocks[i - 1]) && blocks[i - 1].time <= blocks[i].time
  }

  predicate Chained(leaf: Node, blocks: seq<Block>) {
    forall i | 0 <= i < |blocks| :: Continues(leaf, blocks, i)
  }

  ghost predicate Accepts(leaf: Node, rev: Option<State>, blocks: seq<Block>) {
    Chained(leaf, blocks) && Strict(leaf.working, rev, blocks, |blocks|).Some?
  }

  method ReadBranch(s: Store, node: nat) returns (blocks: Option<seq<Block>>)
    requires node in s.nodes
    ensures blocks == if Whole(s, node) then Some(Branch(s, node)) else None
  {
    var read: seq<Block> := [];
    for i := 0 to Length(s, node)
      invariant |read| == i && forall j: nat | j < i ::
                Position(node, j) in s.blocks && read[j] == s.blocks[Position(node, j)]
    {
      if Position(node, i) !in s.blocks {
        assert i <= s.tips[node];
        return None;
      }
      read := read + [s.blocks[Position(node, i)]];
    }
    assert Whole(s, node) && read == Branch(s, node);
    blocks := Some(read);
  }

  method ValidateBlocks(leaf: Node, rev: Option<State>, blocks: seq<Block>) returns (ok: bool)
    ensures ok == Accepts(leaf, rev, blocks)
  {
    var prev, key, switched := OfNode(leaf), leaf.working, false;
    for i := 0 to |blocks|
      invariant forall j | 0 <= j < i :: Continues(leaf, blocks, j)
      invariant Strict(leaf.working, rev, blocks, i) == Some(Signing(key, switched))
      invariant prev == if i == 0 then OfNode(leaf) else OfBlock(blocks[i - 1])
    {
      var b := blocks[i];
      if Strict(leaf.working, rev, blocks, i + 1).None? { StrictStays(leaf.working, rev, blocks, i + 1, |blocks|); }
      if b.prev != prev {
        assert !Continues(leaf, blocks, i);
        return false;
      }
      if !SignedBy(b, key) {
        if switched || Replacement(rev).None? || !SignedBy(b, Replacement(rev).value) { return false; }
        key, switched := Replacement(rev).value, true;
      }
      if i > 0 && b.time < blocks[i - 1].time {
        assert !Continues(leaf, blocks, i);
        return false;
      }
      if b.body.Rotation? && b.body.next.Some? { key := b.body.next.value; }
      prev := OfBlock(b);
    }
    ok := true;
  }

  ghost predicate BranchAccepted(s: Store, node: nat) {
    Whole(s, node) && Accepts(s.nodes[node], Effective(s, node), Branch(s, node))
  }

  method ValidateBranch(s: Store, node: nat) returns (ok: bool)
    requires Kept(s)
    ensures ok == BranchAccepted(s, node)
  {
    if node !in s.nodes { return false; }
    if node !in s.tips { return true; }
    var rev := EffectiveRevocation(s, node);
    var blocks := ReadBranch(s, node);
    if blocks.None? { return false; }
    ok := ValidateBlocks(s.nodes[node], rev, blocks.value);
  }

  // ---------- The lenient judge ----------

  datatype Walk = Walk(lineage: nat, current: nat, switched: bool, marks: seq<Mark>)

  function Marked(rev: Option<State>, b: Block): Mark {
    if rev.Some? && b.time > rev.value.since then SUSPECT else CLEAN
  }

  // The old line goes on until the replacement first signs; then the replacement's, and the
  // old key coming back is marked and not followed.
  function Lenient(first: nat, rev: Option<State>, blocks: seq<Block>, n: nat): (w: Option<Walk>)
    requires n <= |blocks|
    ensures w.Some? ==> |w.value.marks| == n
  {
    if n == 0 then Some(Walk(first, first, false, [])) else
    var b := blocks[n - 1];
    match Lenient(first, rev, blocks, n - 1)
    case None => None
    case Some(w) =>
      if !w.switched then
        if SignedBy(b, w.lineage) then Some(w.(lineage := Followed(w.lineage, b), marks := w.marks + [Marked(rev, b)]))
        else if Replacement(rev).Some? && SignedBy(b, Replacement(rev).value)
        then Some(w.(switched := true, current := Followed(Replacement(rev).value, b), marks := w.marks + [CLEAN]))
        else None
      else if SignedBy(b, w.current) then Some(w.(current := Followed(w.current, b), marks := w.marks + [CLEAN]))
      else if SignedBy(b, w.lineage) then Some(w.(marks := w.marks + [INVALID_AFTER_REPLACEMENT]))
      else None
  }

  function StatusOf(leaf: Node, rev: Option<State>, blocks: seq<Block>): Option<BranchStatus> {
    match Lenient(leaf.working, rev, blocks, |blocks|)
    case None => None
    case Some(w) =>
      Some(if rev.None? then BranchStatus(ACTIVE, rev, Some(w.lineage), w.marks)
           else if Replacement(rev).None? then BranchStatus(FROZEN, rev, None, w.marks)
           else BranchStatus(REPLACED, rev, Some(if w.switched then w.current else Replacement(rev).value), w.marks))
  }

  method JudgeBlocks(leaf: Node, rev: Option<State>, blocks: seq<Block>) returns (st: Option<BranchStatus>)
    ensures st == StatusOf(leaf, rev, blocks)
  {
    var lineage: nat, current: nat, switched := leaf.working, leaf.working, false;
    var marks: seq<Mark> := [];
    for i := 0 to |blocks|
      invariant Lenient(leaf.working, rev, blocks, i) == Some(Walk(lineage, current, switched, marks))
    {
      var b := blocks[i];
      if Lenient(leaf.working, rev, blocks, i + 1).None? { LenientStays(leaf.working, rev, blocks, i + 1, |blocks|); }
      if !switched {
        if SignedBy(b, lineage) {
          marks := marks + [Marked(rev, b)];
          if b.body.Rotation? && b.body.next.Some? { lineage := b.body.next.value; }
        } else if Replacement(rev).Some? && SignedBy(b, Replacement(rev).value) {
          switched, current := true, Replacement(rev).value;
          marks := marks + [CLEAN];
          if b.body.Rotation? && b.body.next.Some? { current := b.body.next.value; }
        } else {
          return None;
        }
      } else if SignedBy(b, current) {
        marks := marks + [CLEAN];
        if b.body.Rotation? && b.body.next.Some? { current := b.body.next.value; }
      } else if SignedBy(b, lineage) {
        marks := marks + [INVALID_AFTER_REPLACEMENT];
      } else {
        return None;
      }
    }
    if rev.None? {
      st := Some(BranchStatus(ACTIVE, rev, Some(lineage), marks));
    } else if Replacement(rev).None? {
      st := Some(BranchStatus(FROZEN, rev, None, marks));
    } else {
      st := Some(BranchStatus(REPLACED, rev, Some(if switched then current else Replacement(rev).value), marks));
    }
  }

  lemma {:induction false} LenientStays(first: nat, rev: Option<State>, blocks: seq<Block>, n: nat, m: nat)
    requires n <= m <= |blocks| && Lenient(first, rev, blocks, n).None?
    ensures Lenient(first, rev, blocks, m).None?
  {
    if n < m { LenientStays(first, rev, blocks, n, m - 1); }
  }

  method BranchRevocationStatus(s: Store, node: nat) returns (st: Option<BranchStatus>)
    requires Kept(s)
    ensures st == if Whole(s, node) then StatusOf(s.nodes[node], Effective(s, node), Branch(s, node)) else None
  {
    var rev := EffectiveRevocation(s, node);
    if node !in s.nodes { return None; }
    var blocks := ReadBranch(s, node);
    if blocks.None? { return None; }
    st := JudgeBlocks(s.nodes[node], rev, blocks.value);
  }

  // ---------- The two agree ----------

  predicate Tidy(w: Walk) { INVALID_AFTER_REPLACEMENT !in w.marks }

  function KeyNow(w: Walk): nat { if w.switched then w.current else w.lineage }

  // Step by step the strict judge accepts exactly while the lenient one finds nothing of the
  // old key after the switch, and both are at the same key.
  lemma {:induction false} JudgesAgree(first: nat, rev: Option<State>, blocks: seq<Block>, n: nat)
    requires n <= |blocks|
    ensures var v, w := Strict(first, rev, blocks, n), Lenient(first, rev, blocks, n);
            && (v.Some? <==> w.Some? && Tidy(w.value))
            && (v.Some? ==> v.value.switched == w.value.switched && v.value.key == KeyNow(w.value))
  {
    if n > 0 { JudgesAgree(first, rev, blocks, n - 1); }
  }

  // A branch is accepted exactly when it hangs together in hashes and time and its status
  // finds no block of the old key after the replacement; an active or switched branch then
  // goes on with the key the strict judge ended at.
  lemma AcceptedExactlyWhenTidy(leaf: Node, rev: Option<State>, blocks: seq<Block>)
    ensures Accepts(leaf, rev, blocks) <==>
            && Chained(leaf, blocks) && StatusOf(leaf, rev, blocks).Some?
            && INVALID_AFTER_REPLACEMENT !in StatusOf(leaf, rev, blocks).value.marks
    ensures Accepts(leaf, rev, blocks) ==>
              var v, st := Strict(leaf.working, rev, blocks, |blocks|).value, StatusOf(leaf, rev, blocks).value;
              && (st.phase == ACTIVE || (st.phase == REPLACED && v.switched) ==> st.nextKey == Some(v.key))
              && (st.phase == REPLACED && !v.switched ==> st.nextKey == Replacement(rev))
  {
    JudgesAgree(leaf.working, rev, blocks, |blocks|);
    NeverSwitchesWithoutRevocation(leaf.working, rev, blocks, |blocks|);
  }

  lemma {:induction false} NeverSwitchesWithoutRevocation(first: nat, rev: Option<State>, blocks: seq<Block>, n: nat)
    requires n <= |blocks|
    ensures rev.None? && Strict(first, rev, blocks, n).Some? ==> !Strict(first, rev, blocks, n).value.switched
  {
    if n > 0 { NeverSwitchesWithoutRevocation(first, rev, blocks, n - 1); }
  }

  // ---------- The key without a revocation ----------

  method EffectiveWorkingKey(leaf: Node, blocks: seq<Block>) returns (key: nat)
    ensures key == SignerKey(leaf.working, blocks)
  {
    key := leaf.working;
    for i := 0 to |blocks|
      invariant key == KeyAfter(leaf.working, blocks, i)
    {
      if blocks[i].body.Rotation? && blocks[i].body.next.Some? { key := blocks[i].body.next.value; }
    }
  }

  function Rotations(blocks: seq<Block>): seq<Block> {
    if blocks == [] then [] else
    var rest, b := Rotations(blocks[..|blocks| - 1]), blocks[|blocks| - 1];
    if b.body.Rotation? then rest + [b] else rest
  }

  // The key changes of the blocks there are; a gap in the branch is no matter.
  function StoredBlocks(s: Store, node: nat, n: nat): seq<Block> {
    if n == 0 then []
    else if Position(node, n - 1) in s.blocks then StoredBlocks(s, node, n - 1) + [s.blocks[Position(node, n - 1)]]
    else StoredBlocks(s, node, n - 1)
  }

  function NodesTo(s: Store, i: nat): Option<seq<Node>> {
    if i !in s.nodes then None
    else if i == 0 then Some([s.nodes[0]])
    else match NodesTo(s, Parent(i)) case None => None case Some(path) => Some(path + [s.nodes[i]])
  }

  method BuildPath(s: Store, node: nat) returns (kp: Option<KeyPath>)
    ensures match NodesTo(s, node)
            case None => kp == None
            case Some(path) => kp == Some(KeyPath(path, Rotations(StoredBlocks(s, node, Length(s, node)))))
  {
    var path := PathNodes(s, node);
    if path.None? { return None; }
    var rotations: seq<Block> := [];
    for i := 0 to Length(s, node)
      invariant rotations == Rotations(StoredBlocks(s, node, i))
    {
      if Position(node, i) in s.blocks {
        var b := s.blocks[Position(node, i)];
        ghost var before := StoredBlocks(s, node, i);
        assert (before + [b])[..|before|] == before;
        if b.body.Rotation? { rotations := rotations + [b]; }
      }
    }
    kp := Some(KeyPath(path.value, rotations));
  }

  // Heap indices from the node up to the root, then read from the root down.
  method PathNodes(s: Store, node: nat) returns (path: Option<seq<Node>>)
    ensures path == NodesTo(s, node)
  {
    var cur, indices := node, [node];
    while cur != 0
      invariant |indices| > 0 && indices[0] == cur && indices[|indices| - 1] == node
      invariant forall k | 1 <= k < |indices| :: indices[k] > 0 && Parent(indices[k]) == indices[k - 1]
    {
      cur := (cur - 1) / 2;
      indices := [cur] + indices;
    }
    var nodes: seq<Node> := [];
    for k := 0 to |indices|
      invariant k > 0 ==> NodesTo(s, indices[k - 1]) == Some(nodes)
      invariant k == 0 ==> nodes == []
    {
      if indices[k] !in s.nodes {
        NoPathBelow(s, indices, k);
        return None;
      }
      assert k > 0 ==> NodesTo(s, indices[k]) == Some(nodes + [s.nodes[indices[k]]]);
      assert k == 0 ==> nodes + [s.nodes[indices[k]]] == [s.nodes[0]];
      nodes := nodes + [s.nodes[indices[k]]];
    }
    path := Some(nodes);
  }

  lemma {:induction false} NoPathBelow(s: Store, indices: seq<nat>, k: nat)
    requires k < |indices| && NodesTo(s, indices[k]).None?
    requires forall j | 1 <= j < |indices| :: indices[j] > 0 && Parent(indices[j]) == indices[j - 1]
    ensures NodesTo(s, indices[|indices| - 1]).None?
    decreases |indices| - k
  {
    if k + 1 < |indices| { NoPathBelow(s, indices, k + 1); }
  }

  lemma {:induction false} StoredIsBranch(s: Store, node: nat, n: nat)
    requires Whole(s, node) && n <= Length(s, node)
    ensures StoredBlocks(s, node, n) == Branch(s, node)[..n]
  {
    if n > 0 { StoredIsBranch(s, node, n - 1); }
  }

  // Blocks that are not key changes can be left out.
  lemma {:induction false} RotationsNameTheKey(first: nat, blocks: seq<Block>)
    ensures SignerKey(first, Rotations(blocks)) == SignerKey(first, blocks)
  {
    if blocks != [] {
      var less, b := blocks[..|blocks| - 1], blocks[|blocks| - 1];
      RotationsNameTheKey(first, less);
      KeyAfterPrefix(first, less, blocks, |less|);
      KeyAfterPrefix(first, Rotations(less), Rotations(less) + [b], |Rotations(less)|);
    }
  }

  // Without a revocation the strict judge follows the plain line of key changes.
  lemma {:induction false} StrictFollowsLine(first: nat, blocks: seq<Block>, n: nat)
    requires n <= |blocks| && Strict(first, None, blocks, n).Some?
    ensures Strict(first, None, blocks, n).value == Signing(KeyAfter(first, blocks, n), false)
    ensures forall i | 0 <= i < n :: SignedBy(blocks[i], KeyAfter(first, blocks, i))
  {
    if n > 0 { StrictFollowsLine(first, blocks, n - 1); }
  }

  lemma PathEndsAtNode(s: Store, i: nat)
    ensures NodesTo(s, i).Some? ==>
            NodesTo(s, i).value != [] && NodesTo(s, i).value[|NodesTo(s, i).value| - 1] == s.nodes[i]
  {
  }

  // One key, told three ways: an accepted branch nobody revoked has for its next key the one
  // the plain fold gives and the one its built path certifies to.
  lemma OneKeyWithoutRevocation(s: Store, node: nat)
    requires BranchAccepted(s, node) && Effective(s, node).None? && NodesTo(s, node).Some?
    ensures var leaf, blocks, path := s.nodes[node], Branch(s, node), NodesTo(s, node).value;
            var key := SignerKey(leaf.working, blocks);
            && Strict(leaf.working, None, blocks, |blocks|) == Some(Signing(key, false))
            && StatusOf(leaf, None, blocks).Some? && StatusOf(leaf, None, blocks).value.nextKey == Some(key)
            && path != []
            && SignerKey(path[|path| - 1].working, Rotations(StoredBlocks(s, node, Length(s, node)))) == key
  {
    var leaf, blocks := s.nodes[node], Branch(s, node);
    StrictFollowsLine(leaf.working, blocks, |blocks|);
    AcceptedExactlyWhenTidy(leaf, None, blocks);
    StoredIsBranch(s, node, Length(s, node));
    assert blocks[..|blocks|] == blocks;
    RotationsNameTheKey(leaf.working, blocks);
    PathEndsAtNode(s, node);
  }

  predicate AtOwnAddress(chain: nat, node: nat, blocks: seq<Block>) {
    forall i | 0 <= i < |blocks| :: blocks[i].address == Address(chain, node, i)
  }

  // Each block is signed by the key the line has come to.
  predicate SignedLine(first: nat, blocks: seq<Block>) {
    forall i | 0 <= i < |blocks| :: SignedBy(blocks[i], KeyAfter(first, blocks, i))
  }

  predicate NamesKeys(blocks: seq<Block>) {
    forall i | 0 <= i < |blocks| :: blocks[i].body.Rotation? ==> blocks[i].body.next.Some?
  }

  lemma {:induction false} RotationsBelow(chain: nat, node: nat, blocks: seq<Block>)
    requires AtOwnAddress(chain, node, blocks)
    ensures forall i | 0 <= i < |Rotations(blocks)| :: Rotations(blocks)[i].address.index < |blocks|
  {
    if blocks != [] { RotationsBelow(chain, node, blocks[..|blocks| - 1]); }
  }

  // The key changes of a signed line fit one another exactly when each names a key.
  lemma {:induction false} RotationsFitLine(chain: nat, tip: Node, blocks: seq<Block>)
    requires AtOwnAddress(chain, tip.index, blocks)
    requires SignedLine(tip.working, blocks)
    ensures RotationsFit(chain, tip, Rotations(blocks)) <==> NamesKeys(blocks)
  {
    hide RotationsFit, NamesKeys, SignedLine, KeyAfter, AtOwnAddress, SignedBy, Rotations;
    RotationsUnfold(chain, tip, blocks);
    if blocks != [] {
      var n := |blocks| - 1;
      var less, b := blocks[..n], blocks[n];
      SignedBelow(tip.working, blocks);
      AddressesBelow(chain, tip.index, blocks);
      RotationsFitLine(chain, tip, less);
      NamesOneMore(less, b);
      assert less + [b] == blocks;
      if b.body.Rotation? { OneMoreFits(chain, tip, less, b); }
    }
  }

  lemma RotationsUnfold(chain: nat, tip: Node, blocks: seq<Block>)
    ensures blocks == [] ==> RotationsFit(chain, tip, Rotations(blocks)) && NamesKeys(blocks)
    ensures blocks != [] ==>
              var less, b := blocks[..|blocks| - 1], blocks[|blocks| - 1];
              Rotations(blocks) == if b.body.Rotation? then Rotations(less) + [b] else Rotations(less)
  {
  }

  lemma AddressesBelow(chain: nat, node: nat, blocks: seq<Block>)
    requires blocks != [] && AtOwnAddress(chain, node, blocks)
    ensures var n := |blocks| - 1;
            AtOwnAddress(chain, node, blocks[..n]) && blocks[n].address == Address(chain, node, n)
  {
  }

  lemma NamesOneMore(less: seq<Block>, b: Block)
    ensures NamesKeys(less + [b]) <==> NamesKeys(less) && (b.body.Rotation? ==> b.body.next.Some?)
  {
    assert forall i | 0 <= i < |less| :: (less + [b])[i] == less[i];
    assert (less + [b])[|less|] == b;
  }

  lemma SignedBelow(first: nat, blocks: seq<Block>)
    requires blocks != [] && SignedLine(first, blocks)
    ensures var less := blocks[..|blocks| - 1];
            && SignedLine(first, less)
            && SignedBy(blocks[|blocks| - 1], SignerKey(first, less))
  {
    var less := blocks[..|blocks| - 1];
    forall i | 0 <= i <= |less| ensures KeyAfter(first, less, i) == KeyAfter(first, blocks, i) {
      KeyAfterPrefix(first, less, blocks, i);
    }
  }

  lemma OneMoreFits(chain: nat, tip: Node, less: seq<Block>, b: Block)
    requires AtOwnAddress(chain, tip.index, less) && b.address == Address(chain, tip.index, |less|)
    requires b.body.Rotation? && SignedBy(b, SignerKey(tip.working, less))
    ensures RotationsFit(chain, tip, Rotations(less) + [b]) <==>
            RotationsFit(chain, tip, Rotations(less)) && b.body.next.Some?
  {
    var before := Rotations(less);
    var after := before + [b];
    RotationsNameTheKey(tip.working, less);
    RotationsBelow(chain, tip.index, less);
    forall i | 0 <= i <= |before| ensures KeyAfter(tip.working, before, i) == KeyAfter(tip.working, after, i) {
      KeyAfterPrefix(tip.working, before, after, i);
    }
    assert forall i | 0 <= i < |before| :: RotationFits(chain, tip, before, i) <==> RotationFits(chain, tip, after, i);
    assert RotationFits(chain, tip, after, |before|) <==> b.body.next.Some?;
  }

  // The path built for an accepted branch nobody revoked is certified exactly when its nodes
  // link up to the chain and no key change is without a key.
  lemma BuiltPathCertifies(s: Store, node: nat)
    requires Kept(s) && BranchAccepted(s, node) && Effective(s, node).None? && NodesTo(s, node).Some?
    requires s.nodes[node].index == node
    ensures var path := NodesTo(s, node).value;
            Certifies(KeyPath(path, Rotations(StoredBlocks(s, node, Length(s, node)))), s.user) <==>
            Linked(path) && path[0].structural == s.user && NamesKeys(Branch(s, node))
  {
    var blocks := Branch(s, node);
    StrictFollowsLine(s.nodes[node].working, blocks, |blocks|);
    StoredIsBranch(s, node, Length(s, node));
    assert blocks[..|blocks|] == blocks;
    PathEndsAtNode(s, node);
    assert SignedLine(s.nodes[node].working, blocks);
    RotationsFitLine(s.user, s.nodes[node], blocks);
  }
}
