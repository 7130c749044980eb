// Merkle trees with promoted odd tails (blockchain/merkle). The hash is taken injective and
// domain-separated: a digest is the term it hashes.
module Merkle {

  datatype Digest = Zero | LeafHash(ref: nat) | NodeHash(left: Digest, right: Digest)

  // The byte order of digests: some total order.
  predicate Le(a: Digest, b: Digest) {
    match a
    case Zero => true
    case LeafHash(x) => (match b case Zero => false case LeafHash(y) => x <= y case NodeHash(_, _) => true)
    case NodeHash(l, r) => b.NodeHash? && if l == b.left then Le(r, b.right) else Le(l, b.left)
  }

  lemma {:induction false} LeIsTotal(a: Digest, b: Digest)
    ensures Le(a, b) || Le(b, a)
    ensures Le(a, b) && Le(b, a) ==> a == b
  {
    if a.NodeHash? && b.NodeHash? {
      LeIsTotal(a.left, b.left);
      LeIsTotal(a.right, b.right);
    }
  }

  // ---------- Levels ----------

  function NextOf(level: seq<Digest>, i: nat): Digest
    requires 2 * i < |level|
  {
    if 2 * i + 1 < |level| then NodeHash(level[2 * i], level[2 * i + 1]) else level[2 * i]
  }

  // Adjacent nodes paired; a lone odd tail promoted unchanged.
  function LevelAbove(level: seq<Digest>): (up: seq<Digest>)
    ensures |up| == (|level| + 1) / 2
    ensures forall i | 0 <= i < |up| :: up[i] == NextOf(level, i)
  {
    seq((|level| + 1) / 2, i requires 0 <= i < (|level| + 1) / 2 => NextOf(level, i))
  }

  method NextLevel(level: seq<Digest>) returns (up: seq<Digest>)
    ensures up == LevelAbove(level)
  {
    up := [];
    var i := 0;
    while i + 1 < |level|
      invariant i == 2 * |up| && i <= |level|
      invariant forall j | 0 <= j < |up| :: up[j] == NextOf(level, j)
    {
      up := up + [NodeHash(level[i], level[i + 1])];
      i := i + 2;
    }
    if |level| % 2 == 1 {
      up := up + [level[|level| - 1]];
    }
  }

  function RootFrom(level: seq<Digest>): Digest
    requires level != []
    decreases |level|
  {
    if |level| == 1 then level[0] else RootFrom(LevelAbove(level))
  }

  function RootOf(leaves: seq<Digest>): Digest {
    if leaves == [] then Zero else RootFrom(leaves)
  }

  method Root(leaves: seq<Digest>) returns (root: Digest)
    ensures root == RootOf(leaves)
  {
    if leaves == [] { return Zero; }
    var level := leaves;
    while |level| > 1
      invariant level != [] && RootFrom(level) == RootFrom(leaves)
      decreases |level|
    {
      level := NextLevel(level);
    }
    root := level[0];
  }

  // ---------- A digest and the leaves under it ----------

  function Leaves(d: Digest): seq<Digest> {
    match d
    case Zero => []
    case LeafHash(_) => [d]
    case NodeHash(l, r) => Leaves(l) + Leaves(r)
  }

  function LeavesUnder(level: seq<Digest>): seq<Digest> {
    if level == [] then [] else LeavesUnder(level[..|level| - 1]) + Leaves(level[|level| - 1])
  }

  // Going one level up loses, adds and moves no leaf.
  lemma {:induction false} LevelKeepsLeaves(level: seq<Digest>, k: nat)
    requires k <= |LevelAbove(level)|
    ensures LeavesUnder(LevelAbove(level)[..k]) == LeavesUnder(level[..if 2 * k <= |level| then 2 * k else |level|])
  {
    var up := LevelAbove(level);
    if k > 0 {
      LevelKeepsLeaves(level, k - 1);
      var i := k - 1;
      assert up[..k][..i] == up[..i] && up[i] == NextOf(level, i);
      if 2 * i + 1 < |level| {
        var two := level[..2 * k];
        assert two[..2 * i + 1] == level[..2 * i + 1] && level[..2 * i + 1][..2 * i] == level[..2 * i];
        assert LeavesUnder(two) == (LeavesUnder(level[..2 * i]) + Leaves(level[2 * i])) + Leaves(level[2 * i + 1]);
      } else {
        assert level[..|level|][..2 * i] == level[..2 * i];
      }
    }
  }

  lemma {:induction false} RootKeepsLeaves(level: seq<Digest>)
    requires level != []
    ensures Leaves(RootFrom(level)) == LeavesUnder(level)
    decreases |level|
  {
    hide Leaves;
    if |level| == 1 {
      assert level[..0] == [];
      assert LeavesUnder(level) == [] + Leaves(level[0]);
    } else {
      hide LeavesUnder;
      var up := LevelAbove(level);
      RootKeepsLeaves(up);
      LevelKeepsLeaves(level, |up|);
      assert up[..|up|] == up && level[..|level|] == level;
    }
  }

  ghost predicate AllLeaves(leaves: seq<Digest>) {
    forall i | 0 <= i < |leaves| :: leaves[i].LeafHash?
  }

  lemma {:induction false} LeavesAreThemselves(leaves: seq<Digest>)
    requires AllLeaves(leaves)
    ensures LeavesUnder(leaves) == leaves
  {
    if leaves != [] {
      LeavesAreThemselves(leaves[..|leaves| - 1]);
    }
  }

  // The root determines the list of leaves, its length and order included.
  lemma RootBinds(a: seq<Digest>, b: seq<Digest>)
    requires AllLeaves(a) && AllLeaves(b) && RootOf(a) == RootOf(b)
    ensures a == b
  {
    LeavesOfRoot(a);
    LeavesOfRoot(b);
  }

  lemma LeavesOfRoot(leaves: seq<Digest>)
    requires AllLeaves(leaves)
    ensures Leaves(RootOf(leaves)) == leaves
  {
    LeavesAreThemselves(leaves);
    if leaves != [] { RootKeepsLeaves(leaves); }
  }

  // ---------- Proofs ----------

  datatype Proof = Proof(path: seq<Digest>, siblingIsRight: seq<bool>)

  function Extended(p: Proof, sibling: Digest, isRight: bool): Proof {
    Proof(p.path + [sibling], p.siblingIsRight + [isRight])
  }

  function Step(running: Digest, sibling: Digest, isRight: bool): Digest {
    if isRight then NodeHash(running, sibling) else NodeHash(sibling, running)
  }

  // The digest the first n steps of a proof lead to.
  function Applied(leaf: Digest, p: Proof, n: nat): Digest
    requires n <= |p.path| && n <= |p.siblingIsRight|
  {
    if n == 0 then leaf else Step(Applied(leaf, p, n - 1), p.path[n - 1], p.siblingIsRight[n - 1])
  }

  method ApplyProof(leaf: Digest, p: Proof) returns (running: Digest)
    ensures var n := if |p.path| < |p.siblingIsRight| then |p.path| else |p.siblingIsRight|;
            running == Applied(leaf, p, n)
  {
    running := leaf;
    var n := if |p.path| < |p.siblingIsRight| then |p.path| else |p.siblingIsRight|;
    for i := 0 to n
      invariant running == Applied(leaf, p, i)
    {
      running := Step(running, p.path[i], p.siblingIsRight[i]);
    }
  }

  predicate Proves(leaf: Digest, p: Proof, root: Digest) {
    |p.path| == |p.siblingIsRight| && Applied(leaf, p, |p.path|) == root
  }

  method Verify(leaf: Digest, p: Proof, root: Digest) returns (ok: bool)
    ensures ok == Proves(leaf, p, root)
  {
    if |p.path| != |p.siblingIsRight| { return false; }
    var got := ApplyProof(leaf, p);
    ok := got == root;
  }

  // The siblings on the way from the i-th leaf under d up to d.
  function ProofIn(d: Digest, i: nat): Proof {
    match d
    case Zero => Proof([], [])
    case LeafHash(_) => Proof([], [])
    case NodeHash(l, r) =>
      if i < |Leaves(l)| then Extended(ProofIn(l, i), r, true) else Extended(ProofIn(r, i - |Leaves(l)|), l, false)
  }

  // Half-way up, at level[idx]: the leaf has place `offset` under it, and the proof leads there.
  ghost predicate Reached(level: seq<Digest>, idx: nat, offset: nat, proof: Proof, leafIndex: nat) {
    idx < |level| && |LeavesUnder(level[..idx])| + offset == leafIndex &&
    offset < |Leaves(level[idx])| && proof == ProofIn(level[idx], offset)
  }

  predicate Promoted(level: seq<Digest>, idx: nat) {
    idx + 1 == |level| && |level| % 2 == 1
  }

  lemma ReachedAbove(level: seq<Digest>, idx: nat, offset: nat, proof: Proof, leafIndex: nat)
    requires |level| > 1 && Reached(level, idx, offset, proof, leafIndex)
    ensures Promoted(level, idx) ==> Reached(LevelAbove(level), idx / 2, offset, proof, leafIndex)
    ensures !Promoted(level, idx) && idx % 2 == 0 ==>
              Reached(LevelAbove(level), idx / 2, offset, Extended(proof, level[idx + 1], true), leafIndex)
    ensures !Promoted(level, idx) && idx % 2 == 1 ==>
              Reached(LevelAbove(level), idx / 2, offset + |Leaves(level[idx - 1])|,
                      Extended(proof, level[idx - 1], false), leafIndex)
  {
    hide LevelAbove, LeavesUnder;
    LevelKeepsLeaves(level, idx / 2);
    assert LevelAbove(level)[idx / 2] == NextOf(level, idx / 2);
    if idx % 2 == 0 {
      assert 2 * (idx / 2) == idx;
    } else {
      assert 2 * (idx / 2) == idx - 1;
      UnderOneMore(level, idx - 1);
    }
  }

  lemma UnderOneMore(level: seq<Digest>, n: nat)
    requires n < |level|
    ensures LeavesUnder(level[..n + 1]) == LeavesUnder(level[..n]) + Leaves(level[n])
  {
    assert level[..n + 1][..n] == level[..n];
  }

  // The proof, and the place, one level further up.
  function ProofAbove(level: seq<Digest>, idx: nat, proof: Proof): Proof
    requires idx < |level|
  {
    if Promoted(level, idx) then proof
    else if idx % 2 == 0 then Extended(proof, level[idx + 1], true)
    else Extended(proof, level[idx - 1], false)
  }

  ghost function OffsetAbove(level: seq<Digest>, idx: nat, offset: nat): nat
    requires idx < |level|
  {
    if Promoted(level, idx) || idx % 2 == 0 then offset else offset + |Leaves(level[idx - 1])|
  }

  lemma Climbs(level: seq<Digest>, idx: nat, offset: nat, proof: Proof, leafIndex: nat)
    requires |level| > 1 && Reached(level, idx, offset, proof, leafIndex)
    ensures Reached(LevelAbove(level), idx / 2, OffsetAbove(level, idx, offset), ProofAbove(level, idx, proof),
            leafIndex)
  {
    ReachedAbove(level, idx, offset, proof, leafIndex);
    hide Reached, LevelAbove, Extended;
  }

  lemma TopReached(level: seq<Digest>, idx: nat, offset: nat, proof: Proof, leafIndex: nat)
    requires |level| == 1 && Reached(level, idx, offset, proof, leafIndex)
    ensures proof == ProofIn(level[0], leafIndex)
  {
    hide ProofIn, Leaves;
    assert level[..0] == [];
  }

  lemma InRange(level: seq<Digest>, idx: nat, offset: nat, proof: Proof, leafIndex: nat)
    requires Reached(level, idx, offset, proof, leafIndex)
    ensures idx < |level|
  {
    hide ProofIn, Leaves, LeavesUnder;
  }

  // No proof for an index out of range; else the siblings, bottom up.
  method MakeProof(leaves: seq<Digest>, leafIndex: nat) returns (ok: bool, proof: Proof)
    requires AllLeaves(leaves)
    ensures ok == (leafIndex < |leaves|)
    ensures ok ==> proof == ProofIn(RootOf(leaves), leafIndex)
  {
    hide LeavesUnder, LevelAbove, ProofIn, Extended, Reached, AllLeaves;
    proof := Proof([], []);
    if leafIndex >= |leaves| { return false, proof; }
    var level := leaves;
    var idx: nat := leafIndex;
    ghost var offset: nat := 0;
    StartReached(leaves, leafIndex);
    while |level| > 1
      invariant level != [] && RootFrom(level) == RootFrom(leaves)
      invariant Reached(level, idx, offset, proof, leafIndex)
      decreases |level|
    {
      InRange(level, idx, offset, proof, leafIndex);
      Climbs(level, idx, offset, proof, leafIndex);
      offset := OffsetAbove(level, idx, offset);
      if !(idx + 1 == |level| && |level| % 2 == 1) {
        if idx % 2 == 0 {
          proof := Extended(proof, level[idx + 1], true);
        } else {
          proof := Extended(proof, level[idx - 1], false);
        }
      }
      idx := idx / 2;
      level := NextLevel(level);
    }
    TopReached(level, idx, offset, proof, leafIndex);
    ok := true;
  }

  lemma StartReached(leaves: seq<Digest>, leafIndex: nat)
    requires AllLeaves(leaves) && leafIndex < |leaves|
    ensures Reached(leaves, leafIndex, 0, Proof([], []), leafIndex)
  {
    LeavesAreThemselves(leaves[..leafIndex]);
  }

  lemma {:induction false} AppliedPrefix(leaf: Digest, p: Proof, sibling: Digest, isRight: bool, n: nat)
    requires n <= |p.path| && n <= |p.siblingIsRight|
    ensures Applied(leaf, Extended(p, sibling, isRight), n) == Applied(leaf, p, n)
  {
    if n > 0 { AppliedPrefix(leaf, p, sibling, isRight, n - 1); }
  }

  // Complete: the proof of every place leads to the top.
  lemma {:induction false} ProofInProves(d: Digest, i: nat)
    requires i < |Leaves(d)|
    ensures Proves(Leaves(d)[i], ProofIn(d, i), d)
  {
    if d.NodeHash? {
      var l, r := d.left, d.right;
      if i < |Leaves(l)| {
        ProofInProves(l, i);
        AppliedPrefix(Leaves(d)[i], ProofIn(l, i), r, true, |ProofIn(l, i).path|);
      } else {
        ProofInProves(r, i - |Leaves(l)|);
        AppliedPrefix(Leaves(d)[i], ProofIn(r, i - |Leaves(l)|), l, false, |ProofIn(r, i - |Leaves(l)|).path|);
      }
    }
  }

  // Sound: what leads from a leaf to a digest is the proof of a place where that leaf stands.
  lemma {:induction false} ProvesOnlyPlaces(leaf: Digest, p: Proof, d: Digest) returns (i: nat)
    requires leaf.LeafHash? && Proves(leaf, p, d)
    ensures i < |Leaves(d)| && Leaves(d)[i] == leaf && p == ProofIn(d, i)
    decreases |p.path|
  {
    var n := |p.path|;
    if n == 0 {
      i := 0;
    } else {
      var q, sibling, isRight := Proof(p.path[..n - 1], p.siblingIsRight[..n - 1]), p.path[n - 1],
        p.siblingIsRight[n - 1];
      assert p == Extended(q, sibling, isRight);
      AppliedPrefix(leaf, q, sibling, isRight, n - 1);
      i := ProvesOnlyPlaces(leaf, q, if isRight then d.left else d.right);
      if !isRight { i := i + |Leaves(d.left)|; }
    }
  }

  // A leaf-tagged hash verifies against the root of a list with exactly the proofs made for
  // the places where it stands in the list.
  lemma VerifiesExactlyMadeProofs(leaves: seq<Digest>, leaf: Digest, p: Proof)
    requires AllLeaves(leaves) && leaf.LeafHash?
    ensures Proves(leaf, p, RootOf(leaves)) <==>
            exists i: nat | i < |leaves| :: leaves[i] == leaf && p == ProofIn(RootOf(leaves), i)
  {
    LeavesOfRoot(leaves);
    if Proves(leaf, p, RootOf(leaves)) {
      var i := ProvesOnlyPlaces(leaf, p, RootOf(leaves));
      assert leaves[i] == leaf;
    }
    forall i: nat | i < |leaves| ensures Proves(leaves[i], ProofIn(RootOf(leaves), i), RootOf(leaves)) {
      ProofInProves(RootOf(leaves), i);
    }
  }
}
