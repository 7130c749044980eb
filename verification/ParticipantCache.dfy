// The participant cache (sync/participant_cache) and its completion from an untrusted
// warehouse (sync/snapshot_exchange). Leaves and merges are keyed by their own digests.
module ParticipantCache {
  import opened Options
  import opened Merkle

  // `evidence` stands for the node path and the block the cache keeps without looking at them.
  datatype LeafRecord = LeafRecord(ref: nat, evidence: nat)

  datatype Composition = Composition(left: Digest, right: Digest)

  type Compositions = map<Digest, Composition>

  // ---------- Reachability ----------

  predicate IsChild(t: Compositions, parent: Digest, child: Digest) {
    parent in t && (child == t[parent].left || child == t[parent].right)
  }

  ghost predicate IsWalk(t: Compositions, p: seq<Digest>) {
    p != [] && forall i | 0 <= i < |p| - 1 :: IsChild(t, p[i], p[i + 1])
  }

  ghost predicate WalkTo(t: Compositions, p: seq<Digest>, root: Digest, d: Digest) {
    IsWalk(t, p) && p[0] == root && p[|p| - 1] == d
  }

  // d lies under root in the table.
  ghost predicate Reachable(t: Compositions, root: Digest, d: Digest) {
    exists p :: WalkTo(t, p, root, d)
  }

  lemma ReachesItself(t: Compositions, root: Digest)
    ensures Reachable(t, root, root)
  {
    assert WalkTo(t, [root], root, root);
  }

  lemma ReachesChild(t: Compositions, root: Digest, parent: Digest, child: Digest)
    requires Reachable(t, root, parent) && IsChild(t, parent, child)
    ensures Reachable(t, root, child)
  {
    var p :| WalkTo(t, p, root, parent);
    assert WalkTo(t, p + [child], root, child);
  }

  // A set that is closed under children holds all that is reachable from it.
  lemma {:induction false} ClosedHoldsWalk(t: Compositions, closed: set<Digest>, p: seq<Digest>)
    requires IsWalk(t, p) && p[0] in closed
    requires forall d, c | d in closed && IsChild(t, d, c) :: c in closed
    ensures p[|p| - 1] in closed
  {
    if |p| > 1 {
      var q := p[..|p| - 1];
      assert IsWalk(t, q);
      ClosedHoldsWalk(t, closed, q);
      assert IsChild(t, q[|q| - 1], p[|p| - 1]);
    }
  }

  // Every key is the hash of its children, the smaller first.
  predicate Keyed(t: Compositions) {
    forall k | k in t :: k == NodeHash(t[k].left, t[k].right) && Le(t[k].left, t[k].right)
  }

  function Canonical(a: Digest, b: Digest): Composition {
    if Le(a, b) then Composition(a, b) else Composition(b, a)
  }

  // The digest of a merge of two snapshots.
  function Combined(a: Digest, b: Digest): Digest {
    NodeHash(Canonical(a, b).left, Canonical(a, b).right)
  }

  lemma CombinedCommutes(a: Digest, b: Digest)
    ensures Combined(a, b) == Combined(b, a)
  {
    LeIsTotal(a, b);
  }

  // ---------- The downward search ----------

  function ChildrenIn(t: Compositions): set<Digest> {
    (set k | k in t :: t[k].left) + (set k | k in t :: t[k].right)
  }

  type Parents = map<Digest, Digest>

  // Found so far: the root and whatever has a parent.
  predicate Seen(root: Digest, parentOf: Parents, d: Digest) {
    d == root || d in parentOf
  }

  ghost predicate SeenWell(t: Compositions, root: Digest, parentOf: Parents, rank: map<Digest, nat>, d: Digest) {
    && d in rank && Reachable(t, root, d)
    && (d in parentOf ==> IsChild(t, parentOf[d], d) && Seen(root, parentOf, parentOf[d]))
    && (d in parentOf && d != root ==> parentOf[d] in rank && rank[parentOf[d]] < rank[d])
  }

  // Every parent was found before its child, `rank` being the order of discovery.
  ghost predicate Discovered(t: Compositions, root: Digest, parentOf: Parents, rank: map<Digest, nat>) {
    && parentOf.Keys <= ChildrenIn(t)
    && forall d | Seen(root, parentOf, d) :: SeenWell(t, root, parentOf, rank, d)
  }

  function Ranked(rank: map<Digest, nat>, root: Digest, child: Digest, cur: Digest): map<Digest, nat>
    requires cur in rank
  {
    if child == root then rank else rank[child := rank[cur] + 1]
  }

  lemma DiscoverOne(t: Compositions, root: Digest, parentOf: Parents, rank: map<Digest, nat>, cur: Digest,
      child: Digest)
    requires Discovered(t, root, parentOf, rank)
    requires Seen(root, parentOf, cur) && IsChild(t, cur, child) && child !in parentOf
    ensures cur in rank && Discovered(t, root, parentOf[child := cur], Ranked(rank, root, child, cur))
  {
    hide Reachable;
    assert SeenWell(t, root, parentOf, rank, cur);
    ReachesChild(t, root, cur, child);
    var parentOf', rank' := parentOf[child := cur], Ranked(rank, root, child, cur);
    assert SeenWell(t, root, parentOf, rank, root);
    forall d | Seen(root, parentOf', d) ensures SeenWell(t, root, parentOf', rank', d) {
      if d == child {
        assert parentOf'[d] == cur && Seen(root, parentOf', cur);
      } else {
        assert SeenWell(t, root, parentOf, rank, d);
        if d in parentOf {
          assert parentOf'[d] == parentOf[d] && Seen(root, parentOf', parentOf[d]);
          assert child == root || parentOf[d] != child;
        }
      }
    }
  }

  // What is seen and not pending is not the leaf, and its children are seen.
  ghost predicate Exhausted(t: Compositions, root: Digest, parentOf: Parents, leaf: Digest, d: Digest) {
    d != leaf && forall c | IsChild(t, d, c) :: Seen(root, parentOf, c)
  }

  ghost predicate Explored(t: Compositions, root: Digest, parentOf: Parents, stack: seq<Digest>, leaf: Digest) {
    && (forall d | d in stack :: Seen(root, parentOf, d))
    && forall d | Seen(root, parentOf, d) && d !in stack :: Exhausted(t, root, parentOf, leaf, d)
  }

  // Both children of cur are looked at; one met for the first time gets a parent and a place
  // on the stack.
  method Expand(t: Compositions, root: Digest, leaf: Digest, cur: Digest, parentOf0: Parents, stack0: seq<Digest>,
                ghost rank0: map<Digest, nat>)
    returns (parentOf: Parents, stack: seq<Digest>, ghost rank: map<Digest, nat>)
    requires cur in t && cur != leaf && Seen(root, parentOf0, cur)
    requires Discovered(t, root, parentOf0, rank0) && Explored(t, root, parentOf0, stack0 + [cur], leaf)
    ensures Discovered(t, root, parentOf, rank) && Explored(t, root, parentOf, stack, leaf)
    ensures (parentOf == parentOf0 && stack == stack0) || |parentOf| > |parentOf0|
  {
    hide ChildrenIn, Reachable;
    parentOf, stack, rank := parentOf0, stack0, rank0;
    var children := [t[cur].left, t[cur].right];
    for i := 0 to 2
      invariant Discovered(t, root, parentOf, rank) && Seen(root, parentOf, cur)
      invariant forall d | Seen(root, parentOf0, d) :: Seen(root, parentOf, d)
      invariant forall d | d in stack0 :: d in stack
      invariant forall d | d in stack :: Seen(root, parentOf, d)
      invariant forall d | Seen(root, parentOf, d) && !Seen(root, parentOf0, d) :: d in stack
      invariant forall j | 0 <= j < i :: Seen(root, parentOf, children[j])
      invariant (parentOf == parentOf0 && stack == stack0) || |parentOf| > |parentOf0|
    {
      var child := children[i];
      if child !in parentOf {
        DiscoverOne(t, root, parentOf, rank, cur, child);
        rank := Ranked(rank, root, child, cur);
        parentOf := parentOf[child := cur];
        stack := stack + [child];
      }
    }
    forall d | Seen(root, parentOf, d) && d !in stack ensures Exhausted(t, root, parentOf, leaf, d) {
      if d == cur {
        assert t[cur].left == children[0] && t[cur].right == children[1];
      } else {
        assert d !in stack0 + [cur];
        assert Exhausted(t, root, parentOf0, leaf, d);
      }
    }
  }

  // A leaf is found exactly when it lies under the root, whatever the table holds; the
  // proof read off on the way back leads from it to the root when the table is keyed right.
  method MerklePath(t: Compositions, root: Digest, leaf: Digest) returns (found: bool, proof: Proof)
    ensures found <==> Reachable(t, root, leaf)
    ensures found && Keyed(t) ==> Proves(leaf, proof, root)
  {
    hide Discovered, Explored, ChildrenIn;
    proof := Proof([], []);
    if root == leaf {
      ReachesItself(t, root);
      return true, proof;
    }
    var parentOf: Parents, stack := map[], [root];
    ghost var rank := map[root := 0];
    StartSearch(t, root, leaf);
    found := false;
    while stack != []
      invariant Discovered(t, root, parentOf, rank)
      invariant found ==> Seen(root, parentOf, leaf)
      invariant !found ==> Explored(t, root, parentOf, stack, leaf)
      decreases if found then 0 else 1, |ChildrenIn(t)| - |parentOf|, |stack|
    {
      var cur := stack[|stack| - 1];
      ghost var before := stack;
      stack := stack[..|stack| - 1];
      assert before == stack + [cur];
      PopSeen(t, root, parentOf, stack, cur, leaf);
      if cur == leaf { found := true; break; }
      if cur in t {
        ghost var known := |parentOf|;
        parentOf, stack, rank := Expand(t, root, leaf, cur, parentOf, stack, rank);
        DiscoveredBound(t, root, parentOf, rank);
      } else {
        PopUnknown(t, root, parentOf, stack, cur, leaf);
      }
    }
    if !found {
      NothingLeft(t, root, parentOf, leaf);
      return;
    }
    SeenIsWell(t, root, parentOf, rank, leaf);
    var cur := leaf;
    while cur != root
      invariant Seen(root, parentOf, cur) && SeenWell(t, root, parentOf, rank, cur)
      invariant |proof.path| == |proof.siblingIsRight|
      invariant Keyed(t) ==> Applied(leaf, proof, |proof.path|) == cur
      decreases rank[cur]
    {
      var parent := parentOf[cur];
      var comp := t[parent];
      ghost var n := |proof.path|;
      if cur == comp.left {
        AppliedPrefix(leaf, proof, comp.right, true, n);
        proof := Extended(proof, comp.right, true);
      } else {
        AppliedPrefix(leaf, proof, comp.left, false, n);
        proof := Extended(proof, comp.left, false);
      }
      SeenIsWell(t, root, parentOf, rank, parent);
      cur := parent;
    }
  }

  lemma StartSearch(t: Compositions, root: Digest, leaf: Digest)
    ensures Discovered(t, root, map[], map[root := 0])
    ensures Explored(t, root, map[], [root], leaf)
  {
    ReachesItself(t, root);
  }

  lemma PopSeen(t: Compositions, root: Digest, parentOf: Parents, stack: seq<Digest>, cur: Digest, leaf: Digest)
    requires Explored(t, root, parentOf, stack + [cur], leaf)
    ensures Seen(root, parentOf, cur)
  {
    assert cur in stack + [cur];
  }

  lemma PopUnknown(t: Compositions, root: Digest, parentOf: Parents, stack: seq<Digest>, cur: Digest, leaf: Digest)
    requires Explored(t, root, parentOf, stack + [cur], leaf) && cur != leaf && cur !in t
    ensures Explored(t, root, parentOf, stack, leaf)
  {
    forall d | Seen(root, parentOf, d) && d !in stack ensures Exhausted(t, root, parentOf, leaf, d) {
      if d != cur { assert d !in stack + [cur]; }
    }
  }

  lemma DiscoveredBound(t: Compositions, root: Digest, parentOf: Parents, rank: map<Digest, nat>)
    requires Discovered(t, root, parentOf, rank)
    ensures |parentOf| <= |ChildrenIn(t)|
  {
    SubsetSize(parentOf.Keys, ChildrenIn(t));
  }

  lemma {:induction false} SubsetSize<T>(a: set<T>, b: set<T>)
    requires a <= b
    ensures |a| <= |b|
  {
    if a != {} {
      var x :| x in a;
      SubsetSize(a - {x}, b - {x});
    }
  }

  lemma SeenIsWell(t: Compositions, root: Digest, parentOf: Parents, rank: map<Digest, nat>, d: Digest)
    requires Discovered(t, root, parentOf, rank) && Seen(root, parentOf, d)
    ensures SeenWell(t, root, parentOf, rank, d)
  {
  }

  lemma NothingLeft(t: Compositions, root: Digest, parentOf: Parents, leaf: Digest)
    requires Explored(t, root, parentOf, [], leaf)
    ensures !Reachable(t, root, leaf)
  {
    var closed := {root} + parentOf.Keys;
    forall d, c | d in closed && IsChild(t, d, c) ensures c in closed {
      assert Exhausted(t, root, parentOf, leaf, d);
    }
    assert leaf in closed ==> Exhausted(t, root, parentOf, leaf, leaf);
    if Reachable(t, root, leaf) {
      var p :| WalkTo(t, p, root, leaf);
      ClosedHoldsWalk(t, closed, p);
      assert false;
    }
  }

  // ---------- The cache ----------

  // A leaf record stands under the hash of its reference.
  predicate LeavesKeyed(leaves: map<Digest, LeafRecord>) {
    forall k | k in leaves :: k == LeafHash(leaves[k].ref)
  }

  class Cache {
    var leaves: map<Digest, LeafRecord>
    var compositions: Compositions

    // No entry disagrees with its own key.
    predicate Valid() reads this {
      LeavesKeyed(leaves) && Keyed(compositions)
    }

    constructor ()
      ensures Valid() && leaves == map[] && compositions == map[]
    {
      leaves, compositions := map[], map[];
    }

    method PutLeaf(record: LeafRecord) returns (key: Digest)
      requires Valid()
      modifies this`leaves
      ensures Valid() && key == LeafHash(record.ref) && leaves == old(leaves)[key := record]
    {
      key := LeafHash(record.ref);
      leaves := leaves[key := record];
    }

    // Whatever the two roots and their order, the entry agrees with its key.
    method PutComposition(a: Digest, b: Digest) returns (parent: Digest)
      requires Valid()
      modifies this`compositions
      ensures Valid() && parent == Combined(a, b) == Combined(b, a)
      ensures compositions == old(compositions)[parent := Canonical(a, b)]
      ensures Le(a, b) ==> parent == NodeHash(a, b) && compositions[parent] == Composition(a, b)
    {
      LeIsTotal(a, b);
      var left := if Le(a, b) then a else b;
      var right := if Le(a, b) then b else a;
      parent := NodeHash(left, right);
      compositions := compositions[parent := Composition(left, right)];
    }

    // A proof is assembled exactly when the record is cached and the leaf lies under the
    // root, and it verifies.
    method BuildProof(root: Digest, leaf: Digest) returns (proof: Option<(LeafRecord, Proof)>)
      requires Valid()
      ensures proof.Some? <==> leaf in leaves && Reachable(compositions, root, leaf)
      ensures proof.Some? ==> LeafHash(proof.value.0.ref) == leaf && Proves(leaf, proof.value.1, root)
    {
      if leaf !in leaves { return None; }
      var found, path := MerklePath(compositions, root, leaf);
      if !found { return None; }
      proof := Some((leaves[leaf], path));
    }

    // One finished merge: both leaves the tips reveal, and the union of the roots.
    method RecordMerge(own: Option<LeafRecord>, ownRoot: Digest, partner: Option<LeafRecord>, partnerRoot: Digest)
      returns (union: Digest)
      requires Valid()
      modifies this
      ensures Valid() && union == Combined(ownRoot, partnerRoot)
      ensures compositions == old(compositions)[union := Canonical(ownRoot, partnerRoot)]
      ensures leaves == WithFresh(WithFresh(old(leaves), own, ownRoot), partner, partnerRoot)
      ensures forall d | d in leaves && d !in old(leaves) :: d == ownRoot || d == partnerRoot
      ensures forall d | d in old(leaves) :: d in leaves
      ensures partner.Some? && LeafHash(partner.value.ref) == partnerRoot ==>
                partnerRoot in leaves && leaves[partnerRoot] == partner.value
      ensures own.Some? && LeafHash(own.value.ref) == ownRoot && ownRoot != partnerRoot ==>
                ownRoot in leaves && leaves[ownRoot] == own.value
    {
      if own.Some? && LeafHash(own.value.ref) == ownRoot { var _ := PutLeaf(own.value); }
      if partner.Some? && LeafHash(partner.value.ref) == partnerRoot { var _ := PutLeaf(partner.value); }
      union := PutComposition(ownRoot, partnerRoot);
    }
  }

  // The tip of a side that merges for the first time is the leaf its snapshot commits.
  function WithFresh(leaves: map<Digest, LeafRecord>, tip: Option<LeafRecord>, root: Digest): map<Digest, LeafRecord> {
    if tip.Some? && LeafHash(tip.value.ref) == root then leaves[root := tip.value] else leaves
  }

  // What a merge records makes both snapshots' members provable under the union.
  lemma MergeKeepsMembers(t: Compositions, a: Digest, b: Digest, leaf: Digest)
    requires Keyed(t) && (Reachable(t, a, leaf) || Reachable(t, b, leaf))
    ensures Keyed(t[Combined(a, b) := Canonical(a, b)])
    ensures Reachable(t[Combined(a, b) := Canonical(a, b)], Combined(a, b), leaf)
  {
    LeIsTotal(a, b);
    var union := Combined(a, b);
    var t' := t[union := Canonical(a, b)];
    assert t' == t || union !in t;
    var from := if Reachable(t, a, leaf) then a else b;
    var p :| WalkTo(t, p, from, leaf);
    assert forall x, y | IsChild(t, x, y) :: IsChild(t', x, y);
    assert IsChild(t', union, from);
    assert WalkTo(t', [union] + p, union, leaf);
  }
}
