// Completing the participant cache from a warehouse that answers whatever it likes
// (sync/snapshot_exchange).
module SnapshotExchange {
  import opened Options
  import opened Merkle
  import opened ParticipantCache

  // The warehouse's answers, right or wrong.
  datatype Store = Store(compositions: Digest -> Option<Composition>, leaves: Digest -> Option<LeafRecord>)

  // An answer that hashes to what was asked for.
  predicate OffersComposition(s: Store, d: Digest) {
    match s.compositions(d)
    case None => false
    case Some(c) => NodeHash(c.left, c.right) == d
  }

  predicate OffersLeaf(s: Store, d: Digest) {
    match s.leaves(d)
    case None => false
    case Some(record) => LeafHash(record.ref) == d
  }

  function Subterms(d: Digest): set<Digest> {
    {d} + if d.NodeHash? then Subterms(d.left) + Subterms(d.right) else {}
  }

  // The part of a digest seen from the top when only the digests in `open` can be looked into.
  function Under(root: Digest, open: set<Digest>): (under: set<Digest>)
    ensures under <= Subterms(root)
  {
    {root} + if root.NodeHash? && root in open then Under(root.left, open) + Under(root.right, open) else {}
  }

  // The digests below root that the cache or the warehouse can open.
  function Openable(s: Store, t: Compositions, root: Digest): set<Digest> {
    set d | d in Subterms(root) && (d in t || OffersComposition(s, d))
  }

  // All that a completion of the cache from this warehouse comes by.
  function Met(s: Store, t: Compositions, root: Digest): set<Digest> {
    Under(root, Openable(s, t, root))
  }

  function Stored(d: Digest): Digest {
    if d.NodeHash? then Combined(d.left, d.right) else d
  }

  function NewCompositions(s: Store, met: set<Digest>): set<Digest> {
    set d | d in met && OffersComposition(s, d) :: Stored(d)
  }

  function NewLeaves(s: Store, met: set<Digest>): set<Digest> {
    set d | d in met && OffersLeaf(s, d)
  }

  lemma {:induction false} SubtermsClosed(root: Digest, d: Digest)
    requires d in Subterms(root)
    ensures Subterms(d) <= Subterms(root)
  {
    if d != root && root.NodeHash? {
      if d in Subterms(root.left) {
        SubtermsClosed(root.left, d);
      } else {
        SubtermsClosed(root.right, d);
      }
    }
  }

  lemma {:induction false} UnderClosed(root: Digest, open: set<Digest>, d: Digest)
    requires d in Under(root, open) && d.NodeHash? && d in open
    ensures d.left in Under(root, open) && d.right in Under(root, open)
  {
    if d == root {
      assert root.left in Under(root.left, open) && root.right in Under(root.right, open);
    } else {
      if d in Under(root.left, open) {
        UnderClosed(root.left, open, d);
      } else {
        UnderClosed(root.right, open, d);
      }
    }
  }

  // What is closed under looking into open digests holds all that is under its members.
  lemma {:induction false} ClosedHoldsUnder(root: Digest, open: set<Digest>, closed: set<Digest>)
    requires root in closed
    requires forall d | d in closed && d in open && d.NodeHash? :: d.left in closed && d.right in closed
    ensures Under(root, open) <= closed
  {
    if root.NodeHash? && root in open {
      ClosedHoldsUnder(root.left, open, closed);
      ClosedHoldsUnder(root.right, open, closed);
    }
  }

  // In a keyed table, what can be reached is what is under the keys of the table.
  lemma ReachableIsUnder(t: Compositions, root: Digest, d: Digest)
    requires Keyed(t)
    ensures Reachable(t, root, d) <==> d in Under(root, t.Keys)
  {
    if Reachable(t, root, d) {
      var p :| WalkTo(t, p, root, d);
      var closed := Under(root, t.Keys);
      forall x, c | x in closed && IsChild(t, x, c) ensures c in closed {
        UnderClosed(root, t.Keys, x);
      }
      ClosedHoldsWalk(t, closed, p);
    }
    if d in Under(root, t.Keys) { UnderIsReachable(t, root, d); }
  }

  lemma {:induction false} UnderIsReachable(t: Compositions, root: Digest, d: Digest)
    requires Keyed(t) && d in Under(root, t.Keys)
    ensures Reachable(t, root, d)
  {
    ReachesItself(t, root);
    if d != root {
      var child := if d in Under(root.left, t.Keys) then root.left else root.right;
      UnderIsReachable(t, child, d);
      var p :| WalkTo(t, p, child, d);
      assert IsChild(t, root, child);
      assert WalkTo(t, [root] + p, root, d);
    }
  }

  // ---------- The completion ----------

  // Half-way: everything visited or waiting is met, and what is visited is looked into.
  ghost predicate Progress(s: Store, t: Compositions, root: Digest, visited: set<Digest>, stack: seq<Digest>) {
    && (root in visited || root in stack)
    && visited <= Met(s, t, root)
    && (forall d | d in stack :: d in Met(s, t, root))
    && forall d | d in visited && d in Openable(s, t, root) && d.NodeHash? ::
         (d.left in visited || d.left in stack) && (d.right in visited || d.right in stack)
  }

  // Every composition in the cache is an old one or joins two digests that are met.
  ghost predicate Accounted(s: Store, t: Compositions, root: Digest, now: Compositions) {
    forall d | d in now && d !in t :: d.NodeHash? && d.left in Met(s, t, root) && d.right in Met(s, t, root)
  }

  lemma StartProgress(s: Store, t: Compositions, root: Digest)
    ensures Progress(s, t, root, {}, [root]) && Accounted(s, t, root, t)
  {
  }

  lemma Skip(s: Store, t: Compositions, root: Digest, visited: set<Digest>, stack: seq<Digest>, node: Digest)
    requires Progress(s, t, root, visited, stack + [node]) && node in visited
    ensures Progress(s, t, root, visited, stack)
  {
    hide Met, Openable;
    assert forall d | d in stack + [node] :: d in stack || d in visited;
    assert forall d | d in stack :: d in stack + [node];
  }

  lemma PoppedIsMet(s: Store, t: Compositions, root: Digest, visited: set<Digest>, stack: seq<Digest>, node: Digest)
    requires Progress(s, t, root, visited, stack + [node])
    ensures node in Met(s, t, root) && node in Subterms(root)
  {
    assert node in stack + [node];
  }

  // A node of the cache, old or new, and a node rightly answered have both children met.
  lemma ChildrenAreMet(s: Store, t: Compositions, root: Digest, now: Compositions, node: Digest)
    requires Accounted(s, t, root, now) && node.NodeHash? && node in Met(s, t, root)
    requires node in now || OffersComposition(s, node)
    ensures node.left in Met(s, t, root) && node.right in Met(s, t, root)
  {
    if node in t || OffersComposition(s, node) {
      UnderClosed(root, Openable(s, t, root), node);
    }
  }

  lemma LookedInto(s: Store, t: Compositions, root: Digest, visited: set<Digest>, stack: seq<Digest>, node: Digest)
    requires Progress(s, t, root, visited, stack + [node]) && node in Met(s, t, root)
    requires node.NodeHash? && node.left in Met(s, t, root) && node.right in Met(s, t, root)
    ensures Progress(s, t, root, visited + {node}, stack + [node.left, node.right])
  {
    hide Met, Openable;
    var stack' := stack + [node.left, node.right];
    assert forall d | d in stack + [node] :: d == node || d in stack';
    assert forall d | d in stack' :: d in stack + [node] || d == node.left || d == node.right;
    assert stack'[|stack|] == node.left && stack'[|stack| + 1] == node.right;
  }

  lemma PassedBy(s: Store, t: Compositions, root: Digest, visited: set<Digest>, stack: seq<Digest>, node: Digest)
    requires Progress(s, t, root, visited, stack + [node]) && node in Met(s, t, root)
    requires node !in t && !OffersComposition(s, node)
    ensures Progress(s, t, root, visited + {node}, stack)
  {
    hide Met;
    assert forall d | d in stack + [node] :: d == node || d in stack;
    assert forall d | d in stack :: d in stack + [node];
  }

  lemma AllMet(s: Store, t: Compositions, root: Digest, visited: set<Digest>)
    requires Progress(s, t, root, visited, [])
    ensures visited == Met(s, t, root)
  {
    ClosedHoldsUnder(root, Openable(s, t, root), visited);
  }

  lemma OneMore(s: Store, visited: set<Digest>, node: Digest)
    ensures NewCompositions(s, visited + {node}) ==
            NewCompositions(s, visited) + if OffersComposition(s, node) then {Stored(node)} else {}
    ensures NewLeaves(s, visited + {node}) == NewLeaves(s, visited) + if OffersLeaf(s, node) then {node} else {}
  {
  }

  ghost predicate LeavesFrom(s: Store, old_: map<Digest, LeafRecord>, now: map<Digest, LeafRecord>) {
    forall d | d in now :: if d in old_ then now[d] == old_[d] else s.leaves(d) == Some(now[d])
  }

  // Every right answer of the warehouse names the smaller child first, as every merge does.
  ghost predicate CanonicalStore(s: Store) {
    forall d | OffersComposition(s, d) :: Le(d.left, d.right)
  }

  function Growth(t: Compositions, leaves: map<Digest, LeafRecord>, t': Compositions,
      leaves': map<Digest, LeafRecord>): int {
    |t'| - |t| + |leaves'| - |leaves|
  }

  lemma GrowsByComposition(s: Store, t: Compositions, leaves: map<Digest, LeafRecord>,
                           now: Compositions, leavesNow: map<Digest, LeafRecord>, node: Digest)
    requires OffersComposition(s, node) && node !in now
    ensures var now' := now[Combined(node.left, node.right) := Canonical(node.left, node.right)];
            var before, after := Growth(t, leaves, now, leavesNow), Growth(t, leaves, now', leavesNow);
            after <= before + 1 && (CanonicalStore(s) ==> after == before + 1)
  {
  }

  lemma GrowsByLeaf(t: Compositions, leaves: map<Digest, LeafRecord>,
                    now: Compositions, leavesNow: map<Digest, LeafRecord>, node: Digest, record: LeafRecord)
    requires node !in leavesNow
    ensures Growth(t, leaves, now, leavesNow[node := record]) == Growth(t, leaves, now, leavesNow) + 1
  {
  }

  // The walk ends whatever the warehouse answers; afterwards the cache holds, besides what it
  // held, exactly the rightly answered compositions and leaves among the digests met.
  method CompleteCache(s: Store, cache: Cache, root: Digest) returns (added: nat)
    requires cache.Valid()
    modifies cache
    ensures cache.Valid()
    ensures cache.compositions.Keys ==
            old(cache.compositions).Keys + NewCompositions(s, Met(s, old(cache.compositions), root))
    ensures cache.leaves.Keys == old(cache.leaves).Keys + NewLeaves(s, Met(s, old(cache.compositions), root))
    ensures LeavesFrom(s, old(cache.leaves), cache.leaves)
    ensures Growth(old(cache.compositions), old(cache.leaves), cache.compositions, cache.leaves) <= added
    ensures CanonicalStore(s) ==>
              Growth(old(cache.compositions), old(cache.leaves), cache.compositions, cache.leaves) == added
  {
    hide Met, Openable, Subterms, Progress, Accounted, NewCompositions, NewLeaves, Growth, CanonicalStore;
    var stack, visited: set<Digest> := [root], {};
    added := 0;
    ghost var t, leaves0 := cache.compositions, cache.leaves;
    StartProgress(s, t, root);
    NothingNew(s, t, leaves0);
    while stack != []
      invariant cache.Valid() && Progress(s, t, root, visited, stack) && Accounted(s, t, root, cache.compositions)
      invariant cache.compositions.Keys == t.Keys + NewCompositions(s, visited)
      invariant cache.leaves.Keys == leaves0.Keys + NewLeaves(s, visited)
      invariant LeavesFrom(s, leaves0, cache.leaves)
      invariant Growth(t, leaves0, cache.compositions, cache.leaves) <= added
      invariant CanonicalStore(s) ==> Growth(t, leaves0, cache.compositions, cache.leaves) == added
      decreases Subterms(root) - visited, |stack|
    {
      var node := stack[|stack| - 1];
      ghost var before := stack;
      stack := stack[..|stack| - 1];
      assert before == stack + [node];
      if node in visited {
        Skip(s, t, root, visited, stack, node);
        continue;
      }
      PoppedIsMet(s, t, root, visited, stack, node);
      OneMore(s, visited, node);
      ghost var seen := visited;
      visited := visited + {node};
      if node in cache.compositions {
        var known := cache.compositions[node];
        ChildrenAreMet(s, t, root, cache.compositions, node);
        LookedInto(s, t, root, seen, stack, node);
        stack := stack + [known.left, known.right];
        continue;
      }
      var comp := s.compositions(node);
      if comp.Some? && NodeHash(comp.value.left, comp.value.right) == node {
        ChildrenAreMet(s, t, root, cache.compositions, node);
        LookedInto(s, t, root, seen, stack, node);
        AccountedWith(s, t, root, cache.compositions, node);
        GrowsByComposition(s, t, leaves0, cache.compositions, cache.leaves, node);
        var _ := cache.PutComposition(comp.value.left, comp.value.right);
        added := added + 1;
        stack := stack + [comp.value.left, comp.value.right];
        continue;
      }
      PassedBy(s, t, root, seen, stack, node);
      if node !in cache.leaves {
        var record := s.leaves(node);
        if record.Some? && LeafHash(record.value.ref) == node {
          GrowsByLeaf(t, leaves0, cache.compositions, cache.leaves, node, record.value);
          var _ := cache.PutLeaf(record.value);
          added := added + 1;
        }
      }
    }
    AllMet(s, t, root, visited);
  }

  lemma NothingNew(s: Store, t: Compositions, leaves: map<Digest, LeafRecord>)
    ensures NewCompositions(s, {}) == {} && NewLeaves(s, {}) == {} && Growth(t, leaves, t, leaves) == 0
  {
  }

  lemma AccountedWith(s: Store, t: Compositions, root: Digest, now: Compositions, node: Digest)
    requires Accounted(s, t, root, now)
    requires node.NodeHash? && node.left in Met(s, t, root) && node.right in Met(s, t, root)
    ensures Accounted(s, t, root, now[Stored(node) := Canonical(node.left, node.right)])
  {
  }

  // ---------- What a completed cache proves ----------

  // After the completion exactly the digests met lie under the root in the cache.
  lemma CompletedReachesMet(s: Store, t: Compositions, t': Compositions, root: Digest, d: Digest)
    requires Keyed(t) && Keyed(t') && CanonicalStore(s)
    requires t'.Keys == t.Keys + NewCompositions(s, Met(s, t, root))
    ensures Reachable(t', root, d) <==> d in Met(s, t, root)
  {
    var met, under, open := Met(s, t, root), Under(root, t'.Keys), Openable(s, t, root);
    ReachableIsUnder(t', root, d);
    assert forall e | OffersComposition(s, e) :: Stored(e) == e;
    forall e | e in met && e in t'.Keys && e.NodeHash? ensures e.left in met && e.right in met {
      UnderClosed(root, open, e);
    }
    ClosedHoldsUnder(root, t'.Keys, met);
    var both := under * met;
    forall e | e in both && e in open && e.NodeHash? ensures e.left in both && e.right in both {
      UnderClosed(root, open, e);
      UnderClosed(root, t'.Keys, e);
    }
    ClosedHoldsUnder(root, open, both);
  }

  // The warehouse and the cache have between them the whole of what the root commits.
  ghost predicate Complete(s: Store, t: Compositions, leaves: map<Digest, LeafRecord>, root: Digest) {
    forall d | d in Subterms(root) ::
      && (d.NodeHash? ==> d in t || OffersComposition(s, d))
      && (d.LeafHash? ==> d in leaves || OffersLeaf(s, d))
  }

  // A cache completed from a complete canonical warehouse proves every member of the root.
  lemma CompletedProvesEveryMember(s: Store, t: Compositions, leaves: map<Digest, LeafRecord>,
                                   t': Compositions, leaves': map<Digest, LeafRecord>, root: Digest, leaf: Digest)
    requires Keyed(t) && Keyed(t') && CanonicalStore(s) && Complete(s, t, leaves, root)
    requires t'.Keys == t.Keys + NewCompositions(s, Met(s, t, root))
    requires leaves'.Keys == leaves.Keys + NewLeaves(s, Met(s, t, root))
    requires leaf in Leaves(root)
    ensures leaf in leaves' && Reachable(t', root, leaf)
  {
    LeafIsSubterm(root, leaf);
    var met := Met(s, t, root);
    SubtermsHoldRoot(root);
    forall d | d in Subterms(root) && d.NodeHash? ensures d in Openable(s, t, root) {}
    AllUnder(root, Openable(s, t, root));
    CompletedReachesMet(s, t, t', root, leaf);
  }

  lemma SubtermsHoldRoot(root: Digest)
    ensures root in Subterms(root)
  {
  }

  lemma {:induction false} LeafIsSubterm(root: Digest, leaf: Digest)
    requires leaf in Leaves(root)
    ensures leaf in Subterms(root) && leaf.LeafHash?
  {
    if root.NodeHash? {
      if leaf in Leaves(root.left) { LeafIsSubterm(root.left, leaf); } else { LeafIsSubterm(root.right, leaf); }
    }
  }

  lemma {:induction false} AllUnder(root: Digest, open: set<Digest>)
    requires forall d | d in Subterms(root) && d.NodeHash? :: d in open
    ensures Under(root, open) == Subterms(root)
  {
    if root.NodeHash? {
      AllUnder(root.left, open);
      AllUnder(root.right, open);
    }
  }
}
