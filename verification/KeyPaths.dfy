// The certificate of a branch's key: its nodes from the root, and its key changes
// (blockchain/key_path).
module KeyPaths {
  import opened Options
  import opened Blocks

  datatype KeyPath = KeyPath(path: seq<Node>, rotations: seq<Block>)

  // Heap arithmetic on 32 bits: the root's wraps.
  function ParentIndex(n: Node): nat {
    if n.index == 0 then 0x7FFF_FFFF else (n.index - 1) / 2
  }

  predicate IsChild(parent: Node, n: Node) {
    ParentIndex(n) == parent.index && n.parent == OfNode(parent) && parent.working in n.signers
  }

  // A self-signed root, then child after child, each signed by its parent's key.
  predicate Linked(path: seq<Node>) {
    && path != [] && path[0].index == 0 && path[0].parent == ZeroHash && path[0].structural in path[0].signers
    && forall k | 1 <= k < |path| :: IsChild(path[k - 1], path[k])
  }

  method VerifyNodePath(path: seq<Node>) returns (chain: Option<nat>)
    ensures chain == if Linked(path) then Some(path[0].structural) else None
  {
    if path == [] { return None; }
    var root := path[0];
    if root.index != 0 || root.parent != ZeroHash { return None; }
    for k := 0 to |path|
      invariant k > 0 ==> root.structural in root.signers
      invariant forall j | 1 <= j < k :: IsChild(path[j - 1], path[j])
    {
      var n := path[k];
      if k == 0 {
        if root.structural !in n.signers { return None; }
      } else {
        var parent := path[k - 1];
        if ParentIndex(n) != parent.index || n.parent != OfNode(parent) || parent.working !in n.signers { return None; }
      }
    }
    chain := Some(root.structural);
  }

  function NextKey(b: Block): Option<nat> {
    if b.body.Rotation? then b.body.next else None
  }

  // The key a branch signs with after the first n key changes.
  function KeyAfter(first: nat, rotations: seq<Block>, n: nat): nat
    requires n <= |rotations|
  {
    if n == 0 then first
    else match NextKey(rotations[n - 1])
      case None => KeyAfter(first, rotations, n - 1)
      case Some(key) => key
  }

  function SignerKey(first: nat, rotations: seq<Block>): nat {
    KeyAfter(first, rotations, |rotations|)
  }

  // The i-th key change: of this branch, in order, signed by the key before it, naming the next.
  predicate RotationFits(chain: nat, tip: Node, rotations: seq<Block>, i: nat)
    requires i < |rotations|
  {
    var b := rotations[i];
    && b.body.Rotation? && b.body.next.Some?
    && b.address.user == chain && b.address.node == tip.index
    && (i > 0 ==> rotations[i - 1].address.index < b.address.index)
    && SignedBy(b, KeyAfter(tip.working, rotations, i))
  }

  predicate RotationsFit(chain: nat, tip: Node, rotations: seq<Block>) {
    forall i | 0 <= i < |rotations| :: RotationFits(chain, tip, rotations, i)
  }

  predicate Certifies(kp: KeyPath, chain: nat) {
    Linked(kp.path) && kp.path[0].structural == chain && RotationsFit(chain, kp.path[|kp.path| - 1], kp.rotations)
  }

  method VerifyKeyPath(kp: KeyPath) returns (chain: Option<nat>)
    ensures chain == None <==> !exists c :: Certifies(kp, c)
    ensures chain.Some? ==> Certifies(kp, chain.value)
  {
    chain := VerifyNodePath(kp.path);
    if chain.None? { return; }
    var tip := kp.path[|kp.path| - 1];
    var key, first := tip.working, true;
    var prevIndex := 0;
    for i := 0 to |kp.rotations|
      invariant key == KeyAfter(tip.working, kp.rotations, i) && first == (i == 0)
      invariant i > 0 ==> prevIndex == kp.rotations[i - 1].address.index
      invariant forall j | 0 <= j < i :: RotationFits(chain.value, tip, kp.rotations, j)
    {
      var b := kp.rotations[i];
      var ok := b.body.Rotation? && b.address.user == chain.value && b.address.node == tip.index &&
                (first || b.address.index > prevIndex) && SignedBy(b, key) && b.body.next.Some?;
      if !ok {
        assert forall c | Certifies(kp, c) :: c == chain.value && RotationFits(c, tip, kp.rotations, i);
        return None;
      }
      key, prevIndex, first := b.body.next.value, b.address.index, false;
    }
    assert Certifies(kp, chain.value);
  }

  method FindSignerKey(kp: KeyPath) returns (key: Option<nat>)
    ensures key == if kp.path == [] then None else Some(SignerKey(kp.path[|kp.path| - 1].working, kp.rotations))
  {
    if kp.path == [] { return None; }
    var cur := kp.path[|kp.path| - 1].working;
    for i := 0 to |kp.rotations|
      invariant cur == KeyAfter(kp.path[|kp.path| - 1].working, kp.rotations, i)
    {
      var next := NextKey(kp.rotations[i]);
      if next.Some? { cur := next.value; }
    }
    key := Some(cur);
  }

  // The k-th node: one step down the heap, naming the node above it and signed by its key.
  predicate StepsDown(path: seq<Node>, k: nat)
    requires 0 < k < |path|
  {
    && path[k].parent == OfNode(path[k - 1]) && path[k - 1].working in path[k].signers
    && path[k - 1].index == if path[k].index == 0 then 0x7FFF_FFFF else (path[k].index - 1) / 2
  }

  // The i-th key change: of this branch, later than the one before it, naming a key, and signed by
  // the key named before it, the first by the node's.
  predicate Changes(chain: nat, tip: Node, rotations: seq<Block>, i: nat)
    requires i < |rotations|
  {
    var b := rotations[i];
    && b.body.Rotation? && b.body.next.Some? && b.address.user == chain && b.address.node == tip.index
    && if i == 0 then tip.working in b.signers
       else
         var before := rotations[i - 1];
         && before.address.index < b.address.index
         && before.body.Rotation? && before.body.next.Some? && before.body.next.value in b.signers
  }

  // A certificate read out: a root of this chain that signed itself, nodes down from it, and the key
  // changes of the last one.
  lemma CertifiesExactly(kp: KeyPath, chain: nat)
    ensures Certifies(kp, chain) <==>
            && kp.path != []
            && kp.path[0].index == 0 && kp.path[0].parent == ZeroHash
            && kp.path[0].structural == chain && chain in kp.path[0].signers
            && (forall k: nat | 1 <= k < |kp.path| :: StepsDown(kp.path, k))
            && var tip := kp.path[|kp.path| - 1];
               forall i: nat | i < |kp.rotations| :: Changes(chain, tip, kp.rotations, i)
  {
    if kp.path != [] {
      ChangesExactly(chain, kp.path[|kp.path| - 1], kp.rotations);
      StepsExactly(kp.path);
    }
    hide RotationsFit, Changes, StepsDown, IsChild;
  }

  lemma StepsExactly(path: seq<Node>)
    ensures (forall k: nat | 1 <= k < |path| :: StepsDown(path, k)) <==>
            forall k | 1 <= k < |path| :: IsChild(path[k - 1], path[k])
  {
    assert forall k: nat | 1 <= k < |path| :: StepsDown(path, k) <==> IsChild(path[k - 1], path[k]);
  }

  lemma ChangesExactly(chain: nat, tip: Node, rotations: seq<Block>)
    ensures RotationsFit(chain, tip, rotations) <==>
            forall i: nat | i < |rotations| :: Changes(chain, tip, rotations, i)
  {
    forall i: nat | i < |rotations| && (i > 0 ==> NextKey(rotations[i - 1]).Some?)
      ensures RotationFits(chain, tip, rotations, i) <==> Changes(chain, tip, rotations, i)
    {
    }
    if RotationsFit(chain, tip, rotations) {
      forall i: nat | i < |rotations| ensures Changes(chain, tip, rotations, i) {
        assert i > 0 ==> RotationFits(chain, tip, rotations, i - 1);
      }
    }
    if forall i: nat | i < |rotations| :: Changes(chain, tip, rotations, i) {
      forall i | 0 <= i < |rotations| ensures RotationFits(chain, tip, rotations, i) {
        assert Changes(chain, tip, rotations, i);
      }
    }
  }

  // The line of keys: the node's own, then each change.
  function Line(first: nat, rotations: seq<Block>): seq<nat> {
    seq(|rotations| + 1, i requires 0 <= i <= |rotations| => KeyAfter(first, rotations, i))
  }

  lemma {:induction false} KeyAfterPrefix(first: nat, a: seq<Block>, b: seq<Block>, n: nat)
    requires n <= |a| && a <= b
    ensures KeyAfter(first, a, n) == KeyAfter(first, b, n)
  {
    if n > 0 { KeyAfterPrefix(first, a, b, n - 1); }
  }

  // One more change adds its key to the line and changes nothing before.
  lemma LineExtends(first: nat, a: seq<Block>, b: seq<Block>)
    requires a <= b
    ensures Line(first, a) <= Line(first, b)
  {
    forall n | 0 <= n <= |a| ensures KeyAfter(first, a, n) == KeyAfter(first, b, n) {
      KeyAfterPrefix(first, a, b, n);
    }
  }

  // A certified path stays certified under the next key change, signed by its signer key.
  lemma CertifiedGoesOn(kp: KeyPath, chain: nat, b: Block)
    requires Certifies(kp, chain)
    requires b.body.Rotation? && b.body.next.Some? && b.address.user == chain
    requires b.address.node == kp.path[|kp.path| - 1].index
    requires kp.rotations != [] ==> kp.rotations[|kp.rotations| - 1].address.index < b.address.index
    requires SignedBy(b, SignerKey(kp.path[|kp.path| - 1].working, kp.rotations))
    ensures Certifies(kp.(rotations := kp.rotations + [b]), chain)
  {
    var tip := kp.path[|kp.path| - 1];
    var more := kp.rotations + [b];
    forall i | 0 <= i < |more| ensures RotationFits(chain, tip, more, i) {
      KeyAfterPrefix(tip.working, kp.rotations, more, i);
      assert i < |kp.rotations| ==> RotationFits(chain, tip, kp.rotations, i);
    }
  }
}
