// Whose blocks the aggregator takes: the keys of each branch, learned certificate by
// certificate (aggregator/branch_keys).
module BranchKeys {
  import opened Options
  import opened Blocks
  import opened KeyTree
  import opened KeyPaths

  datatype Key = Key(chain: nat, node: nat)

  // The path of a branch and its own line of keys.
  datatype Known = Known(path: KeyPath, own: seq<nat>)

  // The revocation that decides a branch, and the line of its replacement.
  datatype Standing = Standing(depth: nat, block: nat, since: int, replacement: Option<nat>, line: seq<nat>)

  datatype Certificate = Certificate(block: Block, path: seq<Node>)

  datatype Verdict = SIGNED_BY_BRANCH | UNKNOWN_BRANCH | FOREIGN_SIGNATURE

  function First(kp: KeyPath): nat
    requires kp.path != []
  {
    kp.path[|kp.path| - 1].working
  }

  function Place(kp: KeyPath): nat
    requires kp.path != []
  {
    kp.path[|kp.path| - 1].index
  }

  // ---------- Revocation certificates ----------

  const MAX_DEPTH := 31

  // An ancestor's word on a node below it, signed by the key of the ancestor's node.
  predicate CertificateHolds(c: Certificate) {
    && c.block.body.Revocation? && Linked(c.path) && c.path[0].structural == c.block.address.user
    && c.path[|c.path| - 1].index == c.block.address.node
    && SignedBy(c.block, c.path[|c.path| - 1].working)
    && c.block.body.word.Some?
    && var w := c.block.body.word.value;
       w.revoked != 0 && Depth(w.revoked) <= MAX_DEPTH && Above(c.block.address.node, w.revoked)
  }

  method VerifyCertificate(c: Certificate) returns (ok: bool)
    ensures ok == CertificateHolds(c)
  {
    if !c.block.body.Revocation? { return false; }
    var chain := VerifyNodePath(c.path);
    if chain.None? || chain.value != c.block.address.user { return false; }
    var author := c.path[|c.path| - 1];
    if author.index != c.block.address.node || !SignedBy(c.block, author.working) { return false; }
    if c.block.body.word.None? { return false; }
    var w := c.block.body.word.value;
    if w.revoked == 0 || Depth(w.revoked) > MAX_DEPTH { return false; }
    ok := IsAncestor(author.index, w.revoked);
  }

  // A certificate read out: nodes down from a root of the block's chain that signed itself, to the
  // author's, whose key signed the word; and the word names a node below it, not the root.
  lemma HoldsExactly(c: Certificate)
    ensures CertificateHolds(c) <==>
            && c.block.body.Revocation? && c.block.body.word.Some? && c.path != []
            && c.path[0].index == 0 && c.path[0].parent == ZeroHash && c.path[0].structural in c.path[0].signers
            && c.path[0].structural == c.block.address.user
            && (forall k: nat | 1 <= k < |c.path| :: StepsDown(c.path, k))
            && var author, revoked := c.path[|c.path| - 1], c.block.body.word.value.revoked;
               && author.index == c.block.address.node && author.working in c.block.signers
               && revoked > 0 && Depth(revoked) <= 31 && Above(author.index, revoked)
  {
    StepsExactly(c.path);
    hide StepsDown, IsChild, Above, Depth;
  }

  // ---------- Folding revocations ----------

  function Word(b: Block): Standing
    requires b.body.Revocation? && b.body.word.Some?
  {
    var w := b.body.word.value;
    Standing(Depth(b.address.node), b.address.index, w.since, w.replacement,
             if w.replacement.Some? then [w.replacement.value] else [])
  }

  function Min(a: int, b: int): int { if b < a then b else a }

  // A higher author decides anew; the same author's earliest compromise and latest
  // replacement count; a lower one is not heard.
  function Heard(cur: Option<Standing>, r: Standing): Standing {
    if cur.None? then r else
    var c := cur.value;
    if r.depth > c.depth then c
    else if r.depth < c.depth then r
    else if r.block > c.block then r.(since := Min(c.since, r.since))
    else c.(since := Min(c.since, r.since))
  }

  // ---------- The keys ----------

  predicate KnownWell(k: Key, b: Known) {
    && Certifies(b.path, k.chain) && Place(b.path) == k.node
    && b.own == Line(First(b.path), b.path.rotations)
  }

  predicate StandsWell(r: Standing) {
    if r.replacement.None? then r.line == [] else r.line != [] && r.line[0] == r.replacement.value
  }

  // Nothing a branch was known by is lost or changed; its line only goes on.
  predicate Carries(a: Known, b: Known)
    requires a.path.path != [] && b.path.path != []
  {
    First(a.path) == First(b.path) && a.path.rotations <= b.path.rotations && a.own <= b.own
  }

  class BranchKeys {
    var branches: map<Key, Known>
    var revocations: map<Key, Standing>

    ghost predicate Valid() reads this {
      && (forall k | k in branches :: KnownWell(k, branches[k]))
      && (forall k | k in revocations :: StandsWell(revocations[k]))
    }

    constructor ()
      ensures Valid() && branches == map[] && revocations == map[]
    {
      branches, revocations := map[], map[];
    }

    // A path is taken when it checks and is the first of its branch or carries the known one
    // further.
    method LearnPath(kp: KeyPath) returns (chain: Option<nat>)
      requires Valid()
      modifies this`branches
      ensures Valid()
      ensures chain.None? <==> !exists c :: Certifies(kp, c)
      ensures chain.Some? ==> Certifies(kp, chain.value)
      ensures match chain
              case None => branches == old(branches)
              case Some(c) =>
                var k := Key(c, Place(kp));
                branches == if k in old(branches) && !Further(old(branches[k]).path, kp) then old(branches)
                            else old(branches)[k := Known(kp, Line(First(kp), kp.rotations))]
      ensures chain.Some? && Key(chain.value, Place(kp)) in old(branches) ==>
                var k := Key(chain.value, Place(kp));
                var was := old(branches)[k].path;
                branches[k].path ==
                  if && kp.path[|kp.path| - 1].working == was.path[|was.path| - 1].working
                     && |was.rotations| < |kp.rotations| && kp.rotations[..|was.rotations|] == was.rotations
                  then kp else was
      ensures forall k | k in old(branches) :: k in branches && Carries(old(branches)[k], branches[k])
    {
      chain := VerifyKeyPath(kp);
      if chain.None? { return; }
      var k := Key(chain.value, Place(kp));
      if k in branches {
        var known := branches[k].path;
        if First(kp) != First(known) || |kp.rotations| <= |known.rotations| { return; }
        for i := 0 to |known.rotations|
          invariant forall j | 0 <= j < i :: kp.rotations[j] == known.rotations[j]
        {
          if OfBlock(kp.rotations[i]) != OfBlock(known.rotations[i]) { return; }
        }
        LineExtends(First(kp), known.rotations, kp.rotations);
      }
      forall i | 0 <= i < |kp.rotations| ensures NextKey(kp.rotations[i]).Some? {
        assert RotationFits(chain.value, kp.path[|kp.path| - 1], kp.rotations, i);
      }
      var own := OwnLine(kp);
      branches := branches[k := Known(kp, own)];
    }

    // The next key change of a line is taken when the line's last key signed it.
    method LearnRotation(b: Block)
      requires Valid()
      modifies this
      ensures Valid()
      ensures (branches, revocations) == Rotated(old(branches), old(revocations), b)
      ensures forall k | k in old(branches) :: k in branches && Carries(old(branches)[k], branches[k])
    {
      if !b.body.Rotation? || b.body.next.None? { return; }
      var k := Key(b.address.user, b.address.node);
      if k in revocations && b.time > revocations[k].since {
        var r := revocations[k];
        if r.line != [] && SignedBy(b, r.line[|r.line| - 1]) {
          revocations := revocations[k := r.(line := r.line + [b.body.next.value])];
        }
        return;
      }
      if k !in branches { return; }
      var br := branches[k];
      assert KnownWell(k, br);
      var rotations := br.path.rotations;
      if rotations != [] && b.address.index <= rotations[|rotations| - 1].address.index { return; }
      if !SignedBy(b, br.own[|br.own| - 1]) { return; }
      CertifiedGoesOn(br.path, k.chain, b);
      LineExtends(First(br.path), rotations, rotations + [b]);
      LineOneMore(First(br.path), rotations, b);
      branches := branches[k := Known(br.path.(rotations := rotations + [b]), br.own + [b.body.next.value])];
    }

    method LearnRevocation(c: Certificate) returns (ok: bool)
      requires Valid()
      modifies this`revocations
      ensures Valid() && ok == CertificateHolds(c)
      ensures !ok ==> revocations == old(revocations)
      ensures ok ==>
                var k := Key(c.block.address.user, c.block.body.word.value.revoked);
                var known := if k in old(revocations) then Some(old(revocations)[k]) else None;
                revocations == old(revocations)[k := Heard(known, Word(c.block))]
    {
      ok := VerifyCertificate(c);
      if !ok { return; }
      var w := c.block.body.word.value;
      var k := Key(c.block.address.user, w.revoked);
      var depth := Depth(c.block.address.node);
      var index := c.block.address.index;
      if k !in revocations {
        revocations := revocations[k := Standing(depth, index, w.since, w.replacement, [])];
      } else {
        var cur := revocations[k];
        if depth > cur.depth { return; }
        if depth < cur.depth {
          revocations := revocations[k := Standing(depth, index, w.since, w.replacement, [])];
        } else {
          cur := cur.(since := Min(cur.since, w.since));
          if index > cur.block {
            cur := cur.(block := index, replacement := w.replacement, line := []);
          }
          revocations := revocations[k := cur];
        }
      }
      var now := revocations[k];
      if now.line == [] && now.replacement.Some? {
        revocations := revocations[k := now.(line := [now.replacement.value])];
      }
    }

    // The keys that may have signed a block of this date: after the compromise only the line
    // of the replacement.
    function KeysFor(k: Key, at: int): seq<nat>
      reads this
    {
      if k in revocations && at > revocations[k].since then revocations[k].line
      else (if k in branches then branches[k].own else []) + (if k in revocations then revocations[k].line else [])
    }

    // A frozen branch signs nothing after its compromise.
    method Check(b: Block) returns (v: Verdict)
      requires Valid()
      ensures var k := Key(b.address.user, b.address.node);
              && (v == UNKNOWN_BRANCH <==> k !in branches && k !in revocations)
              && (v == SIGNED_BY_BRANCH <==> exists key | key in KeysFor(k, b.time) :: SignedBy(b, key))
              && (k in revocations && b.time > revocations[k].since ==>
                  (v == SIGNED_BY_BRANCH <==> exists key | key in revocations[k].line :: key in b.signers))
              && (!(k in revocations && b.time > revocations[k].since) ==>
                  (v == SIGNED_BY_BRANCH <==>
                   || (k in branches && exists key | key in branches[k].own :: key in b.signers)
                   || (k in revocations && exists key | key in revocations[k].line :: key in b.signers)))
              && (k in revocations && revocations[k].replacement.None? && b.time > revocations[k].since ==>
                 v == FOREIGN_SIGNATURE)
    {
      var k := Key(b.address.user, b.address.node);
      if k !in branches && k !in revocations { return UNKNOWN_BRANCH; }
      var keys := KeysFor(k, b.time);
      assert !(k in revocations && b.time > revocations[k].since) ==>
          forall key :: key in keys <==>
            (k in branches && key in branches[k].own) || (k in revocations && key in revocations[k].line);
      for i := 0 to |keys|
        invariant forall j | 0 <= j < i :: !SignedBy(b, keys[j])
      {
        if SignedBy(b, keys[i]) { return SIGNED_BY_BRANCH; }
      }
      v := FOREIGN_SIGNATURE;
    }
  }

  // Another path of a known branch that carries it further.
  predicate Further(known: KeyPath, kp: KeyPath)
    requires known.path != [] && kp.path != []
  {
    First(kp) == First(known) && |kp.rotations| > |known.rotations| && known.rotations <= kp.rotations
  }

  method OwnLine(kp: KeyPath) returns (line: seq<nat>)
    requires kp.path != []
    requires forall i | 0 <= i < |kp.rotations| :: NextKey(kp.rotations[i]).Some?
    ensures line == Line(First(kp), kp.rotations)
  {
    line := [First(kp)];
    for i := 0 to |kp.rotations|
      invariant |line| == i + 1 && forall j | 0 <= j <= i :: line[j] == KeyAfter(First(kp), kp.rotations, j)
    {
      line := line + [NextKey(kp.rotations[i]).value];
    }
  }

  lemma LineOneMore(first: nat, rotations: seq<Block>, b: Block)
    requires NextKey(b).Some?
    ensures Line(first, rotations + [b]) == Line(first, rotations) + [NextKey(b).value]
    ensures Line(first, rotations)[|rotations|] == SignerKey(first, rotations)
  {
    forall n | 0 <= n <= |rotations| ensures KeyAfter(first, rotations, n) == KeyAfter(first, rotations + [b], n) {
      KeyAfterPrefix(first, rotations, rotations + [b], n);
    }
  }

  // After the compromise the replacement's line goes on, else the branch's own.
  function Rotated(branches: map<Key, Known>, revocations: map<Key, Standing>, b: Block)
    : (map<Key, Known>, map<Key, Standing>)
  {
    var k := Key(b.address.user, b.address.node);
    if !b.body.Rotation? || b.body.next.None? then (branches, revocations)
    else if k in revocations && b.time > revocations[k].since then
      var r := revocations[k];
      if r.line != [] && SignedBy(b, r.line[|r.line| - 1]) then
        (branches, revocations[k := r.(line := r.line + [b.body.next.value])])
      else (branches, revocations)
    else if k in branches && Next(branches[k], b) then
      var br := branches[k];
      (branches[k := Known(br.path.(rotations := br.path.rotations + [b]), br.own + [b.body.next.value])], revocations)
    else (branches, revocations)
  }

  // Nothing but the branch's own entry changes; past the compromise only the replacement's line,
  // and only by a block its last key signed; else only the branch's own line, by a later block its
  // last key signed.
  lemma RotationsSay(branches: map<Key, Known>, revocations: map<Key, Standing>, b: Block)
    ensures var (after, standings) := Rotated(branches, revocations, b);
            var k := Key(b.address.user, b.address.node);
            && after.Keys == branches.Keys && standings.Keys == revocations.Keys
            && (forall o | o in branches && o != k :: after[o] == branches[o])
            && (forall o | o in revocations && o != k :: standings[o] == revocations[o])
            && (k in revocations ==>
                  var was, now := revocations[k].line, standings[k].line;
                  && standings[k] == revocations[k].(line := now)
                  && now == if b.body.Rotation? && b.body.next.Some? && b.time > revocations[k].since && was != [] &&
                               was[|was| - 1] in b.signers
                            then was + [b.body.next.value] else was)
            && (k in branches ==>
                  var was, now := branches[k], after[k];
                  if && b.body.Rotation? && b.body.next.Some?
                     && (k in revocations ==> b.time <= revocations[k].since)
                     && was.own != [] && was.own[|was.own| - 1] in b.signers
                     && (was.path.rotations != [] ==>
                           was.path.rotations[|was.path.rotations| - 1].address.index < b.address.index)
                  then && now.path.path == was.path.path && now.path.rotations == was.path.rotations + [b]
                       && now.own == was.own + [b.body.next.value]
                  else now == was)
  {
  }

  predicate Next(br: Known, b: Block) {
    && br.own != [] && SignedBy(b, br.own[|br.own| - 1])
    && (br.path.rotations != [] ==> b.address.index > br.path.rotations[|br.path.rotations| - 1].address.index)
  }
}
