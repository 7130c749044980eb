// The steps of a bilateral merge over one side's storage (blockchain/merge_session).
module MergeSession {
  import opened Options
  import opened Blocks
  import opened MergeSnapshot

  // `leaf` is the snapshot of a participant who has not merged yet, over its tip.
  datatype Config = Config(user: nat, node: nat, key: nat, now: int, depth: nat, leaf: (Address, Hash) -> Snapshot)

  datatype Seal = Seal(signer: nat, of: Hash, signature: Signature, sealedAt: int)

  // `path` is empty when a node of it is missing. `writable`: the own branch is not frozen and
  // its key not replaced by a revocation. `trusts`: the path of nodes verifies and nothing
  // known of revocations speaks against the tip. `takesBlock`, `takesSnapshot`: the next write
  // of each does not fail.
  datatype Storage = Storage(path: seq<Node>, tip: Option<Block>, snapshot: Option<Snapshot>, writable: bool,
                             takesBlock: bool, takesSnapshot: bool,
                             trusts: Tip -> bool, external: map<Address, Block>, seals: seq<Seal>)

  function TipAddress(cfg: Config, index: nat): Address { Address(cfg.user, cfg.node, index) }

  function PreparedTip(cfg: Config, st: Storage): Tip
    requires st.path != []
  {
    match st.tip
    case None => Tip(st.path, TipAddress(cfg, EMPTY_BRANCH_INDEX), OfNode(st.path[|st.path| - 1]), None)
    case Some(b) => Tip(st.path, TipAddress(cfg, b.address.index), OfBlock(b), Some(b))
  }

  // The stored snapshot, else a single leaf over the tip; none for an empty branch.
  function SnapshotFor(cfg: Config, st: Storage): Option<Snapshot> {
    if st.snapshot.Some? then st.snapshot
    else if st.tip.None? then None
    else Some(cfg.leaf(TipAddress(cfg, st.tip.value.address.index), OfBlock(st.tip.value)))
  }

  // The block included with a tip is the one the tip names, and is not from the future.
  predicate TipAccepted(st: Storage, tip: Tip, now: int) {
    && tip.path != [] && st.trusts(tip)
    && (tip.block.Some? ==>
          && OfBlock(tip.block.value) == tip.hash && tip.block.value.address == tip.address
          && tip.block.value.time <= now + CLOCK_SLACK)
  }

  // The block right after the own tip that takes the partner's and commits the union.
  function DraftFor(cfg: Config, own: Block, ownSnapshot: Snapshot, partner: Tip, partnerSnapshot: Snapshot): Block {
    var union := Union(ownSnapshot, partnerSnapshot);
    Block(TipAddress(cfg, own.address.index + 1), OfBlock(own), cfg.now,
          Merge(MergePayload(partner.address, partner.hash, cfg.now, union.root, union.hll, cfg.depth)), {cfg.key})
  }

  predicate Refuses(st: Storage, partner: Tip) {
    st.tip.None? || partner.address.index == EMPTY_BRANCH_INDEX || !st.writable
  }

  // The draft is written, then the grown snapshot. When the merge is refused or the first write
  // fails nothing is stored; when the second fails the draft stays, though none is given.
  function Pending(cfg: Config, st: Storage, partner: Tip, partnerSnapshot: Snapshot): (Option<Block>, Storage) {
    if Refuses(st, partner) || !st.takesBlock then (None, st) else
    var own := SnapshotFor(cfg, st).value;
    var draft := DraftFor(cfg, st.tip.value, own, partner, partnerSnapshot);
    var written := st.(tip := Some(draft));
    if st.takesSnapshot then (Some(draft), written.(snapshot := Some(Union(own, partnerSnapshot)))) else (None, written)
  }

  // What a side reads in the partner's draft before it co-signs: the block right after the
  // partner's tip, taking the own one, now by the own clock, over the union of the own draft.
  predicate DraftChecks(draft: Block, own: Tip, partner: Tip, now: int, ownDraft: Block) {
    && draft.body.Merge?
    && draft.address == After(partner.address) && draft.prev == partner.hash
    && draft.body.payload.tookAddress == own.address && draft.body.payload.tookHash == own.hash
    && draft.time == draft.body.payload.time
    && now - CLOCK_SLACK <= draft.time <= now + CLOCK_SLACK
    && ownDraft.body.Merge?
    && draft.body.payload.root == ownDraft.body.payload.root && draft.body.payload.hll == ownDraft.body.payload.hll
  }

  // The co-signature is the partner's over the own draft.
  predicate CosigChecks(draft: Block, sig: Signature, partnerKey: nat) {
    sig == Signature(partnerKey, OfBlock(draft))
  }

  function Finalized(st: Storage, draft: Block, sig: Signature, partner: Tip): Storage
    requires partner.path != []
  {
    var sealed := st.(seals := st.seals + [Seal(KeyOf(partner), OfBlock(draft), sig, draft.time)]);
    if partner.block.Some? && partner.block.value.address !in sealed.external
    then sealed.(external := sealed.external[partner.block.value.address := partner.block.value])
    else sealed
  }

  // Both writes or neither give no doubt; the draft alone when the second fails. What is written
  // follows the own tip, takes the partner's, and commits the union of the two sides.
  lemma PendingSays(cfg: Config, st: Storage, partner: Tip, partnerSnapshot: Snapshot)
    ensures var (draft, after) := Pending(cfg, st, partner, partnerSnapshot);
            var begun := st.tip.Some? && partner.address.index != EMPTY_BRANCH_INDEX && st.writable && st.takesBlock;
            && (draft.Some? <==> begun && st.takesSnapshot)
            && (!begun ==> after == st)
            && (begun ==>
                  && after.tip.Some? && after == st.(tip := after.tip, snapshot := after.snapshot)
                  && (draft.Some? ==> after.tip == draft) && (draft.None? ==> after.snapshot == st.snapshot)
                  && var b, own := after.tip.value, st.tip.value;
                     && b.address == Address(cfg.user, cfg.node, own.address.index + 1) && b.prev == OfBlock(own)
                     && b.signers == {cfg.key} && b.time == cfg.now && b.body.Merge? && b.body.payload.time == cfg.now
                     && b.body.payload.tookAddress == partner.address && b.body.payload.tookHash == partner.hash
                     && var was := if st.snapshot.Some? then st.snapshot.value
                                   else cfg.leaf(Address(cfg.user, cfg.node, own.address.index), OfBlock(own));
                        && b.body.payload.root == Union(was, partnerSnapshot).root
                        && b.body.payload.hll == Union(was, partnerSnapshot).hll
                        && (draft.Some? ==> after.snapshot == Some(Union(was, partnerSnapshot))))
  {
  }

  // A seal can be checked by anyone: the signature in it is its signer's over the block it names.
  predicate SealHolds(s: Seal) { s.signature.signer == s.signer && s.signature.of == s.of }

  // One seal is added, of the partner's key over the draft at the draft's time; his tip block is
  // known from then on, as it was known before if it was; nothing else changes.
  lemma FinalizedSays(st: Storage, draft: Block, sig: Signature, partner: Tip)
    requires partner.path != [] && CosigChecks(draft, sig, KeyOf(partner))
    requires forall i | 0 <= i < |st.seals| :: SealHolds(st.seals[i])
    ensures var after, n := Finalized(st, draft, sig, partner), |st.seals|;
            && |after.seals| == n + 1 && after.seals[..n] == st.seals
            && after.seals[n].signer == partner.path[|partner.path| - 1].working
            && after.seals[n].of == OfBlock(draft) && after.seals[n].sealedAt == draft.time
            && (forall i | 0 <= i <= n :: SealHolds(after.seals[i]))
            && (forall a | a in st.external :: a in after.external && after.external[a] == st.external[a])
            && (forall a | a in after.external && a !in st.external ::
                  partner.block.Some? && a == partner.block.value.address && after.external[a] == partner.block.value)
            && (partner.block.Some? ==> partner.block.value.address in after.external)
            && after == st.(seals := after.seals, external := after.external)
  {
    assert (st.seals + [Seal(KeyOf(partner), OfBlock(draft), sig, draft.time)])[..|st.seals|] == st.seals;
  }

  class Session {
    var store: Storage

    constructor (st: Storage)
      ensures store == st
    {
      store := st;
    }

    method CreatePending(cfg: Config, partner: Tip, partnerSnapshot: Snapshot) returns (draft: Option<Block>)
      modifies this
      ensures (draft, store) == Pending(cfg, old(store), partner, partnerSnapshot)
    {
      if store.tip.None? { return None; }
      if partner.address.index == EMPTY_BRANCH_INDEX { return None; }
      if !store.writable { return None; }
      var own := store.tip.value;
      var ownSnapshot := SnapshotFor(cfg, store).value;
      var merged := MergeSnapshots(ownSnapshot, partnerSnapshot);
      var payload := MergePayload(partner.address, partner.hash, cfg.now, merged.root, merged.hll, cfg.depth);
      var block := Block(TipAddress(cfg, own.address.index + 1), OfBlock(own), cfg.now, Merge(payload), {cfg.key});
      if !store.takesBlock { return None; }
      store := store.(tip := Some(block));
      if !store.takesSnapshot { return None; }
      store := store.(snapshot := Some(merged));
      draft := Some(block);
    }

    // The partner's tip block is imported unless one is known at its address.
    method Finalize(draft: Block, sig: Signature, partner: Tip) returns (ok: bool)
      requires partner.path != []
      modifies this
      ensures ok == CosigChecks(draft, sig, KeyOf(partner))
      ensures store == if ok then Finalized(old(store), draft, sig, partner) else old(store)
    {
      ok := sig == Signature(KeyOf(partner), OfBlock(draft));
      if !ok { return; }
      store := store.(seals := store.seals + [Seal(KeyOf(partner), OfBlock(draft), sig, draft.time)]);
      if partner.block.Some? && partner.block.value.address !in store.external {
        store := store.(external := store.external[partner.block.value.address := partner.block.value]);
      }
    }
  }
}
