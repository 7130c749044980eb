// Nodes of the key tree, blocks and tips (blockchain/types). A hash is the thing it hashes; a
// signature is known by the keys under which it verifies.
module Blocks {
  import opened Options
  import opened Merkle
  import opened MergeSnapshot

  const EMPTY_BRANCH_INDEX: nat := 0xFFFF_FFFF
  const CLOCK_SLACK := 600

  datatype Address = Address(user: nat, node: nat, index: nat)

  datatype Hash = ZeroHash | OfBlock(block: Block) | OfNode(node: Node)

  datatype Node = Node(index: nat, structural: nat, working: nat, parent: Hash, signers: set<nat>, created: int)

  datatype Block = Block(address: Address, prev: Hash, time: int, body: Body, signers: set<nat>)

  // A payload that does not decode is None.
  datatype Body =
    | Data(content: nat)
    | Merge(payload: MergePayload)
    | Rotation(next: Option<nat>)
    | Revocation(word: Option<RevocationPayload>)

  datatype MergePayload = MergePayload(tookAddress: Address, tookHash: Hash, time: int, root: Digest, hll: Sketch,
    depth: nat)

  datatype RevocationPayload = RevocationPayload(revoked: nat, since: int, replacement: Option<nat>)

  // By whom, over what: nobody else can make it.
  datatype Signature = Signature(signer: nat, of: Hash)

  datatype Tip = Tip(path: seq<Node>, address: Address, hash: Hash, block: Option<Block>)

  predicate SignedBy(b: Block, key: nat) { key in b.signers }

  function KeyOf(tip: Tip): nat
    requires tip.path != []
  {
    tip.path[|tip.path| - 1].working
  }

  function After(a: Address): Address { a.(index := a.index + 1) }
}
