// The accumulating snapshot of a merge packet and its union (blockchain/merge_snapshot,
// blockchain/hll).
module MergeSnapshot {
  import opened Merkle
  import Cache = ParticipantCache

  const REGISTERS: nat := 2048

  type Sketch = s: seq<nat> | |s| == REGISTERS witness seq(REGISTERS, _ => 0)

  datatype Snapshot = Snapshot(root: Digest, hll: Sketch)

  function Larger(a: nat, b: nat): nat { if a < b then b else a }

  function MergedSketch(a: Sketch, b: Sketch): Sketch {
    seq(REGISTERS, i requires 0 <= i < REGISTERS => Larger(a[i], b[i]))
  }

  // The registers of the other sketch, one by one.
  method MergeSketch(a: Sketch, b: Sketch) returns (merged: Sketch)
    ensures merged == MergedSketch(a, b)
    ensures forall i | 0 <= i < REGISTERS ::
              merged[i] >= a[i] && merged[i] >= b[i] && (merged[i] == a[i] || merged[i] == b[i])
  {
    var regs: seq<nat> := a;
    for i := 0 to REGISTERS
      invariant |regs| == REGISTERS
      invariant forall j | 0 <= j < i :: regs[j] == Larger(a[j], b[j])
      invariant forall j | i <= j < REGISTERS :: regs[j] == a[j]
    {
      regs := regs[i := Larger(regs[i], b[i])];
    }
    merged := regs;
  }

  function Union(a: Snapshot, b: Snapshot): Snapshot {
    Snapshot(Cache.Combined(a.root, b.root), MergedSketch(a.hll, b.hll))
  }

  // Both sides of a merge commit the same union.
  lemma UnionCommutes(a: Snapshot, b: Snapshot)
    ensures Union(a, b) == Union(b, a)
  {
    Cache.CombinedCommutes(a.root, b.root);
    assert MergedSketch(a.hll, b.hll) == MergedSketch(b.hll, a.hll);
  }

  method MergeSnapshots(a: Snapshot, b: Snapshot) returns (merged: Snapshot)
    ensures merged == Union(a, b)
  {
    var root := if Le(a.root, b.root) then NodeHash(a.root, b.root) else NodeHash(b.root, a.root);
    var hll := MergeSketch(a.hll, b.hll);
    merged := Snapshot(root, hll);
  }
}
