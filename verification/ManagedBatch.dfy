/** A batch of sequences whose blocks come from the block manager (src/engine/batch.cpp,
    src/memory/block_manager.cpp). */
module ManagedBatch {
  import opened BatchVectors
  import opened BatchSchedule
  import BlockManagement
  import TokenBlocks

  /** The manager keeps block 0 for padding, so no token of a managed sequence is written to a slot of
      block 0, where the padding tokens go, and none beyond the last block. */
  lemma ManagedSlots(m: BlockManagement.BlockManager, seqs: seq<BlockManagement.Sequence>, views: seq<View>,
                     rem: seq<nat>, a: Inputs, p: int)
    requires m.Valid() && |seqs| == |views| == |rem| && BuiltTo(a, views, rem, |views|) && 0 <= p < |a.slots|
    requires forall i :: 0 <= i < |seqs| ==>
      seqs[i] in m.holders && views[i].blocks == seqs[i].blocks && views[i].bs == m.bs
    ensures m.bs <= a.slots[p] < m.pool.freeBlocks.Length * m.bs
  {
    var total := m.pool.freeBlocks.Length;
    assert TokenBlocks.Chunks([], m.bs) == [];
    m.ValidMeans([], []);
    forall i | 0 <= i < |views|
      ensures views[i].bs == m.bs && forall b :: b in views[i].blocks ==> 0 < b < total
    {
      assert seqs[i] in m.holders;
    }
    BuiltIs(a, views, rem, |views|);
    RealSlotsNotPadding(a, views, Plan(views, rem, |views|), p, m.bs, total);
  }
}
