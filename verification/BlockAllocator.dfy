/** The allocator of memory block ids (src/memory/block_allocator.cpp) together with the
    reference counters that the `Block` handles share (src/memory/block.cpp).

    A `Block` handle names a block id; all handles of one id share one counter.  The counters are
    the multiset `counts`: `counts[id]` is the counter of `id`, 0 when the counter cell has been
    deleted.  The free list is the source's array, used as a stack whose live part is its first
    `numFree` entries. */
module BlockAllocation {
  import opened Collections

  /** Every id is either once in the live part of the stack, or has a positive counter. */
  ghost predicate FreeListOk(stack: seq<int>, numFree: nat, counts: multiset<int>) {
    numFree <= |stack| && forall u {:trigger Unfold(u)} :: Unfold(u) ==> FreeListInv(stack, numFree, counts)
  }

  ghost predicate FreeListInv(stack: seq<int>, numFree: nat, counts: multiset<int>) {
    && numFree <= |stack|
    && NoDup(stack[..numFree])
    && (forall i :: 0 <= i < numFree ==> 0 <= stack[i] < |stack| && counts[stack[i]] == 0)
    && (forall id :: id in counts ==> 0 <= id < |stack|)
    && (forall id :: 0 <= id < |stack| && counts[id] == 0 ==> id in stack[..numFree])
  }

  /** The ids with a live handle. */
  ghost function Live(counts: multiset<int>): set<int> {
    set id | id in counts
  }

  /** Conservation: the free entries and the ids in use always add up to all ids. */
  lemma Conservation(stack: seq<int>, numFree: nat, counts: multiset<int>)
    requires FreeListOk(stack, numFree, counts)
    ensures numFree + |Live(counts)| == |stack|
    ensures Elements(stack[..numFree]) == Range(|stack|) - Live(counts)
  {
    assert Unfold(true);
    var free := stack[..numFree];
    NoDupSize(free);
    assert Elements(free) + Live(counts) == Range(|stack|);
    assert Elements(free) !! Live(counts);
  }

  lemma FreeInRange(stack: seq<int>, numFree: nat, counts: multiset<int>)
    requires FreeListOk(stack, numFree, counts)
    ensures forall i :: 0 <= i < numFree ==> 0 <= stack[i] < |stack|
  {
    assert Unfold(true);
  }

  lemma LiveInRange(stack: seq<int>, numFree: nat, counts: multiset<int>)
    requires FreeListOk(stack, numFree, counts)
    ensures forall id :: id in counts ==> 0 <= id < |stack|
  {
    assert Unfold(true);
  }

  /** When a counter has just dropped to 0 the stack has room for its id. */
  lemma RoomToFree(stack: seq<int>, numFree: nat, counts: multiset<int>, id: int)
    requires FreeListOk(stack, numFree, counts)
    requires id in counts
    ensures numFree < |stack|
  {
    Conservation(stack, numFree, counts);
    assert Live(counts) == {id} + (Live(counts) - {id});
  }

  /** The lemma behind `free`: pushing the id whose counter dropped to 0. */
  lemma PushFreed(stack: seq<int>, numFree: nat, counts: multiset<int>, id: int)
    requires FreeListOk(stack, numFree, counts)
    requires counts[id] == 1 && numFree < |stack|
    ensures FreeListOk(stack[numFree := id], numFree + 1, counts - multiset{id})
  {
    assert Unfold(true);
    var stack', counts' := stack[numFree := id], counts - multiset{id};
    assert stack'[..numFree + 1] == stack[..numFree] + [id];
    NoDupAppend(stack[..numFree], id);
    forall x | 0 <= x < |stack'| && counts'[x] == 0
      ensures x in stack'[..numFree + 1]
    {
      if x != id {
        assert counts[x] == 0;
      }
    }
  }

  lemma PopFree(stack: seq<int>, numFree: nat, counts: multiset<int>)
    requires FreeListOk(stack, numFree, counts)
    requires numFree > 0
    ensures FreeListOk(stack, numFree - 1, counts + multiset{stack[numFree - 1]})
  {
    assert Unfold(true);
    var top := stack[numFree - 1];
    assert stack[..numFree] == stack[..numFree - 1] + [top];
    assert stack[..numFree][..numFree - 1] == stack[..numFree - 1];
    NoDupLast(stack[..numFree]);
    var counts' := counts + multiset{top};
    forall x | 0 <= x < |stack| && counts'[x] == 0
      ensures x in stack[..numFree - 1]
    {
      assert counts[x] == 0;
    }
  }

  class BlockAllocator {
    const freeBlocks: array<int>
    const blockSize: nat
    var numFree: nat
    var counts: multiset<int>

    ghost predicate Valid()
      reads this, freeBlocks
    {
      FreeListOk(freeBlocks[..], numFree, counts)
    }

    /** All ids free, the smallest on top of the stack. */
    constructor (totalBlocks: nat, blockSize: nat)
      requires totalBlocks > 0 && blockSize > 0
      ensures Valid() && fresh(freeBlocks)
      ensures freeBlocks.Length == totalBlocks && this.blockSize == blockSize
      ensures numFree == totalBlocks && counts == multiset{}
      ensures forall i :: 0 <= i < totalBlocks ==> freeBlocks[i] == totalBlocks - i - 1
    {
      var stack := new int[totalBlocks];
      for i := 0 to totalBlocks
        invariant forall j :: 0 <= j < i ==> stack[j] == totalBlocks - j - 1
      {
        stack[i] := totalBlocks - i - 1;
      }
      freeBlocks := stack;
      this.blockSize := blockSize;
      numFree := totalBlocks;
      counts := multiset{};
      new;
      assert Unfold(true);
      forall id | 0 <= id < totalBlocks
        ensures id in freeBlocks[..totalBlocks]
      {
        assert freeBlocks[..totalBlocks][totalBlocks - id - 1] == id;
      }
    }

    /** Pops one id and builds its first handle. */
    method Allocate() returns (id: int)
      requires Valid() && numFree > 0
      modifies this
      ensures Valid()
      ensures id == old(freeBlocks[numFree - 1]) && 0 <= id < freeBlocks.Length
      ensures old(counts)[id] == 0
      ensures counts == old(counts) + multiset{id} && numFree == old(numFree) - 1
    {
      assert Unfold(true);
      PopFree(freeBlocks[..], numFree, counts);
      numFree := numFree - 1;
      id := freeBlocks[numFree];
      counts := counts[id := 1];
    }

    /** Pops `n` ids; the returned handles name pairwise different, previously free ids. */
    method AllocateMany(n: nat) returns (blocks: seq<int>)
      requires Valid() && n <= numFree
      modifies this
      ensures Valid()
      ensures |blocks| == n && NoDup(blocks)
      ensures forall b :: b in blocks ==> 0 <= b < freeBlocks.Length && old(counts)[b] == 0
      ensures counts == old(counts) + multiset(blocks) && numFree == old(numFree) - n
    {
      blocks := [];
      for i := 0 to n
        invariant Valid()
        invariant |blocks| == i && NoDup(blocks)
        invariant forall b :: b in blocks ==> 0 <= b < freeBlocks.Length && old(counts)[b] == 0
        invariant counts == old(counts) + multiset(blocks) && numFree == old(numFree) - i
      {
        var id := Allocate();
        NoDupAppend(blocks, id);
        blocks := blocks + [id];
      }
    }

    /** Copying a handle. */
    method IncRef(id: int)
      requires Valid() && id in counts
      modifies this`counts
      ensures Valid()
      ensures counts == old(counts) + multiset{id}
    {
      assert Unfold(true);
      counts := counts[id := counts[id] + 1];
    }

    /** Destroying a handle; the last one returns the id to the free list. */
    method DecRef(id: int)
      requires Valid() && id in counts
      modifies this, freeBlocks
      ensures Valid()
      ensures counts == old(counts) - multiset{id}
      ensures numFree == old(numFree) + if old(counts)[id] == 1 then 1 else 0
    {
      assert Unfold(true);
      ghost var stack, n, before := freeBlocks[..], numFree, counts;
      RoomToFree(stack, n, before, id);
      counts := counts[id := counts[id] - 1];
      assert counts == before - multiset{id};
      if counts[id] == 0 {
        PushFreed(stack, n, before, id);
        Free(id);
        assert freeBlocks[..] == stack[n := id];
      }
    }

    /** Copying the handles of a block list. */
    method IncRefs(blocks: seq<int>)
      requires Valid() && forall b :: b in blocks ==> b in counts
      modifies this`counts
      ensures Valid() && counts == old(counts) + multiset(blocks)
    {
      for i := 0 to |blocks|
        invariant Valid() && counts == old(counts) + multiset(blocks[..i])
        invariant forall b :: b in blocks ==> b in old(counts)
      {
        assert blocks[..i + 1] == blocks[..i] + [blocks[i]];
        assert blocks[i] in blocks;
        IncRef(blocks[i]);
      }
      assert blocks[..|blocks|] == blocks;
    }

    /** Destroying the handles of a block list; ids whose only handle goes are freed. */
    method DecRefs(blocks: seq<int>)
      requires Valid() && NoDup(blocks) && forall b :: b in blocks ==> b in counts
      modifies this, freeBlocks
      ensures Valid() && counts == old(counts) - multiset(blocks)
      ensures (forall b :: b in blocks ==> old(counts)[b] == 1) ==> numFree == old(numFree) + |blocks|
    {
      for i := 0 to |blocks|
        invariant Valid() && counts == old(counts) - multiset(blocks[..i])
        invariant (forall b :: b in blocks ==> old(counts)[b] == 1) ==> numFree == old(numFree) + i
      {
        assert blocks[i] in blocks;
        NoDupPrefix(blocks, i);
        DecRef(blocks[i]);
      }
      assert blocks[..|blocks|] == blocks;
    }

    /** `free`: the check that the stack has room is the precondition. */
    method Free(id: int)
      requires numFree < freeBlocks.Length
      modifies this`numFree, freeBlocks
      ensures numFree == old(numFree) + 1
      ensures freeBlocks[..] == old(freeBlocks[..])[old(numFree) := id]
    {
      freeBlocks[numFree] := id;
      numFree := numFree + 1;
    }

    /** The destructor's check, which holds exactly when every handle is gone. */
    method AllFreed() returns (ok: bool)
      requires Valid()
      ensures ok <==> counts == multiset{}
    {
      ok := numFree == freeBlocks.Length;
      Conservation(freeBlocks[..], numFree, counts);
      if ok {
        forall id
          ensures counts[id] == 0
        {
          assert id in counts ==> id in Live(counts);
        }
        assert counts == multiset{};
      } else {
        assert counts == multiset{} ==> Live(counts) == {};
      }
    }
  }
}
