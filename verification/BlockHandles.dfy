/** Reference counting by `Block` handles (src/memory/block.cpp).

    Handle objects live in `cells`; a cell holds a block id, or INVALID for a default-constructed,
    moved-from or destroyed handle.  The special members of `Block` are the methods below. */
module BlockHandles {
  import opened Collections
  import opened BlockAllocation

  const INVALID := -1

  datatype Op =
    | Create
    | CopyConstruct(src: nat)
    | MoveConstruct(src: nat)
    | CopyAssign(dst: nat, src: nat)
    | MoveAssign(dst: nat, src: nat)
    | Destroy(cell: nat)

  /** The ids of the valid handles, with multiplicity. */
  ghost function Handles(cells: seq<int>): multiset<int> {
    multiset(cells)[INVALID := 0]
  }

  lemma HandlesAppend(cells: seq<int>, id: int)
    ensures Handles(cells + [id]) == Handles(cells) + if id == INVALID then multiset{} else multiset{id}
  {
  }

  lemma HandlesUpdate(cells: seq<int>, i: nat, id: int)
    requires i < |cells|
    ensures Handles(cells[i := id])
         == Handles(cells) - (if cells[i] == INVALID then multiset{} else multiset{cells[i]})
            + (if id == INVALID then multiset{} else multiset{id})
  {
    assert multiset(cells[i := id]) == multiset(cells) - multiset{cells[i]} + multiset{id};
    assert multiset(cells)[cells[i]] > 0;
  }

  /** Moving a handle changes no count. */
  lemma MoveHandle(cells: seq<int>, dst: nat, src: nat)
    requires dst < |cells| && src < |cells| && cells[dst] == INVALID && dst != src
    ensures Handles(cells[dst := cells[src]][src := INVALID]) == Handles(cells)
  {
    var moved := cells[dst := cells[src]];
    assert moved[src] == cells[src];
    HandlesUpdate(cells, dst, cells[src]);
    HandlesUpdate(moved, src, INVALID);
  }

  /** Conservation per id: it is once in the live part of the free stack and in no handle, or it is
      not free and its counter is the number of its handles. */
  lemma FreeOrCounted(stack: seq<int>, numFree: nat, counts: multiset<int>, cells: seq<int>, id: int)
    requires FreeListOk(stack, numFree, counts) && counts == Handles(cells)
    requires 0 <= id < |stack|
    ensures if id in cells
            then id !in stack[..numFree] && counts[id] == multiset(cells)[id] > 0
            else multiset(stack[..numFree])[id] == 1 && counts[id] == 0
  {
    assert Unfold(true);
    NoDupCount(stack[..numFree], id);
    assert id in cells <==> multiset(cells)[id] > 0;
    assert counts[id] == multiset(cells)[id];
    if id in stack[..numFree] {
      var i :| 0 <= i < numFree && stack[i] == id;
    }
  }

  ghost predicate FreeId(cells: seq<int>, total: nat, id: int) {
    0 <= id < total && id !in cells
  }

  /** What an operation does to the handles.  One that names no existing handle, or creates one when
      every id has a handle, is one the program cannot make and does nothing. */
  ghost predicate OpStep(op: Op, cells: seq<int>, cells': seq<int>, total: nat) {
    match op
    case Create =>
      if exists id :: FreeId(cells, total, id)
      then |cells'| == |cells| + 1 && cells'[..|cells|] == cells && FreeId(cells, total, cells'[|cells|])
      else cells' == cells
    case CopyConstruct(src) => cells' == if src < |cells| then cells + [cells[src]] else cells
    case MoveConstruct(src) => cells' == if src < |cells| then cells[src := INVALID] + [cells[src]] else cells
    case CopyAssign(dst, src) => cells' == if dst < |cells| && src < |cells| then cells[dst := cells[src]] else cells
    case MoveAssign(dst, src) =>
      cells' == if dst < |cells| && src < |cells| && dst != src then cells[dst := cells[src]][src := INVALID] else cells
    case Destroy(cell) => cells' == if cell < |cells| then cells[cell := INVALID] else cells
  }

  class HandleStore {
    const pool: BlockAllocator
    var cells: seq<int>

    ghost predicate Valid()
      reads this, pool, pool.freeBlocks
    {
      pool.Valid() && pool.counts == Handles(cells)
    }

    constructor (totalBlocks: nat, blockSize: nat)
      requires totalBlocks > 0 && blockSize > 0
      ensures Valid() && fresh(pool) && fresh(pool.freeBlocks)
      ensures pool.freeBlocks.Length == totalBlocks && cells == []
    {
      pool := new BlockAllocator(totalBlocks, blockSize);
      cells := [];
    }

    method DropCell(i: nat)
      requires Valid() && i < |cells|
      modifies this, pool, pool.freeBlocks
      ensures Valid() && cells == old(cells)[i := INVALID]
    {
      HandlesUpdate(cells, i, INVALID);
      if cells[i] != INVALID {
        assert cells[i] in cells;
        pool.DecRef(cells[i]);
      }
      cells := cells[i := INVALID];
    }

    method CreateHandle()
      requires Valid() && pool.numFree > 0
      modifies this, pool
      ensures Valid() && |cells| == |old(cells)| + 1 && cells[..|old(cells)|] == old(cells)
      ensures 0 <= cells[|old(cells)|] < pool.freeBlocks.Length && cells[|old(cells)|] !in old(cells)
    {
      var id := pool.Allocate();
      assert id in cells ==> id in Handles(cells);
      HandlesAppend(cells, id);
      cells := cells + [id];
    }

    method CopyConstructFrom(src: nat)
      requires Valid() && src < |cells|
      modifies this, pool
      ensures Valid() && cells == old(cells) + [old(cells)[src]]
    {
      HandlesAppend(cells, cells[src]);
      if cells[src] != INVALID {
        assert cells[src] in cells;
        pool.IncRef(cells[src]);
      }
      cells := cells + [cells[src]];
    }

    method MoveConstructFrom(src: nat)
      requires Valid() && src < |cells|
      modifies this
      ensures Valid() && cells == old(cells)[src := INVALID] + [old(cells)[src]]
    {
      HandlesUpdate(cells, src, INVALID);
      HandlesAppend(cells[src := INVALID], cells[src]);
      assert cells[src] in cells;
      cells := cells[src := INVALID] + [cells[src]];
    }

    /** Drops the old block before it takes the new one; a self-assignment does nothing. */
    method CopyAssignFrom(dst: nat, src: nat)
      requires Valid() && dst < |cells| && src < |cells|
      modifies this, pool, pool.freeBlocks
      ensures Valid() && cells == old(cells)[dst := old(cells)[src]]
    {
      if dst != src {
        DropCell(dst);
        ShareCell(dst, src);
      }
    }

    method ShareCell(dst: nat, src: nat)
      requires Valid() && dst < |cells| && src < |cells| && cells[dst] == INVALID
      modifies this, pool`counts
      ensures Valid() && cells == old(cells)[dst := old(cells)[src]]
    {
      var id := cells[src];
      ghost var counts := pool.counts;
      HandlesUpdate(cells, dst, id);
      if id != INVALID {
        assert id in cells;
        pool.IncRef(id);
        assert pool.counts == counts + multiset{id};
      }
      cells := cells[dst := id];
    }

    method MoveAssignFrom(dst: nat, src: nat)
      requires Valid() && dst < |cells| && src < |cells|
      modifies this, pool, pool.freeBlocks
      ensures Valid()
      ensures cells == if dst == src then old(cells) else old(cells)[dst := old(cells)[src]][src := INVALID]
    {
      hide FreeListOk, Handles;
      if dst != src {
        DropCell(dst);
        assert cells[dst := cells[src]] == old(cells)[dst := old(cells)[src]];
        TakeCell(dst, src);
      }
    }

    method TakeCell(dst: nat, src: nat)
      requires Valid() && dst < |cells| && src < |cells| && cells[dst] == INVALID && dst != src
      modifies this
      ensures Valid() && cells == old(cells)[dst := old(cells)[src]][src := INVALID]
    {
      hide FreeListOk, Handles;
      var id := cells[src];
      MoveHandle(cells, dst, src);
      cells := cells[dst := id];
      cells := cells[src := INVALID];
    }

    /** Some id is free exactly when some id has no handle. */
    lemma SomeFree()
      requires Valid()
      ensures pool.numFree > 0 <==> exists id :: FreeId(cells, pool.freeBlocks.Length, id)
    {
      var stack, total := pool.freeBlocks[..], pool.freeBlocks.Length;
      if pool.numFree > 0 {
        var id := stack[0];
        FreeInRange(stack, pool.numFree, pool.counts);
        FreeOrCounted(stack, pool.numFree, pool.counts, cells, id);
        assert stack[..pool.numFree][0] == id;
        assert FreeId(cells, total, id);
      }
      if id :| FreeId(cells, total, id) {
        FreeOrCounted(stack, pool.numFree, pool.counts, cells, id);
      }
    }

    method Do(op: Op)
      requires Valid()
      modifies this, pool, pool.freeBlocks
      ensures Valid() && OpStep(op, old(cells), cells, pool.freeBlocks.Length)
    {
      hide FreeListOk, Handles;
      SomeFree();
      match op
      case Create => if pool.numFree > 0 { CreateHandle(); }
      case CopyConstruct(src) => if src < |cells| { CopyConstructFrom(src); }
      case MoveConstruct(src) => if src < |cells| { MoveConstructFrom(src); }
      case CopyAssign(dst, src) => if dst < |cells| && src < |cells| { CopyAssignFrom(dst, src); }
      case MoveAssign(dst, src) => if dst < |cells| && src < |cells| { MoveAssignFrom(dst, src); }
      case Destroy(cell) => if cell < |cells| { DropCell(cell); }
    }

    /** Any interleaving of handle operations, with the handles before and after each of them.  At the
        end the destructor's check passes exactly when no handle is left. */
    method Run(ops: seq<Op>) returns (freed: bool, ghost trace: seq<seq<int>>)
      requires Valid()
      modifies this, pool, pool.freeBlocks
      ensures Valid() && |trace| == |ops| + 1 && trace[0] == old(cells) && trace[|ops|] == cells
      ensures forall k :: 0 <= k < |ops| ==> OpStep(ops[k], trace[k], trace[k + 1], pool.freeBlocks.Length)
      ensures freed <==> forall c :: c in cells ==> c == INVALID
    {
      hide OpStep, FreeListOk;
      trace := [cells];
      for k := 0 to |ops|
        invariant Valid() && |trace| == k + 1 && trace[0] == old(cells) && trace[k] == cells
        invariant forall j :: 0 <= j < k ==> OpStep(ops[j], trace[j], trace[j + 1], pool.freeBlocks.Length)
      {
        Do(ops[k]);
        trace := trace + [cells];
      }
      freed := pool.AllFreed();
      NoHandles(cells);
    }
  }

  lemma NoHandles(cells: seq<int>)
    ensures Handles(cells) == multiset{} <==> forall c :: c in cells ==> c == INVALID
  {
    assert forall c :: c in cells && c != INVALID ==> c in Handles(cells);
    if forall c :: c in cells ==> c == INVALID {
      forall c
        ensures c !in Handles(cells)
      {
        assert c in multiset(cells) ==> c in cells;
      }
      assert Handles(cells) == multiset{};
    }
  }
}
