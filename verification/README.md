# A verified model of the ScaleLLM serving core

The project models, in Dafny, the parts of ScaleLLM that share mutable state between requests, and proves what
they keep over whole runs:

- the paged KV-cache memory: the block allocator, the reference-counted block handles, the prefix cache (a
  block-aligned radix tree over token ids with an LRU list) and the block manager on top of them;
- the batch: chunked prefill, the flattened input vectors, token histograms, padding, and the way of sampled tokens
  back to their sequences; and the token buffer of a sequence;
- the streaming call protocol between response producers and the handler threads, and the shutdown of the thread pool,
  both as interleaved atomic steps;
- the tensor-parallel linear layers over exact arithmetic, and the loading of fused and sharded weights.

## How the parts fit together

| file | part |
|---|---|
| `Collections.dfy`, `TokenBlocks.dfy` | sequences, sets and multisets; token vectors cut into blocks |
| `BlockAllocator.dfy`, `BlockHandles.dfy` | `BlockAllocation`, `BlockHandles`: free stack and reference counts |
| `RadixTree.dfy`, `LruList.dfy`, `Recency.dfy` | the keyed tree, the linked LRU list, access times |
| `Eviction.dfy`, `PrefixCache.dfy` | what may be evicted and in which order; the prefix cache |
| `KvAccounting.dfy`, `KvContents.dfy` | who holds which block; which tokens the KV in a block belongs to |
| `ManagerSteps.dfy`, `BlockManager.dfy` | calls and engine work as steps between states; the manager and its runs |
| `SequenceTokens.dfy` | the token buffer of a sequence and its counts |
| `BatchVectors.dfy`, `BatchSchedule.dfy` | the flattened vectors; schedule and routing of the sampled tokens |
| `BatchRuns.dfy`, `Batch.dfy` | what the model inputs of a run hold; the batch |
| `ManagedBatch.dfy` | a batch of sequences whose blocks come from the manager |
| `CallData.dfy`, `ThreadPools.dfy` | the two concurrent protocols |
| `TensorParallel.dfy`, `WeightLoading.dfy` | sharded layers; state dicts and fused weights |

The central argument of the memory part goes through four layers. The radix tree stands for a map `View()` from
block-aligned token prefixes to block ids (`PrefixCache`). A sequence that took cached blocks holds the blocks of
every prefix of its shared key (`KvAccounting.HolderOk`), so the blocks that sequences hold are closed under prefixes
(`PathClosed`); therefore an eviction that works from the leaves reaches every cached block that no sequence holds,
and each evicted block returns one id (`Evict`). With the counting of handles this makes admission exact
(`AllocateBlocksFor`): a request is admitted exactly when the blocks it still needs are at most the total, less the
padding block, less the distinct blocks in use. `BlockManager.Run` states all this over whole runs: every state of a
run, from any valid one on, satisfies `StateOk`, and each event, a call or the work of an engine, leads to the next state
by `ManagerSteps.Step`, which fixes what sharing finds, what an allocation answers and evicts, what an engine writes and
what a release caches. `Batch.Run` does the same for the batch, and reads what was emitted off the model inputs that the
run returns. Large invariants are written `forall u :: Unfold(u) ==> ...` so that a proof looks inside them only where it
says so, and `hide` keeps definitions out of single proofs.

Where the code does not meet a property on its own, the model keeps the code and states the exact condition:

- `cache_blocks_for`, called without a release, lowers `num_blocks_in_use_` for blocks that stay in use. The counter
  stays right if and only if every block of the sequence is also held by another one (`CacheBlocksFor`);
  `CacheAloneMiscounts` is a concrete run in which it does not.
- The token histogram of a selected position is the histogram of the tokens up to it if and only if the whole
  remainder of the sequence is scheduled (`SelectedRow`); otherwise the tokens that are not scheduled are counted too,
  as in the batch of `PartialRowFails`.
- When the destructor of the pool returns, every runnable scheduled before has run if and only if the pool has a thread
  or there was no such runnable (`EarlyRanExactly`); `NoThreadsLoses` is a run that loses one.
- The checks on the number of sampled rows pass if and only if no row was sampled or no turn of the call leaves a sequence
  in prefill that another turn takes out of it (`Step`). In a batch of different sequences this always holds; a sequence
  that is in the batch twice can fail it (`DuplicateFails`).

## Model

| member | source | states |
|---|---|---|
| `BlockAllocation.BlockAllocator.constructor` | src/memory/block_allocator.cpp:12-24 | all ids are free, the smallest on top of the stack |
| `BlockAllocation.BlockAllocator.Allocate` | src/memory/block_allocator.cpp:44-48 | pops the top id, which had no handle, and gives it its first one; the free list stays consistent |
| `BlockAllocation.BlockAllocator.AllocateMany` | src/memory/block_allocator.cpp:32-41 | the ids are pairwise different and were all free; each gets exactly one handle |
| `BlockAllocation.BlockAllocator.Free` | src/memory/block_allocator.cpp:51-54 | pushes the id; room on the stack is the check of the source |
| `BlockAllocation.BlockAllocator.AllFreed` | src/memory/block_allocator.cpp:26-29 | the destructor's check passes exactly when no handle is left |
| `BlockAllocation.BlockAllocator.IncRef` | src/memory/block.cpp:79-83 | one more handle for a live id |
| `BlockAllocation.BlockAllocator.DecRef` | src/memory/block.cpp:85-94 | one handle less; the id returns to the stack exactly when it was the last |
| `BlockAllocation.BlockAllocator.DecRefs` | src/memory/block.cpp:21-24 | dropping a list of handles; ids whose only handle goes are freed |
| `BlockAllocation.Conservation` | src/memory/block_allocator.cpp:12-54 | free entries and live ids always add up to all ids, and the free ids are exactly those without handles |
| `BlockAllocation.RoomToFree` | src/memory/block_allocator.cpp:51-53 | `free` never overflows: while an id is live the stack has room |
| `BlockAllocation.PushFreed` | src/memory/block_allocator.cpp:51-54 | freeing an id whose counter dropped to 0 keeps every id either once on the stack or counted |
| `BlockAllocation.PopFree` | src/memory/block_allocator.cpp:44-48 | allocating keeps every id either once on the stack or counted |
| `BlockHandles.HandleStore.CreateHandle` | src/memory/block.cpp:15-19 | a new handle names an id that no other handle names |
| `BlockHandles.HandleStore.CopyConstructFrom` | src/memory/block.cpp:26-34 | the copy names the same id and the counter is the number of handles again |
| `BlockHandles.HandleStore.MoveConstructFrom` | src/memory/block.cpp:50-60 | the id moves, the source becomes invalid, no counter changes |
| `BlockHandles.HandleStore.CopyAssignFrom` | src/memory/block.cpp:36-48 | the old id loses a handle, the new one gains one; self-assignment does nothing |
| `BlockHandles.HandleStore.MoveAssignFrom` | src/memory/block.cpp:62-77 | the old id loses a handle, the new one is taken over; self-assignment does nothing |
| `BlockHandles.HandleStore.DropCell` | src/memory/block.cpp:21-24 | destroying a handle leaves all other handles counted |
| `BlockHandles.HandleStore.Run` | src/memory/block.cpp:21-94 | over any sequence of creations, copies, moves, assignments and destructions each operation changes exactly the handles it names, a created handle names an id without a handle whenever there is one, the counters stay the numbers of handles, and the allocator's final check passes exactly when all handles are gone |
| `BlockHandles.FreeOrCounted` | src/memory/block.cpp:21-94 | every id is once in the live part of the stack and in no handle, or not free with a counter equal to its number of handles |
| `TokenBlocks.RoundedCommon` | src/memory/prefix_cache.cpp:15-28 | the common prefix of two block-aligned token vectors, rounded down, is the common prefix of their block sequences |
| `LruLists.LruList.AddBack` | src/memory/prefix_cache.cpp:306-312 | the linked list stands for the old order with the node at the back |
| `LruLists.LruList.Remove` | src/memory/prefix_cache.cpp:314-317 | the linked list stands for the old order without the node |
| `LruLists.LruList.MoveToBack` | src/memory/prefix_cache.cpp:319-325 | the node moves to the back, all others keep their order |
| `RadixTree.ContentPrefixClosed` | src/memory/prefix_cache.h:50-68 | with a cached prefix every shorter one is cached |
| `RadixTree.SiblingsDiffer` | src/memory/prefix_cache.cpp:71-102 | siblings differ within their first block, so the order of the child set does not matter |
| `RadixTree.NextKeyMissing` | src/memory/prefix_cache.cpp:71-102 | if no child of the reached node starts with the next block, no longer key of the query is cached |
| `RadixTree.SplitKeeps` | src/memory/prefix_cache.cpp:251-283 | a split keeps the tree well-formed and the map it stands for |
| `RadixTree.AddKeeps` | src/memory/prefix_cache.cpp:285-304 | a new child keeps the tree well-formed and adds exactly the missing keys, overwriting none |
| `RadixTree.CutKeeps` | src/memory/prefix_cache.cpp:211-249 | cutting a leaf's tail, or the whole leaf, removes exactly the keys of the cut blocks |
| `RadixTree.TouchKeeps` | src/memory/prefix_cache.cpp:80-82 | a new access time changes neither structure nor map |
| `Recency.TouchRecent` | src/memory/prefix_cache.cpp:80-82 | touching a node below a touched parent keeps the list sorted and parents at least as recent as children |
| `Recency.SplitRecent` | src/memory/prefix_cache.cpp:259-276 | the same for the lower half of a split node |
| `Recency.AddRecent` | src/memory/prefix_cache.cpp:293-303 | the same for a new child |
| `Recency.TrimRecent` | src/memory/prefix_cache.cpp:218-224 | the same when a leaf is shortened |
| `Recency.RemoveRecent` | src/memory/prefix_cache.cpp:237-249 | the same when a leaf is released |
| `RadixTree.AccessedAll` | src/memory/prefix_cache.cpp:66-103 | a walk that stops because the next key is missing has accessed every node along the query, and no other |
| `Eviction.ScanShared` | src/memory/prefix_cache.cpp:201-209 | the loop finds the first block of a node that only the cache holds |
| `Eviction.LongestIsLeafEnd` | src/memory/prefix_cache.cpp:196-213 | under the path closure, a longest cached prefix that nobody holds ends a leaf that can be stripped |
| `Eviction.NothingLeft` | src/memory/prefix_cache.cpp:169-182 | when a pass finds nothing to strip, no cached block is unheld |
| `Eviction.DropMore` | src/memory/prefix_cache.cpp:211-234 | each stripped block loses the cache's handle and frees one id, and the rest stays closed under prefixes |
| `Eviction.PassInOrder` | src/memory/prefix_cache.cpp:184-235 | the shares that a pass hands out amount to stripping the leaves in LRU order |
| `PrefixCaching.PrefixCache.constructor` | src/memory/prefix_cache.cpp:32-38 | an empty cache |
| `PrefixCaching.PrefixCache.Structure` | src/memory/prefix_cache.h:50-68 | what every operation keeps: nodes are nonempty with block size times as many tokens as blocks, links agree, siblings differ in their first block, the list holds exactly the nodes and is sorted, no child is more recent than its parent, and both counters are the real totals |
| `PrefixCaching.PrefixCache.CommonPrefixLength` | src/memory/prefix_cache.cpp:14-24 | the length of the longest common prefix |
| `PrefixCaching.PrefixCache.FindChild` | src/memory/prefix_cache.cpp:71-79 | finds the child that shares the next blocks, or shows that none does, in any order of the child set |
| `PrefixCaching.PrefixCache.TouchNode` | src/memory/prefix_cache.cpp:80-82 | sets the access time and moves the node to the back |
| `PrefixCaching.PrefixCache.SplitNode` | src/memory/prefix_cache.cpp:251-283 | splits a node at a block boundary without changing the map |
| `PrefixCaching.PrefixCache.CreateChild` | src/memory/prefix_cache.cpp:285-304 | adds a leaf for the rest of the query |
| `PrefixCaching.PrefixCache.Match` | src/memory/prefix_cache.cpp:55-106 | returns the blocks of the longest cached prefix, one new handle for each, leaves the map unchanged, and sets the access time of exactly the nodes whose first key is a prefix of the query |
| `PrefixCaching.PrefixCache.Insert` | src/memory/prefix_cache.cpp:110-166 | adds exactly the missing prefixes, overwrites none, takes a handle for each new block, returns the number of new tokens, and sets the access time of exactly the old nodes on the path |
| `PrefixCaching.PrefixCache.TrimNode` | src/memory/prefix_cache.cpp:218-224 | drops the tail of a leaf and its handles |
| `PrefixCaching.PrefixCache.ReleaseNode` | src/memory/prefix_cache.cpp:237-249 | removes a leaf from tree, list and counters and drops its handles |
| `PrefixCaching.PrefixCache.StripLeaf` | src/memory/prefix_cache.cpp:196-224 | takes from the end of a leaf the minimum of the wanted number and all blocks from the first one that only the cache holds on, and from any other node nothing; a leaf that is to lose everything is marked |
| `PrefixCaching.PrefixCache.CheckTime` | src/memory/prefix_cache.cpp:192-194 | the check on ascending access times never fails |
| `PrefixCaching.PrefixCache.EvictHelper` | src/memory/prefix_cache.cpp:184-235 | one pass strips the leaves strictly in LRU order: if a node lost a block, every older leaf lost all its blocks from the first one that only the cache holds on; the pass falls short of its budget only if every leaf did; and it reports exactly what it took |
| `PrefixCaching.PrefixCache.Evict` | src/memory/prefix_cache.cpp:169-182 | under the path closure it evicts exactly the minimum of the wanted number and the number of cached blocks that no sequence holds, none that a sequence holds, and each returns one id |
| `KvAccounting.AccountsPathClosed` | src/memory/block_manager.cpp:145-189 | whoever holds a cached block holds every earlier block on its path |
| `KvAccounting.LiveParts` | src/memory/block_manager.cpp:35-42 | every live id is the padding block, in use by a sequence, or only cached, and the three add up |
| `KvAccounting.ShareKeeps` | src/memory/block_manager.cpp:145-167 | taking matched blocks keeps every counter equal to the number of handles |
| `KvAccounting.AppendKeeps` | src/memory/block_manager.cpp:72-75 | appending new blocks keeps the accounts |
| `KvAccounting.EvictKeeps` | src/memory/block_manager.cpp:125-133 | eviction keeps the accounts and every sequence's path |
| `KvAccounting.ReleaseKeeps` | src/memory/block_manager.cpp:104-112 | offering the blocks and dropping the handles keeps the accounts |
| `KvAccounting.CountSole` | src/memory/block_manager.cpp:158-164 | the loop counts the blocks with at most two handles |
| `KvAccounting.ShareInUse` | src/memory/block_manager.cpp:158-164 | the shared blocks with at most two handles are exactly those that become in use |
| `KvAccounting.AppendInUse` | src/memory/block_manager.cpp:75 | appended blocks were not in use before |
| `KvAccounting.ReleaseInUse` | src/memory/block_manager.cpp:179-185 | the released blocks with at most two handles are exactly those that stop being in use |
| `KvContents.MatchSound` | src/memory/prefix_cache.cpp:55-106 | the i-th matched block holds the KV of the first i+1 blocks of the query |
| `KvContents.SoundInjective` | src/memory/prefix_cache.cpp:110-166 | no block is cached twice |
| `KvContents.ShareSound` | src/memory/block_manager.cpp:145-167 | a sequence that takes matched blocks has the KV of its own tokens in them |
| `KvContents.ReleaseSound` | src/memory/block_manager.cpp:169-178 | every block that a release offers holds the KV of the prefix it is offered under |
| `KvContents.EngineSound` | src/request/sequence.cpp:259-285 | computing the last token of a fully shared prompt again, or appending tokens, leaves the KV of all cached blocks and of all other sequences right |
| `BlockManagement.Sequence.TokensInKvCache` | src/request/sequence.h:102-116 | the tokens up to the SSM position if it lags by at most one, else up to the LLM position |
| `BlockManagement.Sequence.SetSharedBlocks` | src/request/sequence.cpp:258-285 | the KV position covers the shared blocks, less one token if they cover all tokens |
| `BlockManagement.Sequence.AppendBlocks` | src/request/sequence.cpp:254-256 | blocks are appended in order |
| `BlockManagement.Sequence.ReleaseBlocks` | src/request/sequence.cpp:287-292 | no block and no KV is left |
| `BlockManagement.BlockManager.constructor` | src/memory/block_manager.cpp:35-42 | block 0 is reserved for padding, everything else is free |
| `BlockManagement.BlockManager.AllocateSharedBlocksFor` | src/memory/block_manager.cpp:145-167 | the sequence gets the blocks of its longest cached prefix, which hold the KV of its tokens; the in-use counter stays the number of distinct blocks in use |
| `BlockManagement.BlockManager.EvictBlocks` | src/memory/block_manager.cpp:125-133 | evicts exactly what is asked for, or everything unheld, and as many ids become free |
| `BlockManagement.BlockManager.HasEnoughBlocks` | src/memory/block_manager.cpp:114-143 | true exactly when the number is at most the total less the padding block less the blocks in use; then no more is evicted than is lacking; the warning about a leak is unreachable |
| `ManagerSteps.NeededCovers` | src/memory/block_manager.cpp:58-64 | the rounded number of blocks is the least that covers the tokens |
| `ManagerSteps.LongestMatchIs` | src/memory/prefix_cache.cpp:55-106 | the result of a match is determined by the cached prefixes and the query |
| `ManagerSteps.LegalStep` | src/request/sequence.cpp:146-151 | an engine that keeps any number of positions not behind the one where it started after sharing, with any tokens after them, writes only what leaves the shared prefix alone |
| `ManagerSteps.CommitLegal` | src/request/sequence.h:201-206 | appending tokens and committing any number that fits into the blocks is a legal engine step |
| `ManagerSteps.RewindLegal` | src/request/sequence.cpp:106-151 | accepting draft tokens, the last one perhaps replaced, and cutting both positions back is a legal engine step |
| `BlockManagement.BlockManager.AllocateBlocksFor` | src/memory/block_manager.cpp:49-77 | admits exactly when the blocks missing after sharing fit beside the padding block and the blocks in use; on success the capacity covers the tokens, on failure only the sharing and the eviction took place; exactly as many unheld cached blocks are evicted as ids are lacking |
| `BlockManagement.BlockManager.CacheBlocksFor` | src/memory/block_manager.cpp:169-189 | offers the sequence's blocks; the in-use counter stays right exactly when every block of the sequence is also held by another one |
| `BlockManagement.CacheAloneMiscounts` | src/memory/block_manager.cpp:169-189 | a run in which caching without releasing makes the counter wrong |
| `BlockManagement.BlockManager.ReleaseBlocksFor` | src/memory/block_manager.cpp:104-112 | besides what was cached, exactly the prefixes of whole blocks are cached afterwards whose KV the LLM has, and the SSM too unless it lags by more than one, each with the sequence's own block; the handles are dropped and all invariants hold |
| `ManagerSteps.OfferedCaches` | src/memory/block_manager.cpp:169-178 | what a release offers is exactly those prefixes |
| `BlockManagement.Capacity` | src/memory/block_manager.cpp:114-143 | free ids, blocks only cached and blocks in use add up to all but the padding block |
| `BlockManagement.BlockManager.Compute` | src/request/sequence.h:201-206 | an engine step to any position within the blocks, after keeping any legal number of positions, with any position of the other engine behind it, keeps all invariants; one that is not legal changes nothing |
| `BlockManagement.BlockManager.ValidMeans` | src/memory/block_manager.cpp:44-189 | in every reachable state the counter is the number of distinct blocks in use, the parts add up, the held part of the cache is closed under prefixes, no block is cached twice, every match returns the KV of the matched tokens, and no sequence holds the padding block |
| `BlockManagement.BlockManager.Run` | src/memory/block_manager.cpp:44-189 | over any run of sharing, allocation, engine work and release from any valid state: every state satisfies the invariant, and each event leads from its state to the next by its step; an allocation is admitted exactly when what is missing after the longest match of that state fits beside the padding block and the distinct blocks then in use |
| `SequenceTokens.TokenBuffer.Append` | src/request/sequence.cpp:78-82 | the token counts stay the histogram of the tokens |
| `SequenceTokens.TokenBuffer.ValidateTokens` | src/request/sequence.cpp:92-161 | the draft tokens are replaced by the accepted target tokens, the counts stay the histogram, no engine keeps KV for the last token, and the check that a token was accepted passes exactly when the first target token is not a rejection |
| `SequenceTokens.TokenBuffer.AcceptTokens` | src/request/sequence.cpp:106-144 | the loop accepts up to the first mismatch, rejection or finish |
| `SequenceTokens.AcceptLawUnique` | src/request/sequence.cpp:106-144 | the number of accepted tokens is determined by draft, target and stopping rule |
| `Batching.Batch.Add` | src/engine/batch.cpp:44-52 | a sequence joins, also one that is in the batch already, with its budget and none of it used |
| `BatchVectors.CountAhead` | src/engine/batch.cpp:144-152 | counts the selected tokens still ahead |
| `BatchVectors.BuildRow` | src/engine/batch.cpp:171-188 | a row lists every token whose count exceeds the adjustment, once, with the difference, in any order of the map |
| `BatchVectors.WholeRemainder` | src/engine/batch.cpp:144-188 | the adjusted counts are the histogram of the tokens up to the position exactly when the whole remainder is scheduled |
| `BatchVectors.EmitTokens` | src/engine/batch.cpp:142-195 | the token loop appends the scheduled tokens with their positions, selects those from the last prompt token on with their rows, and samples the last one if it is selected |
| `BatchVectors.KvCacheSlots` | src/request/sequence.cpp:303-317 | the slot of each position is its place inside the block that covers it |
| `BatchVectors.SlotDecodes` | src/request/sequence.cpp:303-317 | a slot determines its block and offset, and without block 0 no slot lies in block 0 |
| `BatchVectors.TableIsSlots` | src/engine/batch.cpp:206-208 | an entry of the block table is the slot of the first position in its block |
| `Batching.Batch.Take` | src/engine/batch.cpp:104-211 | one round schedules as many tokens as there are after the KV position and as the budget allows, charges and commits exactly these |
| `BatchVectors.BuiltStep` | src/engine/batch.cpp:133-210 | adding a sequence keeps all parallel vectors aligned with the scheduled sequences |
| `Batching.Batch.PrepareModelInput` | src/engine/batch.cpp:77-270 | every turn schedules as many tokens as its sequence and its budget allow; the vectors describe exactly the scheduled parts, delimited by the cumulative vectors; budgets and KV positions move by what is scheduled; padding and row filling follow |
| `BatchSchedule.SchedulableMeans` | src/engine/batch.cpp:110-131 | the checks in terms of tokens, budget and capacity |
| `BatchVectors.SelectedRow` | src/engine/batch.cpp:144-188 | every selected index is where its token was flattened to; its row counts the tokens up to it and those not scheduled, and so is the exact histogram if and only if the whole remainder is scheduled |
| `BatchVectors.PicksExactly` | src/engine/batch.cpp:154-168 | of the scheduled positions exactly those from the last prompt token on are selected |
| `Batching.PartialRowFails` | src/engine/batch.cpp:144-188 | a batch in which the row of a selected position is not the histogram of the tokens up to it |
| `BatchVectors.PadBatch` | src/engine/batch.cpp:226-239 | the padding sequences extend all vectors by zeros and equal steps |
| `BatchVectors.PadRows` | src/engine/batch.cpp:22-32 | every row is filled with zeros to one length, that of some row |
| `BatchVectors.PaddedWithZeros` | src/engine/batch.cpp:226-234 | nothing but zeros is added to tokens, positions, slots and block tables |
| `BatchSchedule.PaddedBatch` | src/engine/batch.cpp:218-240 | the batch is padded exactly when it is smaller than the minimum and every sequence contributed exactly the decoding length, although the check sees only the maximum and the sum; then all vectors end at the padded size |
| `BatchVectors.RealSlotsNotPadding` | src/engine/batch.cpp:204-208 | sequences whose blocks lie between block 0 and the last one write only to slots of such blocks |
| `ManagedBatch.ManagedSlots` | src/memory/block_manager.cpp:39-41 | no sequence of the manager writes to a slot of block 0, where the padded tokens write, because block 0 is reserved |
| `BatchSchedule.SamplesAreReady` | src/engine/batch.cpp:154-198 | the sampled entries are exactly the sequences out of prefill after the commit, in the same order |
| `Batching.Batch.ProcessSampleOutput` | src/engine/batch.cpp:272-302 | an undefined output changes nothing; else the two checks pass exactly when there is one row for each sequence out of prefill, and each then gets the row at its place |
| `BatchVectors.RowSource` | src/engine/batch.cpp:190-194 | a sampled row was taken at the last flattened position of its sequence |
| `Batching.Batch.Step` | src/engine/batch.cpp:77-302 | the exact condition for the checks on the rows; in a batch of different sequences they pass, and every sequence gets the token sampled from its own last token |
| `BatchSchedule.ChecksPass` | src/engine/batch.cpp:287-300 | there is one row for each sequence out of prefill exactly when no turn leaves a sequence in prefill that another turn takes out |
| `Batching.DuplicateFails` | src/engine/batch.cpp:44-52 | a batch with one sequence twice that passes every check before scheduling and fails the one on the rows |
| `BatchSchedule.EmissionIs` | src/engine/batch.cpp:104-211 | one call emits, for each sequence, the tokens from its old KV position to its new one |
| `BatchRuns.CallEmits` | src/engine/batch.cpp:104-270 | the same, read off the model input after padding |
| `BatchRuns.RunCovers` | src/engine/batch.cpp:60-302 | over any run of steps and switches, the model inputs hold for each engine exactly the tokens from its first KV position to its last one, each once and in increasing order |
| `BatchRuns.RunCharges` | src/engine/batch.cpp:60-124 | the number of tokens in the model inputs since the last switch is the used budget |
| `Batching.Batch.SetEngineType` | src/engine/batch.cpp:60-67 | every sequence is used for the engine, with both KV positions kept, and all budgets are given back |
| `Batching.Batch.Run` | src/engine/batch.cpp:60-302 | any run of steps and switches on a batch of different sequences, with its real model inputs: each step schedules as much as tokens and remaining budget allow; the inputs hold the uncached tokens of every sequence exactly once for each engine, with their positions, in increasing order; and the tokens since the last switch are the used budget, which is never exceeded |
| `CallData.StepInv` | src/handlers/call_data.h:108-189 | every atomic step of producers and handlers keeps the protocol invariant |
| `CallData.RunSafe` | src/handlers/call_data.h:108-189 | in every reachable state the operations issued are a prefix of the responses in swap order, each once; at most one alarm or operation is under way; only the last operation finishes the call; after the release nothing arrives |
| `CallData.RecordedExactly` | src/handlers/call_data.h:123-131 | the RPC flag is down exactly when some event taken before has failed, and the responses are those handed over, in order |
| `CallData.NothingSkipped` | src/handlers/call_data.h:145-183 | as long as no event has failed, every response handed over but the one in the slot was issued |
| `CallData.NothingAfterFailure` | src/handlers/call_data.h:123-189 | once a handler thread has taken a failed event, nothing is issued any more |
| `CallData.ReleasedOnlyAtEnd` | src/handlers/call_data.h:133-189 | a call is released only if its last response finishes it, and that was issued unless an event has failed, or if an event failed before the request was passed on |
| `CallData.CanDeliver` | src/handlers/call_data.h:108-189 | for any responses of which only the last may finish the call there is a run that issues all of them in order and releases the call if the last one finishes it |
| `CallData.AlarmSetWhenFree` | src/handlers/call_data.h:116-118 | the alarm is set only while it is not armed, no operation is under way and no handler is at work on the call |
| `CallData.NeverStuck` | src/handlers/call_data.h:108-189 | a response in the slot of a live call can always be moved on |
| `CallData.RunBounded` | src/handlers/call_data.h:108-189 | each response causes at most eight further steps, so it is taken out of the slot or ends the call |
| `ThreadPools.StepInv` | src/common/threadpool.cpp:14-42 | every step of scheduler, workers and destructor keeps each runnable in one place and early runnables ahead of the sentinels |
| `ThreadPools.OnePlace` | src/common/concurrent_queue.h:30-59 | each scheduled runnable is queued, running or finished, exactly once |
| `ThreadPools.EarlyAre` | src/common/threadpool.cpp:14-31 | the early runnables are those, not null, scheduled before the step that began the destruction |
| `ThreadPools.AllEarlyRan` | src/common/threadpool.cpp:8-42 | with at least one thread, when the destructor returns every runnable scheduled before it began has run exactly once, and every thread consumed exactly one sentinel |
| `ThreadPools.EarlyRanExactly` | src/common/threadpool.cpp:8-42 | for every run whose destructor has returned: every early runnable ran exactly once if and only if the pool has a thread or there was none |
| `ThreadPools.NoThreadsLoses` | src/common/threadpool.cpp:8-23 | without threads a queued runnable is lost |
| `ThreadPools.ShutdownMoves` | src/common/threadpool.cpp:14-42 | until the destructor has returned, it or some worker can move |
| `ThreadPools.RunBounded` | src/common/threadpool.cpp:14-42 | the number of further steps is bounded, so the destructor returns once scheduling stops |
| `ThreadPools.StartedInOrder` | src/common/concurrent_queue.h:30-59 | the threads start the runnables in the order in which they were scheduled, leaving none out |
| `ThreadPools.OneThreadInOrder` | src/common/threadpool.cpp:33-42 | with one thread they finish in that order |
| `TensorParallel.Gather` | src/model_parallel/model_parallel.cpp:13-31 | the outputs of all ranks in rank order |
| `TensorParallel.LinearIdentity` | src/layers/linear_impl.cpp:42-44 | the identity weight returns the input |
| `TensorParallel.LinearSum` | src/layers/linear_impl.cpp:42-44 | a sum of weights gives the sum of the outputs |
| `TensorParallel.LinearScaled` | src/layers/linear_impl.cpp:42-44 | a scaled weight gives the scaled output |
| `TensorParallel.DotSingle` | src/layers/linear_impl.cpp:42-44 | one feature with one weight gives their product, which with `DotAppend` fixes every product |
| `TensorParallel.DotUnit` | src/layers/linear_impl.cpp:42-44 | a unit row picks one input feature |
| `TensorParallel.FeaturesAre` | src/layers/fused_linear.cpp:58-73 | an output feature is the product with its own row plus its own bias, and a hidden feature the activated gate feature times the up feature of the same row |
| `TensorParallel.ColumnParallelIsLinear` | src/layers/linear_impl.cpp:42-49 | column shards with gathered output equal the full layer |
| `TensorParallel.RowParallelIsLinear` | src/layers/linear_impl.cpp:117-131 | row shards with all-reduce equal the full product |
| `TensorParallel.FusedIsUnfused` | src/layers/fused_linear.cpp:58-73 | one fused product, split by the single sizes, equals the single products |
| `TensorParallel.HiddenIsPart` | src/layers/fused_linear.cpp:58-63 | a rank's activated product is its part of the full one |
| `TensorParallel.ShardedIsUnsharded` | src/layers/linear_impl.cpp:117-131 | fused column shards, activation and product, row shards, all-reduce and one bias add equal the full-weight computation for every dividing world size, feature by feature the product of the hidden vector with a row plus a bias |
| `WeightLoading.RowShardsRebuild` | src/model_loader/state_dict.cpp:176-201 | the shards of all ranks, put together, are the tensor |
| `WeightLoading.LookupFails` | src/model_loader/state_dict.cpp:176-201 | a lookup fails exactly on a bad dimension or rank, or if the extent of the tensor can neither be divided evenly nor is smaller than the number of ranks |
| `WeightLoading.LookupGives` | src/model_loader/state_dict.cpp:176-201 | a tensor too small to divide is returned whole, any other one as an even part |
| `WeightLoading.SizesRefused` | src/layers/weight_utils.cpp:104-105 | a tensor is refused exactly when an extent differs from that of the weight |
| `WeightLoading.FusedWeight.Load` | src/layers/weight_utils.cpp:57-112 | loads one state dict; fails exactly on a failed shard check or a size mismatch; loaded exactly when every prefix has been seen, and then the shards in prefix order |
| `WeightLoading.FusedWeight.LoadAll` | src/layers/weight_utils.cpp:57-112 | for any distribution of the tensors over state dicts, success, loadedness and value depend only on the tensors |
| `WeightLoading.OrderDoesNotMatter` | src/layers/weight_utils.cpp:57-112 | two loads of the same tensors, distributed over state dicts in two ways, pass the same checks and give the same weight |
| `WeightLoading.LoadSharded` | src/layers/weight_utils.cpp:20-35 | a sharded weight is loaded from whichever file has it, with the source's checks |
| `WeightLoading.ShardLoaded` | src/model_loader/state_dict.cpp:176-201 | what a rank looks up on dimension 0 is its part of weight and bias |
| `WeightLoading.ColumnsLoaded` | src/model_loader/state_dict.cpp:176-201 | what a rank looks up on dimension 1 are its columns |
| `WeightLoading.ShardedCheckpoint` | src/layers/fused_linear.cpp:58-86 | what the ranks compute from their loaded shards and sum up equals the full-weight computation |
| `WeightLoading.FusedLoadedOn` | src/layers/linear_impl.cpp:73-87 | what the fused loader gives for the prefixes of gate and up is the concatenation of the rank's shards |
| `WeightLoading.LoadRank` | src/layers/linear_impl.cpp:73-144 | a rank loads its fused weight, fused bias and row shard from the files without a failing check |
| `WeightLoading.ShardedForward` | src/layers/fused_linear.cpp:58-86 | from the files to the output: loading on every rank, the sharded block, the reduce and one bias add give the full-weight result, for any order and split of the files |

## Left out

- Tree nodes are entries of a map keyed by node id, not heap objects, and the LRU pointers are two maps of ids; that a node
  is deleted with its last link is not modelled.
- The copies of block handles that a split makes and drops again are one step without effect on the counters.
- The clock is an argument that never decreases; the wall clock of the source may be set back.
- Fixed integer widths and overflow, metrics, timers and logging.
- The wrappers that loop over several sequences or a request (src/memory/block_manager.cpp:44-47 and 79-102).
- The engine that writes KV is an environment step: it writes only to the blocks of its own sequence, from a position that
  is at most one token below the shared prefix.
- BlockManagement.BlockManager.Run: an engine does not go back behind the position where it started after sharing, because
  `validate_tokens` discards only tokens that were generated later; which cached blocks an eviction takes is stated by
  `EvictHelper`, not repeated in the steps.
- The scheduler, the speculative engine, the request type and the attention handlers; only what they call is modelled.
- Batching.Batch.Run: batches of different sequences only, because with a sequence twice a step can fail its checks.
- Processing of validated draft tokens by the batch; `ValidateTokens` models it for one sequence. Sampling parameters,
  log-probabilities and finished sequences are not part of the batch.
- A padded batch is not claimed to be replayed by a captured graph, because the number of sequences keeps the unpadded
  count (src/engine/batch.cpp:247).
- CallData.RunSafe: says nothing about the producer's last read of the RPC flag (src/handlers/call_data.h:119) or about producers that call in after the release, because neither is ordered with the deletion of the call object.
- The memory orders of the atomics; every step is sequentially consistent.
- Exceptions thrown by runnables, and bounded queues, which the thread pool does not use.
- Floating-point rounding, activation functions, normalization, rotary embedding and attention; activations are an arbitrary
  elementwise function.
- WeightLoading.ShardedForward: the bias of the row layer is an argument.
- WeightLoading.ShardedCheckpoint: needs a hidden dimension that the world size divides; the fallback that returns a tensor smaller than the number of ranks whole is modelled in the lookup but is outside the theorem.
- The same tensor name in several state dicts, tensor transforms, and reading files.
- Quantized layers, the query-key-value layer, gathered output of fused layers and the embedding layers.
- HTTP and gRPC handlers, chat templates, tokenizers, JSON readers and command-line flags.
