/** The block manager (src/memory/block_manager.cpp): admission, prefix sharing, eviction and release
    over the allocator, the prefix cache and the sequences (src/request/sequence.cpp). */
module BlockManagement {
  import opened Collections
  import opened RadixTree
  import opened TokenBlocks
  import opened BlockAllocation
  import opened Eviction
  import opened PrefixCaching
  import opened KvAccounting
  import opened KvContents
  import opened ManagerSteps

  /** The block-related state of a sequence: its tokens, how many of them each engine has in its KV
      cache, and its block handles.  `key` is the prefix whose blocks it took from the cache. */
  class Sequence {
    var tokens: seq<int>
    var kvLlm: nat
    var kvSsm: nat
    var blocks: seq<int>
    ghost var key: Key

    ghost function View(): Holder
      reads this
    {
      Holder(blocks, key, tokens, kvLlm)
    }

    constructor (prompt: seq<int>)
      ensures tokens == prompt && kvLlm == 0 && kvSsm == 0 && blocks == [] && key == []
    {
      tokens, kvLlm, kvSsm, blocks, key := prompt, 0, 0, [], [];
    }

    /** The tokens whose KV both engines have; an SSM that lags by more than one is not in use. */
    method TokensInKvCache() returns (t: seq<int>)
      requires kvSsm <= kvLlm <= |tokens|
      ensures t == tokens[..KvSize(kvLlm, kvSsm)] && kvLlm - 1 <= |t| <= kvLlm && t <= tokens
      ensures kvLlm <= kvSsm + 1 ==> |t| == kvSsm
      ensures kvLlm > kvSsm + 1 ==> |t| == kvLlm
    {
      var size := if kvLlm - kvSsm <= 1 then kvSsm else kvLlm;
      t := tokens[..size];
    }

    /** Takes the matched blocks.  When they cover every token, the last one is computed again. */
    method SetSharedBlocks(shared: seq<int>, bs: nat, ghost q: Key)
      requires bs > 0 && blocks == [] && key == [] && |shared| <= |q| && q == Chunks(tokens, bs)
      modifies this
      ensures blocks == shared && key == q[..|shared|] && tokens == old(tokens)
      ensures shared == [] ==> kvLlm == old(kvLlm) && kvSsm == old(kvSsm)
      ensures shared != [] ==> kvSsm == kvLlm < |tokens|
      ensures shared != [] ==> kvLlm == |shared| * bs || (kvLlm + 1 == |shared| * bs && |shared| * bs == |tokens|)
    {
      key := q[..|shared|];
      if shared == [] {
        return;
      }
      blocks := shared;
      WholeBlocksFit(tokens, bs, |shared|);
      var n := |shared| * bs;
      if n == |tokens| {
        n := n - 1;
      }
      kvLlm, kvSsm := n, n;
    }

    method AppendBlocks(more: seq<int>)
      modifies this`blocks
      ensures blocks == old(blocks) + more
    {
      blocks := blocks + more;
    }

    method ReleaseBlocks()
      modifies this
      ensures blocks == [] && key == [] && kvLlm == 0 && kvSsm == 0 && tokens == old(tokens)
    {
      kvLlm, kvSsm, blocks, key := 0, 0, [], [];
    }
  }

  // ---------------------------------------------------------------- the invariant of the manager

  /** All handles are accounted for, all KV is where it is said to be, and the counter of blocks in use
      is the number of distinct blocks that sequences hold. */
  ghost predicate ManagerOk<S>(counts: multiset<int>, M: Content, held: map<S, Holder>, contents: map<int, Key>,
                               inUse: int, bs: nat) {
    bs > 0 && forall u {:trigger Unfold(u)} :: Unfold(u) ==> ManagerInv(counts, M, held, contents, inUse, bs)
  }

  ghost predicate ManagerInv<S>(counts: multiset<int>, M: Content, held: map<S, Holder>, contents: map<int, Key>,
                                inUse: int, bs: nat)
    requires bs > 0
  {
    Accounts(counts, M, held) && Sound(contents, M, held, bs) && inUse == |InUse(held)|
  }

  lemma CachedLive<S>(counts: multiset<int>, M: Content, held: map<S, Holder>, contents: map<int, Key>, inUse: int,
                      bs: nat)
    requires ManagerOk(counts, M, held, contents, inUse, bs)
    ensures Injective(M) && PathClosed(M, counts) && forall k :: k in M ==> M[k] in counts
  {
    assert Unfold(true);
    AccountsPathClosed(counts, M, held);
    forall k | k in M
      ensures M[k] in counts
    {
      assert Counted(counts, M, held, M[k]) && Holds(M, M[k]);
    }
  }

  lemma HolderFacts<S>(counts: multiset<int>, M: Content, held: map<S, Holder>, contents: map<int, Key>, inUse: int,
                       bs: nat, s: S)
    requires ManagerOk(counts, M, held, contents, inUse, bs) && s in held
    ensures NoDup(held[s].blocks) && (forall b :: b in held[s].blocks ==> b in counts)
    ensures |held[s].key| <= |held[s].blocks| && held[s].kv <= |held[s].tokens|
  {
    assert Unfold(true);
    assert HolderOk(M, held[s]) && HolderSound(held[s], contents, bs);
    forall b | b in held[s].blocks
      ensures b in counts
    {
      HeldMeansHolder(held, s, b);
      assert Counted(counts, M, held, b);
    }
  }

  /** Free ids, ids only cached and ids in use add up to all but the padding block. */
  lemma Capacity<S>(stack: seq<int>, numFree: nat, counts: multiset<int>, M: Content, held: map<S, Holder>,
                    contents: map<int, Key>, inUse: int, bs: nat)
    requires FreeListOk(stack, numFree, counts) && ManagerOk(counts, M, held, contents, inUse, bs)
    ensures numFree + |Unshared(M, counts)| == |stack| - 1 - inUse
  {
    assert Unfold(true);
    Conservation(stack, numFree, counts);
    LiveParts(counts, M, held, Live(counts));
  }

  lemma ShareOk<S>(counts: multiset<int>, counts': multiset<int>, M: Content, held: map<S, Holder>,
                   held': map<S, Holder>, contents: map<int, Key>, inUse: int, inUse': int, bs: nat, s: S, h: Holder)
    requires ManagerOk(counts, M, held, contents, inUse, bs) && s in held && held[s].blocks == []
      && h.tokens == held[s].tokens
    requires IsLongestMatch(M, Chunks(h.tokens, bs), h.blocks) && h.key == Chunks(h.tokens, bs)[..|h.blocks|]
    requires h.blocks == [] ==> h.kv == held[s].kv
    requires h.blocks != [] ==> h.kv < |h.tokens| && (h.kv == |h.blocks| * bs || h.kv + 1 == |h.blocks| * bs)
    requires counts' == counts + multiset(h.blocks) && inUse' == inUse + |Sole(h.blocks, counts')|
      && held' == held[s := h]
    ensures ManagerOk(counts', M, held', contents, inUse', bs)
  {
    assert Unfold(true);
    var q := Chunks(h.tokens, bs);
    assert HolderSound(held[s], contents, bs);
    ShareKeeps(counts, M, held, s, q, h);
    ShareInUse(counts, M, held, s, q, h);
    if h.blocks != [] {
      BlocksInExact(|h.blocks|, bs);
      BlocksInMono(h.kv, |h.blocks| * bs, bs);
      BlocksInMono(|h.blocks| * bs, h.kv + 1, bs);
    }
    ShareSound(contents, M, held, bs, s, h);
  }

  lemma AppendOk<S>(counts: multiset<int>, counts': multiset<int>, M: Content, held: map<S, Holder>,
                    held': map<S, Holder>, contents: map<int, Key>, inUse: int, inUse': int, bs: nat, s: S,
                    more: seq<int>)
    requires ManagerOk(counts, M, held, contents, inUse, bs) && s in held && NoDup(more)
      && (forall b :: b in more ==> counts[b] == 0)
    requires counts' == counts + multiset(more) && inUse' == inUse + |more|
    requires held' == held[s := held[s].(blocks := held[s].blocks + more)]
    ensures ManagerOk(counts', M, held', contents, inUse', bs)
  {
    assert Unfold(true);
    var h := held[s].(blocks := held[s].blocks + more);
    AppendKeeps(counts, M, held, s, more, h);
    AppendInUse(counts, M, held, s, more, h);
    AppendSound(contents, M, held, bs, s, more, h);
  }

  lemma EvictOk<S>(counts: multiset<int>, counts': multiset<int>, M: Content, M': Content, held: map<S, Holder>,
                   contents: map<int, Key>, inUse: int, bs: nat, free: int, free': int, d: int)
    requires ManagerOk(counts, M, held, contents, inUse, bs) && Dropping(M, counts, free, M', counts', free', d)
    ensures ManagerOk(counts', M', held, contents, inUse, bs)
    ensures free' == free + d
  {
    assert Unfold(true);
    AccountsPathClosed(counts, M, held);
    EvictKeeps(counts, M, held, free, counts', M', free', d);
    SubmapSound(contents, M, M', held, bs);
  }

  /** The keys a release offers: whole blocks of the tokens in the KV cache. */
  lemma OfferedKeys<S>(counts: multiset<int>, M: Content, held: map<S, Holder>, contents: map<int, Key>, inUse: int,
                       bs: nat, s: S, t: seq<int>, n: nat)
    requires ManagerOk(counts, M, held, contents, inUse, bs) && s in held
    requires t <= held[s].tokens && |t| <= held[s].kv && n == Min(|t| / bs, |held[s].blocks|)
    ensures n <= |Chunks(t, bs)| && n <= BlocksIn(held[s].kv, bs) && n <= |held[s].blocks|
    ensures Chunks(t, bs)[..n] <= Chunks(held[s].tokens, bs) && SameStart(Chunks(t, bs)[..n], held[s].key)
  {
    assert Unfold(true);
    var h := held[s];
    assert HolderSound(h, contents, bs);
    ChunksAre(t, bs);
    assert h.tokens[..|t|] == t;
    ChunksOfPrefix(h.tokens, |t|, bs);
    BlocksInIs(|t|, bs);
    BlocksInMono(|t|, h.kv, bs);
    StartsAgree(Chunks(t, bs)[..n], h.key, Chunks(h.tokens, bs));
  }

  lemma ReleaseOk<S>(counts: multiset<int>, counts': multiset<int>, M: Content, M': Content, held: map<S, Holder>,
                     held': map<S, Holder>, contents: map<int, Key>, inUse: int, inUse': int, bs: nat, s: S, q: Key,
                     added: seq<int>, h': Holder)
    requires ManagerOk(counts, M, held, contents, inUse, bs) && s in held && Inserted(M, held[s], q, added)
      && SameStart(q, held[s].key)
    requires q <= Chunks(held[s].tokens, bs) && |q| <= BlocksIn(held[s].kv, bs)
    requires h'.blocks == [] && h'.key == [] && h'.kv == 0
    requires M' == AddContent(M, [], q, held[s].blocks[..|q|]) && held' == held[s := h']
    requires counts' == counts + multiset(added) - multiset(held[s].blocks)
    requires inUse' == inUse - |Sole(held[s].blocks, counts + multiset(added))|
    ensures ManagerOk(counts', M', held', contents, inUse', bs)
  {
    assert Unfold(true);
    ReleaseKeeps(counts, M, held, s, q, added, h');
    ReleaseInUse(counts, M, held, s, q, added, h');
    ReleaseSound(contents, M, held, bs, s, q, h');
  }

  lemma EngineOk<S>(counts: multiset<int>, M: Content, held: map<S, Holder>, held': map<S, Holder>,
                    contents: map<int, Key>, contents': map<int, Key>, inUse: int, bs: nat, s: S, h': Holder, keep: nat)
    requires ManagerOk(counts, M, held, contents, inUse, bs) && s in held && held' == held[s := h']
    requires EngineStep(held[s], h', keep, contents, contents', bs)
    ensures ManagerOk(counts, M, held', contents', inUse, bs)
  {
    assert Unfold(true);
    EngineSound(counts, contents, contents', M, held, bs, s, h', keep);
    forall b
      ensures b in InUse(held) <==> b in InUse(held')
    {
      InUseIff(held, b);
      InUseIff(held', b);
      HoldersUpdate(held, s, h', b);
    }
    TwoParts(InUse(held'), InUse(held), {});
  }

  // ---------------------------------------------------------------- the manager

  class BlockManager {
    const bs: nat
    const enablePrefixCache: bool
    const pool: BlockAllocator
    const cache: PrefixCache
    var numBlocksInUse: int

    ghost var holders: set<Sequence>
    ghost var contents: map<int, Key>

    /** The sequences that use the manager, and what they hold. */
    ghost function Held(): map<Sequence, Holder>
      reads this`holders, holders
    {
      map s | s in holders :: s.View()
    }

    ghost function Ssm(): map<Sequence, nat>
      reads this`holders, holders
    {
      map s | s in holders :: s.kvSsm
    }

    /** The state of the manager, its sequences and the KV, with the positions behind which no engine
        may go back. */
    ghost function Snap(floor: map<Sequence, nat>): State<Sequence>
      requires cache.Valid()
      reads this, holders, pool, cache, cache.lru
    {
      State(Held(), Ssm(), floor, cache.View(), pool.counts, pool.numFree, numBlocksInUse, contents)
    }

    ghost function Settings(): Options
      reads this, pool
    {
      Options(bs, pool.freeBlocks.Length, enablePrefixCache)
    }

    ghost predicate Valid()
      reads this, holders, pool, pool.freeBlocks, cache, cache.lru
    {
      && bs > 0 && cache.bs == bs && pool.Valid() && cache.Valid()
      && ManagerOk(pool.counts, cache.View(), Held(), contents, numBlocksInUse, bs)
      && (!enablePrefixCache ==> cache.View() == map[])
      && (forall s :: s in holders ==> s.kvSsm <= s.kvLlm)
    }

    twostate lemma HeldSame()
      requires holders == old(holders) && forall t :: t in holders ==> t.View() == old(t.View())
      ensures Held() == old(Held())
    {
    }

    twostate lemma HeldUpdate(s: Sequence)
      requires holders == old(holders) && s in holders && forall t :: t in holders && t != s ==>
        t.View() == old(t.View())
      ensures Held() == old(Held())[s := s.View()]
    {
    }

    twostate lemma SsmUpdate(s: Sequence)
      requires holders == old(holders) && s in holders && forall t :: t in holders && t != s ==> t.kvSsm == old(t.kvSsm)
      ensures Ssm() == old(Ssm())[s := s.kvSsm]
    {
    }

    lemma SequenceFacts(s: Sequence)
      requires Valid() && s in holders
      ensures Held()[s] == s.View() && NoDup(s.blocks) && (forall b :: b in s.blocks ==> b in pool.counts)
      ensures |s.key| <= |s.blocks| && s.kvLlm <= |s.tokens|
    {
      HolderFacts(pool.counts, cache.View(), Held(), contents, numBlocksInUse, bs, s);
    }

    lemma OfferFacts(s: Sequence, t: seq<int>, n: nat)
      requires Valid() && s in holders && t <= s.tokens && |t| <= s.kvLlm && n == Min(|t| / bs, |s.blocks|)
      ensures n <= |Chunks(t, bs)| && n <= BlocksIn(s.kvLlm, bs) && n <= |s.blocks|
      ensures Chunks(t, bs)[..n] <= Chunks(s.tokens, bs) && SameStart(Chunks(t, bs)[..n], s.key)
    {
      assert Held()[s] == s.View();
      OfferedKeys(pool.counts, cache.View(), Held(), contents, numBlocksInUse, bs, s, t, n);
    }

    /** Reserves block 0 for padding. */
    constructor (numBlocks: nat, blockSize: nat, enable: bool)
      requires numBlocks > 0 && blockSize > 0
      ensures Valid() && fresh(pool) && fresh(pool.freeBlocks) && fresh(cache) && fresh(cache.lru)
      ensures pool.freeBlocks.Length == numBlocks && bs == blockSize && enablePrefixCache == enable
      ensures pool.counts == multiset{PADDING} && numBlocksInUse == 0 && holders == {}
      ensures cache.View() == map[] && cache.clock == 0
    {
      var allocator := new BlockAllocator(numBlocks, blockSize);
      var padding := allocator.Allocate();
      pool := allocator;
      cache := new PrefixCache(blockSize);
      bs, enablePrefixCache, numBlocksInUse := blockSize, enable, 0;
      holders, contents := {}, map[];
      new;
      assert padding == PADDING && pool.counts == multiset{PADDING} && cache.View() == map[];
      assert Held() == map[];
      EmptyManager(Held(), bs);
    }

    /** A new sequence, which holds nothing yet. */
    method Register(s: Sequence)
      requires Valid() && s !in holders && s.blocks == [] && s.key == [] && s.kvLlm == 0 && s.kvSsm == 0
      modifies this`holders
      ensures Valid() && holders == old(holders) + {s}
    {
      ghost var held := Held();
      holders := holders + {s};
      assert Held() == held[s := s.View()];
      RegisterOk(pool.counts, cache.View(), held, Held(), contents, numBlocksInUse, bs, s, s.View());
    }

    /** The engine's work on a sequence between two calls to the manager: tokens are appended or
        replaced, and their KV is written. */
    method Engine(s: Sequence, tokens: seq<int>, kvLlm: nat, kvSsm: nat, ghost keep: nat,
                  ghost contents': map<int, Key>)
      requires Valid() && s in holders && kvSsm <= kvLlm
      requires EngineStep(s.View(), s.View().(tokens := tokens, kv := kvLlm), keep, contents, contents', bs)
      modifies this`contents, s`tokens, s`kvLlm, s`kvSsm
      ensures Valid() && s.tokens == tokens && s.kvLlm == kvLlm && s.kvSsm == kvSsm && contents == contents'
    {
      hide ManagerOk, EngineStep, FreeListOk, CacheOk;
      ghost var held, before := Held(), contents;
      s.tokens, s.kvLlm, s.kvSsm := tokens, kvLlm, kvSsm;
      contents := contents';
      HeldUpdate(s);
      EngineOk(pool.counts, cache.View(), held, Held(), before, contents, numBlocksInUse, bs, s, s.View(), keep);
    }

    /** Matches the tokens and counts the matched blocks that no sequence held. */
    method MatchAndCount(tokens: seq<int>, now: int) returns (shared: seq<int>)
      requires Valid() && cache.clock <= now
      modifies this`numBlocksInUse, pool`counts, cache, cache.lru
      ensures cache.Valid() && pool.Valid() && cache.clock <= now && cache.View() == old(cache.View())
        && Held() == old(Held())
      ensures IsLongestMatch(cache.View(), Chunks(tokens, bs), shared)
      ensures pool.counts == old(pool.counts) + multiset(shared)
      ensures numBlocksInUse == old(numBlocksInUse) + |Sole(shared, pool.counts)|
    {
      hide ManagerOk, FreeListOk, CacheOk, Sole;
      ghost var M := cache.View();
      CachedLive(pool.counts, M, Held(), contents, numBlocksInUse, bs);
      shared := cache.Match(tokens, pool, now);
      ServedFacts(M, Chunks(tokens, bs), shared);
      var n := CountSole(shared, pool.counts);
      numBlocksInUse := numBlocksInUse + n;
    }

    method TakeMatched(s: Sequence, now: int)
      requires Valid() && s in holders && s.blocks == [] && cache.clock <= now && enablePrefixCache
      modifies this`numBlocksInUse, s, pool`counts, cache, cache.lru
      ensures Valid() && cache.clock <= now && s.tokens == old(s.tokens) && cache.View() == old(cache.View())
      ensures IsLongestMatch(cache.View(), Chunks(s.tokens, bs), s.blocks)
      ensures s.View() == SharedHolder(old(s.View()), cache.View(), bs)
      ensures s.kvSsm == if s.blocks == [] then old(s.kvSsm) else s.kvLlm
      ensures Held() == old(Held())[s := s.View()] && pool.counts == old(pool.counts) + multiset(s.blocks)
    {
      hide ManagerOk, FreeListOk, CacheOk;
      ghost var held, q, counts, inUse, M, h := Held(), Chunks(s.tokens, bs), pool.counts, numBlocksInUse,
        cache.View(), s.View();
      SequenceFacts(s);
      var shared := MatchAndCount(s.tokens, now);
      s.SetSharedBlocks(shared, bs, q);
      HeldUpdate(s);
      SharedIs(h, s.View(), M, bs);
      ShareOk(counts, pool.counts, M, held, Held(), contents, inUse, numBlocksInUse, bs, s, s.View());
    }

    /** Gives a sequence without blocks the blocks of its longest cached prefix.  A block with at most
        two handles, the cache's and the new one, was held by no sequence. */
    method AllocateSharedBlocksFor(s: Sequence, now: int)
      requires Valid() && s in holders && s.blocks == [] && cache.clock <= now
      modifies this`numBlocksInUse, s, pool`counts, cache, cache.lru
      ensures Valid() && cache.clock <= now && s.tokens == old(s.tokens) && cache.View() == old(cache.View())
      ensures IsLongestMatch(cache.View(), Chunks(s.tokens, bs), s.blocks)
      ensures s.View() == SharedHolder(old(s.View()), cache.View(), bs)
      ensures s.kvSsm == if s.blocks == [] then old(s.kvSsm) else s.kvLlm
      ensures forall i :: 0 <= i < |s.blocks| ==> KvOf(s, i)
      ensures Held() == old(Held())[s := s.View()] && pool.counts == old(pool.counts) + multiset(s.blocks)
    {
      if enablePrefixCache {
        TakeMatched(s, now);
      } else {
        SequenceFacts(s);
        SharedIs(s.View(), s.View(), cache.View(), bs);
      }
      MatchKv(pool.counts, cache.View(), Held(), contents, numBlocksInUse, bs, s.tokens, s.blocks);
    }

    /** Block `i` of `s` holds the KV of the first `i + 1` blocks of its tokens. */
    ghost predicate KvOf(s: Sequence, i: int)
      requires bs > 0
      reads this`contents, s
    {
      Written(s.View(), contents, bs, i)
    }

    /** Evicts as many cached blocks as asked for, or all that no sequence holds. */
    method EvictBlocks(n: nat) returns (evicted: nat)
      requires Valid() && enablePrefixCache
      modifies pool, pool.freeBlocks, cache, cache.lru
      ensures Valid() && cache.clock == old(cache.clock) && Held() == old(Held())
      ensures evicted == Min(n, |Unshared(old(cache.View()), old(pool.counts))|)
        && pool.numFree == old(pool.numFree) + evicted
      ensures Dropping(old(cache.View()), old(pool.counts), old(pool.numFree), cache.View(), pool.counts, pool.numFree,
                       evicted)
    {
      ghost var counts, M, held, free := pool.counts, cache.View(), Held(), pool.numFree;
      CachedLive(counts, M, held, contents, numBlocksInUse, bs);
      evicted := cache.Evict(n, pool);
      assert Held() == held;
      EvictOk(counts, pool.counts, M, cache.View(), Held(), contents, numBlocksInUse, bs, free, pool.numFree, evicted);
    }

    /** Whether `n` blocks can be allocated, evicting cached blocks as far as needed.  This is so
        exactly when `n` is at most the number of ids that are neither padding nor in use. */
    method HasEnoughBlocks(n: nat) returns (ok: bool)
      requires Valid()
      modifies pool, pool.freeBlocks, cache, cache.lru
      ensures Valid() && cache.clock == old(cache.clock) && Held() == old(Held())
      ensures ok <==> n <= pool.freeBlocks.Length - 1 - numBlocksInUse
      ensures ok ==> pool.numFree == Max(n, old(pool.numFree))
      ensures !ok && enablePrefixCache ==>
        pool.numFree == old(pool.numFree) + |Unshared(old(cache.View()), old(pool.counts))|
      ensures !ok && !enablePrefixCache ==> pool.numFree == old(pool.numFree)
      ensures var toEvict :=
        ToEvict(n, old(pool.numFree), |Unshared(old(cache.View()), old(pool.counts))|, enablePrefixCache);
        Dropping(old(cache.View()), old(pool.counts), old(pool.numFree), cache.View(), pool.counts, pool.numFree,
                 toEvict)
    {
      hide ManagerOk, FreeListOk, CacheOk, Dropping, Injective, PathClosed;
      CachedLive(pool.counts, cache.View(), Held(), contents, numBlocksInUse, bs);
      DroppingNothing(cache.View(), pool.counts, pool.numFree);
      Capacity(pool.freeBlocks[..], pool.numFree, pool.counts, cache.View(), Held(), contents, numBlocksInUse, bs);
      if n <= pool.numFree {
        return true;
      }
      if !enablePrefixCache {
        return false;
      }
      var toEvict := n - pool.numFree;
      var evicted := EvictBlocks(toEvict);
      if evicted < toEvict {
        return false;
      }
      // the warning about a potential block leak is unreachable: the ids are free now
      assert pool.numFree >= n;
      return true;
    }

    /** Allocates the missing blocks for `numTokens` tokens, after sharing if the sequence has none.
        `h` is what the sequence holds once the sharing is done. */
    method AllocateBlocksFor(s: Sequence, numTokens: nat, now: int) returns (ok: bool, ghost h: Holder)
      requires Valid() && s in holders && cache.clock <= now
      modifies this`numBlocksInUse, s, pool, pool.freeBlocks, cache, cache.lru
      ensures Valid() && cache.clock <= now && s.tokens == old(s.tokens)
      ensures old(s.blocks) != [] ==> h == old(s.View())
      ensures old(s.blocks) == [] ==> IsLongestMatch(old(cache.View()), Chunks(s.tokens, bs), h.blocks)
      ensures old(s.blocks) == [] ==> h == SharedHolder(old(s.View()), old(cache.View()), bs)
      ensures s.kvSsm == if old(s.blocks) == [] && h.blocks != [] then h.kv else old(s.kvSsm)
      ensures ok
        <==> BlocksNeeded(numTokens, bs) - |h.blocks| <= pool.freeBlocks.Length - 1 - |InUse(old(Held())[s := h])|
      ensures ok ==> |s.blocks| == Max(|h.blocks|, BlocksNeeded(numTokens, bs)) && numTokens <= |s.blocks| * bs
      ensures h.blocks <= s.blocks && (!ok ==> s.blocks == h.blocks)
      ensures Held() == old(Held())[s := h.(blocks := s.blocks)]
      ensures Granted(old(cache.View()), old(pool.counts) + multiset(if old(s.blocks) == [] then h.blocks else []),
                      old(pool.numFree),
                      cache.View(), pool.counts, pool.numFree, BlocksNeeded(numTokens, bs) - |h.blocks|,
                        s.blocks[|h.blocks|..], ok, enablePrefixCache)
      ensures numBlocksInUse == |InUse(old(Held())[s := h])| + |s.blocks| - |h.blocks|
    {
      hide ManagerOk, FreeListOk, CacheOk, Granted, IsLongestMatch, SharedHolder, InUse, BlocksNeeded, Written;
      if s.blocks == [] {
        AllocateSharedBlocksFor(s, now);
      }
      h := s.View();
      assert pool.counts == old(pool.counts) + multiset(if old(s.blocks) == [] then h.blocks else []);
      assert Held() == old(Held())[s := h];
      InUseIs(pool.counts, cache.View(), Held(), contents, numBlocksInUse, bs);
      ok := AllocateMissing(s, numTokens);
      UpdateTwice(old(Held()), s, h, h.(blocks := s.blocks));
    }

    method AllocateMissing(s: Sequence, numTokens: nat) returns (ok: bool)
      requires Valid() && s in holders
      modifies this`numBlocksInUse, s`blocks, pool, pool.freeBlocks, cache, cache.lru
      ensures Valid() && cache.clock == old(cache.clock)
      ensures ok <==> BlocksNeeded(numTokens, bs) - old(|s.blocks|) <= pool.freeBlocks.Length - 1 - old(numBlocksInUse)
      ensures ok ==> |s.blocks| == Max(old(|s.blocks|), BlocksNeeded(numTokens, bs)) && numTokens <= |s.blocks| * bs
      ensures old(s.blocks) <= s.blocks && (!ok ==> s.blocks == old(s.blocks))
      ensures Held() == old(Held())[s := old(s.View()).(blocks := s.blocks)]
      ensures numBlocksInUse == old(numBlocksInUse) + |s.blocks| - old(|s.blocks|)
      ensures Granted(old(cache.View()), old(pool.counts), old(pool.numFree), cache.View(), pool.counts, pool.numFree,
                      BlocksNeeded(numTokens, bs) - old(|s.blocks|), s.blocks[old(|s.blocks|)..], ok, enablePrefixCache)
    {
      hide ManagerOk, FreeListOk, CacheOk, Granted, Dropping, Unshared, Injective, PathClosed;
      var needed := BlocksNeeded(numTokens, bs);
      NeededCovers(numTokens, bs, |s.blocks|);
      ghost var held, M, counts, free := Held(), cache.View(), pool.counts, pool.numFree;
      CachedLive(counts, M, held, contents, numBlocksInUse, bs);
      var missing := needed - |s.blocks|;
      if missing <= 0 {
        Capacity(pool.freeBlocks[..], pool.numFree, pool.counts, cache.View(), Held(), contents, numBlocksInUse, bs);
        assert s.blocks[|s.blocks|..] == [];
        NothingGranted(missing, enablePrefixCache);
        return true;
      }
      ok := HasEnoughBlocks(missing);
      ghost var counts', free' := pool.counts, pool.numFree;
      ghost var more := [];
      if ok {
        more := AppendNew(s, missing);
        UpdateTwice(held, s, old(s.View()), s.View());
      }
      assert s.blocks[old(|s.blocks|)..] == more;
      GrantedMore(M, counts, free, cache.View(), counts', free', missing, more, ok, enablePrefixCache, pool.counts,
                  pool.numFree);
    }

    lemma NothingGranted(missing: int, enable: bool)
      requires Valid() && missing <= 0
      ensures Granted(cache.View(), pool.counts, pool.numFree, cache.View(), pool.counts, pool.numFree, missing, [],
                      true, enable)
    {
      CachedLive(pool.counts, cache.View(), Held(), contents, numBlocksInUse, bs);
      DroppingNothing(cache.View(), pool.counts, pool.numFree);
      GrantedMore(cache.View(), pool.counts, pool.numFree, cache.View(), pool.counts, pool.numFree, missing, [], true,
                  enable, pool.counts, pool.numFree);
    }

    method AppendNew(s: Sequence, missing: nat) returns (ghost more: seq<int>)
      requires Valid() && s in holders && missing <= pool.numFree
      modifies this`numBlocksInUse, s`blocks, pool
      ensures Valid() && |more| == missing && s.blocks == old(s.blocks) + more
        && numBlocksInUse == old(numBlocksInUse) + missing
      ensures NoDup(more) && (forall b :: b in more ==> old(pool.counts)[b] == 0)
      ensures pool.counts == old(pool.counts) + multiset(more) && pool.numFree == old(pool.numFree) - missing
      ensures Held() == old(Held())[s := s.View()]
    {
      ghost var held, counts, inUse := Held(), pool.counts, numBlocksInUse;
      var ids := pool.AllocateMany(missing);
      more := ids;
      s.AppendBlocks(ids);
      numBlocksInUse := numBlocksInUse + missing;
      HeldUpdate(s);
      AppendOk(counts, pool.counts, cache.View(), held, Held(), contents, inUse, numBlocksInUse, bs, s, more);
    }

    /** Offers the blocks of a sequence to the cache and takes the blocks that no other sequence holds
        off the count, whether or not the sequence gives them up afterwards.  The count stays right
        exactly when every block of the sequence is also held by another one. */
    method CacheBlocksFor(s: Sequence, now: int) returns (ghost q: Key, ghost added: seq<int>)
      requires Valid() && s in holders && cache.clock <= now
      modifies this`numBlocksInUse, pool`counts, cache, cache.lru
      ensures cache.Valid() && pool.Valid() && cache.clock <= now && Held() == old(Held())
      ensures Inserted(old(cache.View()), s.View(), q, added) && SameStart(q, s.key)
      ensures s.kvSsm <= s.kvLlm <= |s.tokens| && q == OfferedKey(s.View(), s.kvSsm, bs, enablePrefixCache)
      ensures q <= Chunks(s.tokens, bs) && |q| <= BlocksIn(s.kvLlm, bs)
      ensures |q| <= |s.blocks| && cache.View() == AddContent(old(cache.View()), [], q, s.blocks[..|q|])
      ensures !enablePrefixCache ==> cache.View() == map[]
      ensures pool.counts == old(pool.counts) + multiset(added)
      ensures numBlocksInUse == old(numBlocksInUse) - |Sole(s.blocks, pool.counts)|
      ensures numBlocksInUse == |InUse(Held())| <==> forall b :: b in s.blocks ==> |HoldersOf(Held(), b)| > 1
    {
      hide ManagerOk, FreeListOk, CacheOk, Inserted, SameStart, AddContent, HoldersOf, InUse, Sole;
      ghost var M, counts, inUse, held := cache.View(), pool.counts, numBlocksInUse, Held();
      if enablePrefixCache {
        q, added := OfferBlocks(s, now);
        UncountSole(s);
      } else {
        q, added := [], [];
        SequenceFacts(s);
        numBlocksInUse := numBlocksInUse - |s.blocks|;
        NothingCached(counts, M, held, contents, inUse, bs, s);
      }
      CacheCount(counts, M, held, contents, inUse, bs, s, q, added);
    }

    /** Takes every block of `s` with at most two handles off the count. */
    method UncountSole(s: Sequence)
      requires NoDup(s.blocks)
      modifies this`numBlocksInUse
      ensures numBlocksInUse == old(numBlocksInUse) - |Sole(s.blocks, pool.counts)|
    {
      var sole := CountSole(s.blocks, pool.counts);
      numBlocksInUse := numBlocksInUse - sole;
    }

    method OfferBlocks(s: Sequence, now: int) returns (ghost q: Key, ghost added: seq<int>)
      requires Valid() && s in holders && cache.clock <= now
      modifies pool`counts, cache, cache.lru
      ensures cache.Valid() && pool.Valid() && cache.clock <= now && Held() == old(Held())
      ensures Inserted(old(cache.View()), s.View(), q, added) && SameStart(q, s.key)
      ensures s.kvSsm <= s.kvLlm <= |s.tokens| && q == OfferedKey(s.View(), s.kvSsm, bs, true)
      ensures q <= Chunks(s.tokens, bs) && |q| <= BlocksIn(s.kvLlm, bs)
      ensures |q| <= |s.blocks| && cache.View() == AddContent(old(cache.View()), [], q, s.blocks[..|q|])
      ensures pool.counts == old(pool.counts) + multiset(added) && NoDup(s.blocks)
    {
      hide ManagerOk, FreeListOk, CacheOk, Inserted, SameStart, AddContent;
      SequenceFacts(s);
      var t := s.TokensInKvCache();
      q, added := OfferTokens(s, t, now);
    }

    method OfferTokens(s: Sequence, t: seq<int>, now: int) returns (ghost q: Key, ghost added: seq<int>)
      requires Valid() && s in holders && cache.clock <= now && t <= s.tokens && |t| <= s.kvLlm
      requires forall b :: b in s.blocks ==> b in pool.counts
      modifies pool`counts, cache, cache.lru
      ensures cache.Valid() && pool.Valid() && cache.clock <= now && Held() == old(Held())
      ensures Inserted(old(cache.View()), s.View(), q, added) && SameStart(q, s.key)
      ensures q == Chunks(t, bs)[..Min(|Chunks(t, bs)|, |s.blocks|)]
      ensures q <= Chunks(s.tokens, bs) && |q| <= BlocksIn(s.kvLlm, bs)
      ensures |q| <= |s.blocks| && cache.View() == AddContent(old(cache.View()), [], q, s.blocks[..|q|])
      ensures pool.counts == old(pool.counts) + multiset(added)
    {
      ChunksAre(t, bs);
      ghost var n := Min(|t| / bs, |s.blocks|);
      OfferFacts(s, t, n);
      q := Chunks(t, bs)[..n];
      var newTokens;
      newTokens, added := cache.Insert(t, s.blocks, pool, now);
      HeldSame();
    }

    /** Caches the blocks of a sequence and drops its handles; `added` are the blocks that the cache did
        not have. */
    method ReleaseBlocksFor(s: Sequence, now: int) returns (ghost added: seq<int>)
      requires Valid() && s in holders && cache.clock <= now
      modifies this`numBlocksInUse, s, pool, pool.freeBlocks, cache, cache.lru
      ensures Valid() && cache.clock <= now && s.blocks == [] && s.kvLlm == 0 && s.kvSsm == 0
        && s.tokens == old(s.tokens)
      ensures Held() == old(Held())[s := s.View()]
      ensures forall k :: k in old(cache.View()) ==> k in cache.View() && cache.View()[k] == old(cache.View())[k]
      ensures old(s.kvSsm <= s.kvLlm <= |s.tokens|)
      ensures var h := old(s.View());
        var q := OfferedKey(h, old(s.kvSsm), bs, enablePrefixCache);
        && Inserted(old(cache.View()), h, q, added)
          && cache.View() == AddContent(old(cache.View()), [], q, h.blocks[..|q|])
        && pool.counts == old(pool.counts) + multiset(added) - multiset(h.blocks)
      ensures CachesExactly(old(cache.View()), cache.View(), old(s.View()), old(s.kvSsm), bs, enablePrefixCache)
    {
      hide ManagerOk, Inserted, OfferedKey, SameStart, AddContent, Sole, FreeListOk, CacheOk, InUse, HoldersOf,
        CachesExactly;
      ghost var held, M, counts, inUse, h := Held(), cache.View(), pool.counts, numBlocksInUse, s.View();
      SequenceFacts(s);
      ghost var q;
      q, added := CacheBlocksFor(s, now);
      DropHandles(s);
      OfferedCaches(M, h, old(s.kvSsm), bs, enablePrefixCache);
      InsertSubmap(M, q, h.blocks[..|q|]);
      ReleaseOk(counts, pool.counts, M, cache.View(), held, Held(), contents, inUse, numBlocksInUse, bs, s, q, added,
                s.View());
    }

    method DropHandles(s: Sequence)
      requires pool.Valid() && cache.Valid() && s in holders && NoDup(s.blocks) && forall b :: b in s.blocks ==>
        b in pool.counts
      modifies s, pool, pool.freeBlocks
      ensures pool.Valid() && cache.Valid() && cache.View() == old(cache.View())
      ensures s.blocks == [] && s.key == [] && s.kvLlm == 0 && s.kvSsm == 0 && s.tokens == old(s.tokens)
      ensures pool.counts == old(pool.counts) - multiset(old(s.blocks)) && Held() == old(Held())[s := s.View()]
    {
      hide FreeListOk, CacheOk;
      pool.DecRefs(s.blocks);
      s.ReleaseBlocks();
      HeldUpdate(s);
    }

    /** One step of an engine on a sequence: the KV of the first `keep` positions is kept and that of the
        positions up to `kvLlm` is computed.  A step that is not legal is refused. */
    method Compute(s: Sequence, tokens: seq<int>, keep: nat, kvLlm: nat, kvSsm: nat, floor: nat) returns (ok: bool)
      requires Valid() && s in holders && |s.key| <= BlocksIn(floor + 1, bs)
      modifies this`contents, s`tokens, s`kvLlm, s`kvSsm
      ensures Valid() && (ok <==> Legal(old(s.tokens), old(s.kvLlm), |s.blocks|, floor, tokens, keep, kvLlm, kvSsm, bs))
      ensures ok ==> s.View() == old(s.View()).(tokens := tokens, kv := kvLlm) && s.kvSsm == kvSsm
      ensures ok ==> contents == Computed(s.View(), keep, old(contents), bs)
      ensures !ok ==> s.View() == old(s.View()) && s.kvSsm == old(s.kvSsm) && contents == old(contents)
      ensures Held() == old(Held())[s := s.View()]
    {
      hide ManagerOk, FreeListOk, CacheOk, EngineStep, Computed;
      ok := Legal(s.tokens, s.kvLlm, |s.blocks|, floor, tokens, keep, kvLlm, kvSsm, bs);
      if ok {
        ghost var h' := s.View().(tokens := tokens, kv := kvLlm);
        assert Held()[s] == s.View();
        EngineFacts(pool.counts, cache.View(), Held(), contents, numBlocksInUse, bs, s, h', floor, keep, kvSsm);
        Engine(s, tokens, kvLlm, kvSsm, keep, Computed(h', keep, contents, bs));
      }
      HeldUpdate(s);
    }

    /** What holds of the manager in every reachable state: the counter is the number of distinct
        blocks in use; free, cached and used blocks add up; the shared part of the cache is closed
        under prefixes; no block is cached twice; and any match returns the KV of the matched tokens. */
    lemma ValidMeans(tokens: seq<int>, blocks: seq<int>)
      requires Valid() && IsLongestMatch(cache.View(), Chunks(tokens, bs), blocks)
      ensures numBlocksInUse == |InUse(Held())|
      ensures pool.numFree + |Unshared(cache.View(), pool.counts)| + numBlocksInUse + 1 == pool.freeBlocks.Length
      ensures PathClosed(cache.View(), pool.counts) && Injective(cache.View())
      ensures forall i :: 0 <= i < |blocks| ==>
        blocks[i] in contents && contents[blocks[i]] == Chunks(tokens, bs)[..i + 1]
      ensures forall s :: s in holders ==> NoDup(s.blocks) && forall b :: b in s.blocks ==>
        PADDING < b < pool.freeBlocks.Length
    {
      InUseIs(pool.counts, cache.View(), Held(), contents, numBlocksInUse, bs);
      Capacity(pool.freeBlocks[..], pool.numFree, pool.counts, cache.View(), Held(), contents, numBlocksInUse, bs);
      CachedLive(pool.counts, cache.View(), Held(), contents, numBlocksInUse, bs);
      MatchKv(pool.counts, cache.View(), Held(), contents, numBlocksInUse, bs, tokens, blocks);
      forall s | s in holders
        ensures NoDup(s.blocks) && forall b :: b in s.blocks ==> PADDING < b < pool.freeBlocks.Length
      {
        SequenceFacts(s);
        NoPadding(pool.counts, cache.View(), Held(), contents, numBlocksInUse, bs, s);
        LiveInRange(pool.freeBlocks[..], pool.numFree, pool.counts);
      }
    }

    // -------------------------------------------------------------- steps and runs

    lemma SnapOk(floor: map<Sequence, nat>)
      requires Valid() && FloorsOk(Held(), floor, bs)
      ensures StateOk(Snap(floor), Settings())
    {
      InUseIs(pool.counts, cache.View(), Held(), contents, numBlocksInUse, bs);
      Capacity(pool.freeBlocks[..], pool.numFree, pool.counts, cache.View(), Held(), contents, numBlocksInUse, bs);
      CachedLive(pool.counts, cache.View(), Held(), contents, numBlocksInUse, bs);
      forall s | s in holders ensures s.kvLlm <= |s.tokens| { SequenceFacts(s); }
    }

    method ShareStep(s: Sequence, now: int, floor: map<Sequence, nat>) returns (floor': map<Sequence, nat>)
      requires Valid() && FloorsOk(Held(), floor, bs) && s in holders && cache.clock <= now
      modifies this`numBlocksInUse, s, pool`counts, cache, cache.lru
      ensures Valid() && FloorsOk(Held(), floor', bs) && cache.clock <= now
        && Snap(floor') == Shared(old(Snap(floor)), s, bs)
    {
      hide ManagerOk, FreeListOk, CacheOk, IsLongestMatch, SharedHolder, InUse, Written, FloorsOk;
      floor' := floor;
      if s.blocks == [] {
        AllocateSharedBlocksFor(s, now);
        floor' := floor[s := s.kvLlm];
        SsmUpdate(s);
        InUseIs(pool.counts, cache.View(), Held(), contents, numBlocksInUse, bs);
        KeyFloor(pool.counts, cache.View(), Held(), contents, numBlocksInUse, bs, s);
        FloorUpdate(old(Held()), floor, bs, s, s.View(), s.kvLlm);
      }
    }

    method AllocateStep(s: Sequence, numTokens: nat, now: int, floor: map<Sequence, nat>)
      returns (ok: bool, floor': map<Sequence, nat>)
      requires Valid() && FloorsOk(Held(), floor, bs) && s in holders && cache.clock <= now
      modifies this`numBlocksInUse, s, pool, pool.freeBlocks, cache, cache.lru
      ensures Valid() && FloorsOk(Held(), floor', bs) && cache.clock <= now
      ensures var m := Shared(old(Snap(floor)), s, bs);
        s in m.held && Allocates(m, Snap(floor'), s, numTokens, ok, Settings())
    {
      hide ManagerOk, FreeListOk, CacheOk, IsLongestMatch, SharedHolder, InUse, Granted, FloorsOk, BlocksNeeded,
        Shared, Allocates;
      var first := s.blocks == [];
      ghost var h, a := s.View(), Snap(floor);
      InUseIs(pool.counts, cache.View(), Held(), contents, numBlocksInUse, bs);
      ok, h := AllocateBlocksFor(s, numTokens, now);
      floor' := if first then floor[s := s.kvLlm] else floor;
      SsmUpdate(s);
      AllocateFloor(s, floor, first, a.held);
      AllocatesFrom(a, Snap(floor'), s, h, numTokens, ok, Settings());
    }

    lemma AllocateFloor(s: Sequence, floor: map<Sequence, nat>, first: bool, held: map<Sequence, Holder>)
      requires Valid() && s in holders && FloorsOk(held, floor, bs) && s in held && Held() == held[s := s.View()]
      requires !first ==> s.key == held[s].key
      ensures FloorsOk(Held(), if first then floor[s := s.kvLlm] else floor, bs)
    {
      hide ManagerOk, FreeListOk, CacheOk;
      KeyFloor(pool.counts, cache.View(), Held(), contents, numBlocksInUse, bs, s);
    }

    method ReleaseStep(s: Sequence, now: int, floor: map<Sequence, nat>) returns (floor': map<Sequence, nat>)
      requires Valid() && FloorsOk(Held(), floor, bs) && s in holders && cache.clock <= now
      modifies this`numBlocksInUse, s, pool, pool.freeBlocks, cache, cache.lru
      ensures Valid() && FloorsOk(Held(), floor', bs) && cache.clock <= now
      ensures old(s.kvSsm <= s.kvLlm <= |s.tokens|) && Releases(old(Snap(floor)), Snap(floor'), s, Settings())
    {
      hide ManagerOk, FreeListOk, CacheOk, InUse, Inserted, OfferedKey, FloorsOk, CachesExactly;
      ghost var added := ReleaseBlocksFor(s, now);
      floor' := floor[s := 0];
      SsmUpdate(s);
      SequenceFacts(s);
      InUseIs(pool.counts, cache.View(), Held(), contents, numBlocksInUse, bs);
      FloorUpdate(old(Held()), floor, bs, s, s.View(), 0);
    }

    method ComputeStep(e: Event<Sequence>, floor: map<Sequence, nat>) returns (ok: bool)
      requires Valid() && FloorsOk(Held(), floor, bs) && e.Compute? && e.who in holders
      modifies this`contents, e.who`tokens, e.who`kvLlm, e.who`kvSsm
      ensures Valid() && FloorsOk(Held(), floor, bs)
      ensures Computes(old(Snap(floor)), Snap(floor), e.who, e.tokens, e.keep, e.kvLlm, e.kvSsm, ok, bs)
    {
      hide *;
      var s := e.who;
      FloorFacts(floor, s);
      SnapIs(floor);
      ok := Compute(s, e.tokens, e.keep, e.kvLlm, e.kvSsm, floor[s]);
      SsmUpdate(s);
      SnapIs(floor);
      ComputesFrom(old(Snap(floor)), Snap(floor), s, e.tokens, e.keep, e.kvLlm, e.kvSsm, ok, bs);
    }

    lemma FloorFacts(floor: map<Sequence, nat>, s: Sequence)
      requires Valid() && FloorsOk(Held(), floor, bs) && s in holders
      ensures bs > 0 && cache.Valid() && s in Held() && s in floor && |s.key| <= BlocksIn(floor[s] + 1, bs)
      ensures s.kvSsm <= s.kvLlm <= |s.tokens|
    {
      SequenceFacts(s);
      assert Held()[s] == s.View();
    }

    lemma SnapIs(floor: map<Sequence, nat>)
      requires Valid()
      ensures bs > 0 && cache.Valid() && Settings() == Options(bs, pool.freeBlocks.Length, enablePrefixCache)
      ensures forall s: Sequence :: s.View() == Holder(s.blocks, s.key, s.tokens, s.kvLlm)
      ensures Snap(floor) == State(Held(), Ssm(), floor, cache.View(), pool.counts, pool.numFree, numBlocksInUse,
                                   contents)
      ensures Held().Keys == Ssm().Keys == holders && forall s :: s in holders ==>
        Held()[s] == s.View() && Ssm()[s] == s.kvSsm
    {
    }

    /** One event of a run, at a time that is not before the last one. */
    method Do(e: Event<Sequence>, now: int, floor: map<Sequence, nat>) returns (ok: bool, floor': map<Sequence, nat>)
      requires Valid() && FloorsOk(Held(), floor, bs) && e.who in holders && cache.clock <= now
      modifies this`numBlocksInUse, this`contents, e.who, pool, pool.freeBlocks, cache, cache.lru
      ensures Valid() && FloorsOk(Held(), floor', bs) && cache.clock <= now
      ensures Step(e, old(Snap(floor)), Snap(floor'), ok, Settings())
    {
      hide *;
      FloorFacts(floor, e.who);
      SnapIs(floor);
      ok, floor' := true, floor;
      match e {
        case Share(s, _) =>
          floor' := ShareStep(s, now, floor);
        case Allocate(s, numTokens, _) =>
          ok, floor' := AllocateStep(s, numTokens, now, floor);
        case Compute(s, _, _, _, _) =>
          ok := ComputeStep(e, floor);
        case Release(s, _) =>
          floor' := ReleaseStep(s, now, floor);
      }
      SnapIs(floor');
      StepIs(e, old(Snap(floor)), Snap(floor'), ok, Settings());
    }

    /** Any run of calls and engine steps, with a clock that never goes back, from any valid state whose
        sequences have shared no more than `floor` says.  `answers` has one entry for each event. */
    method Run(events: seq<Event<Sequence>>, start: int, floor: map<Sequence, nat>)
      returns (answers: seq<bool>, floor': map<Sequence, nat>, ghost trace: seq<State<Sequence>>)
      requires Valid() && FloorsOk(Held(), floor, bs) && cache.clock <= start && forall e :: e in events ==>
        e.who in holders
      modifies this, holders, pool, pool.freeBlocks, cache, cache.lru
      ensures Valid() && holders == old(holders)
      ensures IsRun(events, answers, trace, old(Snap(floor)), Snap(floor'), Settings())
    {
      hide ManagerOk, FreeListOk, CacheOk, FloorsOk, Step, StateOk, IsRun;
      SnapOk(floor);
      answers, floor', trace := [], floor, [Snap(floor)];
      RunStart(Snap(floor), Settings());
      var now := start;
      for i := 0 to |events|
        invariant Valid() && holders == old(holders) && FloorsOk(Held(), floor', bs) && cache.clock <= now
        invariant IsRun(events[..i], answers, trace, old(Snap(floor)), Snap(floor'), Settings())
      {
        var e := events[i];
        assert e in events;
        if !e.Compute? {
          now := now + e.later;
        }
        ghost var before := Snap(floor');
        var ok;
        ok, floor' := Do(e, now, floor');
        SnapOk(floor');
        RunMore(events[..i], answers, trace, old(Snap(floor)), before, Settings(), e, ok, Snap(floor'));
        assert events[..i + 1] == events[..i] + [e];
        answers, trace := answers + [ok], trace + [Snap(floor')];
      }
      assert events[..|events|] == events;
    }
  }

  lemma EngineFacts<S>(counts: multiset<int>, M: Content, held: map<S, Holder>, contents: map<int, Key>, inUse: int,
                       bs: nat,
                       s: S, h': Holder, floor: nat, keep: nat, kvSsm: nat)
    requires ManagerOk(counts, M, held, contents, inUse, bs) && s in held && |held[s].key| <= BlocksIn(floor + 1, bs)
    requires h' == held[s].(tokens := h'.tokens, kv := h'.kv)
    requires Legal(held[s].tokens, held[s].kv, |held[s].blocks|, floor, h'.tokens, keep, h'.kv, kvSsm, bs)
    ensures EngineStep(held[s], h', keep, contents, Computed(h', keep, contents, bs), bs)
  {
    assert Unfold(true);
    LegalStep(M, held[s], h', floor, keep, kvSsm, contents, bs);
  }

  lemma KeyFloor<S>(counts: multiset<int>, M: Content, held: map<S, Holder>, contents: map<int, Key>, inUse: int,
                    bs: nat, s: S)
    requires ManagerOk(counts, M, held, contents, inUse, bs) && s in held
    ensures |held[s].key| <= BlocksIn(held[s].kv + 1, bs)
  {
    assert Unfold(true);
    assert HolderSound(held[s], contents, bs);
  }

  /** What holds in every state of a run: all handles are accounted for, all KV is where it is said to
      be, the counter is the number of distinct blocks in use, and the free, the only cached and the
      used blocks add up to all but the padding block. */
  ghost predicate StateOk<S>(a: State<S>, o: Options) {
    && o.bs > 0 && ManagerOk(a.counts, a.view, a.held, a.contents, a.inUse, o.bs)
    && a.inUse == |InUse(a.held)| && a.free + |Unshared(a.view, a.counts)| + a.inUse + 1 == o.total
    && PathClosed(a.view, a.counts) && (!o.enable ==> a.view == map[])
    && a.ssm.Keys == a.held.Keys && (forall s :: s in a.held ==> a.ssm[s] <= a.held[s].kv <= |a.held[s].tokens|)
    && FloorsOk(a.held, a.floor, o.bs)
  }

  /** `trace` starts in `a`, ends in `b`, and goes from state to state by the events. */
  ghost predicate IsRun<S>(events: seq<Event<S>>, answers: seq<bool>, trace: seq<State<S>>, a: State<S>, b: State<S>,
                           o: Options) {
    && |answers| == |events| && |trace| == |events| + 1 && trace[0] == a && trace[|events|] == b
    && (forall i :: 0 <= i < |trace| ==> StateOk(trace[i], o))
    && (forall i :: 0 <= i < |events| ==> Step(events[i], trace[i], trace[i + 1], answers[i], o))
  }

  lemma RunMore<S>(events: seq<Event<S>>, answers: seq<bool>, trace: seq<State<S>>, a: State<S>, b: State<S>,
                   o: Options,
                   e: Event<S>, ok: bool, c: State<S>)
    requires IsRun(events, answers, trace, a, b, o) && Step(e, b, c, ok, o) && StateOk(c, o)
    ensures IsRun(events + [e], answers + [ok], trace + [c], a, c, o)
  {
    hide Step, StateOk;
  }

  lemma RunStart<S>(a: State<S>, o: Options)
    requires StateOk(a, o)
    ensures IsRun([], [], [a], a, a, o)
  {
  }

  lemma UpdateTwice<S, V>(m: map<S, V>, s: S, v: V, v': V)
    ensures m[s := v][s := v'] == m[s := v']
  {
  }

  lemma InUseIs<S>(counts: multiset<int>, M: Content, held: map<S, Holder>, contents: map<int, Key>, inUse: int,
                   bs: nat)
    requires ManagerOk(counts, M, held, contents, inUse, bs)
    ensures inUse == |InUse(held)|
  {
    assert Unfold(true);
  }

  /** Without a cache no block is shared. */
  lemma NothingCached<S>(counts: multiset<int>, M: Content, held: map<S, Holder>, contents: map<int, Key>, inUse: int,
                         bs: nat, s: S)
    requires ManagerOk(counts, M, held, contents, inUse, bs) && s in held && M == map[]
    ensures Inserted(M, held[s], [], []) && SameStart([], held[s].key)
      && AddContent(M, [], [], held[s].blocks[..0]) == M
    ensures |Sole(held[s].blocks, counts)| == |held[s].blocks|
  {
    assert Unfold(true);
    var h := held[s];
    assert HolderOk(M, h);
    forall b | b in h.blocks
      ensures counts[b] == 1
    {
      OnlyHolder(counts, M, held, s, b);
      assert Counted(counts, M, held, b);
    }
    NoDupSize(h.blocks);
    TwoParts(Sole(h.blocks, counts), Elements(h.blocks), {});
  }

  lemma CacheCount<S>(counts: multiset<int>, M: Content, held: map<S, Holder>, contents: map<int, Key>, inUse: int,
                      bs: nat, s: S, q: Key, added: seq<int>)
    requires ManagerOk(counts, M, held, contents, inUse, bs) && s in held && Inserted(M, held[s], q, added)
      && SameStart(q, held[s].key)
    ensures inUse - |Sole(held[s].blocks, counts + multiset(added))| == |InUse(held)|
       <==> forall b :: b in held[s].blocks ==> |HoldersOf(held, b)| > 1
  {
    assert Unfold(true);
    var blocks, sole := held[s].blocks, Sole(held[s].blocks, counts + multiset(added));
    forall b
      ensures b in sole <==> b in blocks && |HoldersOf(held, b)| == 1
      ensures b in blocks ==> |HoldersOf(held, b)| > 0
    {
      ReleaseSole(counts, M, held, s, q, added, b);
      if b in blocks { HeldMeansHolder(held, s, b); }
    }
    if sole != {} {
      var b := AnyOf(sole);
    }
  }

  lemma MatchKv<S>(counts: multiset<int>, M: Content, held: map<S, Holder>, contents: map<int, Key>, inUse: int,
                   bs: nat, tokens: seq<int>, blocks: seq<int>)
    requires ManagerOk(counts, M, held, contents, inUse, bs) && Serves(M, Chunks(tokens, bs), 0, blocks)
    ensures forall i :: 0 <= i < |blocks| ==>
      blocks[i] in contents && contents[blocks[i]] == Chunks(tokens, bs)[..i + 1]
  {
    assert Unfold(true);
    forall i | 0 <= i < |blocks|
      ensures blocks[i] in contents && contents[blocks[i]] == Chunks(tokens, bs)[..i + 1]
    {
      MatchSound(M, contents, Chunks(tokens, bs), blocks, i);
    }
  }

  lemma NoPadding<S>(counts: multiset<int>, M: Content, held: map<S, Holder>, contents: map<int, Key>, inUse: int,
                     bs: nat, s: S)
    requires ManagerOk(counts, M, held, contents, inUse, bs) && s in held
    ensures PADDING !in held[s].blocks && NoDup(held[s].blocks)
  {
    assert Unfold(true);
    assert HolderOk(M, held[s]);
  }

  // ---------------------------------------------------------------- caching alone

  /** One sequence with one block: caching it without releasing it leaves the counter at 0 while the
      block is still in use. */
  method CacheAloneMiscounts() returns (manager: BlockManager)
    ensures fresh(manager) && manager.numBlocksInUse != |InUse(manager.Held())|
  {
    manager := new BlockManager(2, 1, true);
    var s := new Sequence([7]);
    manager.Register(s);
    ghost var h;
    var ok;
    assert InUse(manager.Held()) == {} by { assert manager.Held()[s].blocks == []; }
    ok, h := manager.AllocateBlocksFor(s, 1, 0);
    ghost var q, added := manager.CacheBlocksFor(s, 0);
    assert s.blocks[0] in s.blocks;
    assert HoldersOf(manager.Held(), s.blocks[0]) <= {s};
    SubsetSize(HoldersOf(manager.Held(), s.blocks[0]), {s});
  }

  lemma EmptyManager<S>(held: map<S, Holder>, bs: nat)
    requires bs > 0 && held == map[]
    ensures ManagerOk(multiset{PADDING}, map[], held, map[], 0, bs)
  {
    forall b
      ensures Counted(multiset{PADDING}, map[], held, b)
    {
      assert HoldersOf(held, b) == {};
    }
    assert InUse(held) == {};
  }

  lemma RegisterOk<S>(counts: multiset<int>, M: Content, held: map<S, Holder>, held': map<S, Holder>,
                      contents: map<int, Key>, inUse: int, bs: nat, s: S, h: Holder)
    requires ManagerOk(counts, M, held, contents, inUse, bs) && s !in held && held' == held[s := h]
    requires h.blocks == [] && h.key == [] && h.kv == 0
    ensures ManagerOk(counts, M, held', contents, inUse, bs)
  {
    assert Unfold(true);
    hide InUse, Accounts;
    RegisterAccounts(counts, M, held, held', s, h);
    forall b
      ensures b in InUse(held') <==> b in InUse(held)
    {
      InUseIff(held, b);
      InUseIff(held', b);
      assert HoldersOf(held', b) == HoldersOf(held, b);
    }
    TwoParts(InUse(held'), InUse(held), {});
  }

  lemma RegisterAccounts<S>(counts: multiset<int>, M: Content, held: map<S, Holder>, held': map<S, Holder>, s: S,
                            h: Holder)
    requires Accounts(counts, M, held) && s !in held && held' == held[s := h] && h.blocks == [] && h.key == []
    ensures Accounts(counts, M, held')
  {
    forall b
      ensures Counted(counts, M, held', b)
    {
      assert Counted(counts, M, held, b) && HoldersOf(held', b) == HoldersOf(held, b);
    }
    forall t | t in held' ensures HolderOk(M, held'[t]) { assert t in held ==> HolderOk(M, held[t]); }
    forall t, t', b | t in held' && t' in held' ensures SharedCached(M, held', t, t', b) {
      assert t in held && t' in held ==> SharedCached(M, held, t, t', b);
    }
  }
}
