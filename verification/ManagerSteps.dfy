/** The calls of the block manager and the work of the engines as steps between states
    (src/memory/block_manager.cpp, src/request/sequence.cpp). */
module ManagerSteps {
  import opened Collections
  import opened RadixTree
  import opened TokenBlocks
  import opened Eviction
  import opened PrefixCaching
  import opened KvAccounting
  import opened KvContents

  /** What the sequences hold, how many tokens the SSM has in its KV cache, the positions behind which
      no engine goes back, the cached prefixes, the counters of the block handles, the number of free
      ids, the number of blocks in use, and the prefix whose KV each block holds. */
  datatype State<!S> = State(held: map<S, Holder>, ssm: map<S, nat>, floor: map<S, nat>, view: Content,
                             counts: multiset<int>, free: int, inUse: int, contents: map<int, Key>)

  datatype Options = Options(bs: nat, total: nat, enable: bool)

  /** A call of the manager, or the work of an engine on a sequence between two calls: the new tokens,
      the number of old positions whose KV is kept, and the new position of each engine. */
  datatype Event<S> =
    | Share(who: S, later: nat)
    | Allocate(who: S, numTokens: nat, later: nat)
    | Compute(who: S, tokens: seq<int>, keep: nat, kvLlm: nat, kvSsm: nat)
    | Release(who: S, later: nat)

  // ---------------------------------------------------------------- sharing

  /** How many of the keys of `q`, from the first `n` on, are stored without a gap. */
  ghost function CachedDepth(M: Content, q: Key, n: nat): (r: nat)
    requires n <= |q|
    ensures n <= r <= |q|
    decreases |q| - n
  {
    if n < |q| && q[..n + 1] in M then CachedDepth(M, q, n + 1) else n
  }

  lemma {:induction false} DepthStored(M: Content, q: Key, n: nat, j: nat)
    requires n <= |q| && n < j <= CachedDepth(M, q, n)
    ensures q[..j] in M
    decreases |q| - n
  {
    if j > n + 1 {
      DepthStored(M, q, n + 1, j);
    }
  }

  ghost function LongestMatch(M: Content, q: Key): seq<int> {
    seq(CachedDepth(M, q, 0), i requires 0 <= i < CachedDepth(M, q, 0) => DepthStored(M, q, 0, i + 1); M[q[..i + 1]])
  }

  lemma {:induction false} DepthIs(M: Content, q: Key, blocks: seq<int>, n: nat)
    requires IsLongestMatch(M, q, blocks) && n <= |blocks|
    ensures CachedDepth(M, q, n) == |blocks|
    decreases |blocks| - n
  {
    if n < |blocks| {
      assert Stores(M, q, 0 + n + 1, blocks[n]);
      DepthIs(M, q, blocks, n + 1);
    }
  }

  /** There is only one longest match. */
  lemma LongestMatchIs(M: Content, q: Key, blocks: seq<int>)
    requires IsLongestMatch(M, q, blocks)
    ensures blocks == LongestMatch(M, q)
  {
    DepthIs(M, q, blocks, 0);
    forall i | 0 <= i < |blocks|
      ensures blocks[i] == LongestMatch(M, q)[i]
    {
      assert Stores(M, q, 0 + i + 1, blocks[i]);
    }
  }

  lemma WholeBlocksFit(tokens: seq<int>, bs: nat, n: nat)
    requires bs > 0 && 0 < n <= |Chunks(tokens, bs)|
    ensures bs <= n * bs <= |tokens|
  {
    hide Chunks;
    ChunksAre(tokens, bs);
    MulAtLeast(n, bs);
    Products(n, |tokens| / bs, bs);
  }

  lemma Products(m: nat, n: nat, bs: nat)
    requires m <= n
    ensures m * bs <= n * bs
  {
    assert n * bs == m * bs + (n - m) * bs;
  }

  /** A sequence that is given the cached blocks of its longest cached prefix starts after them, or one
      token earlier when they cover all its tokens. */
  ghost function SharedHolder(h: Holder, M: Content, bs: nat): Holder
    requires bs > 0
  {
    var q := Chunks(h.tokens, bs);
    var blocks := LongestMatch(M, q);
    var n := |blocks|;
    if n == 0 then h
    else
      WholeBlocksFit(h.tokens, bs, n);
      Holder(blocks, q[..n], h.tokens, if n * bs == |h.tokens| then n * bs - 1 else n * bs)
  }

  lemma SharedIs(h: Holder, h': Holder, M: Content, bs: nat)
    requires bs > 0 && h.blocks == [] && h.key == [] && h'.tokens == h.tokens
    requires IsLongestMatch(M, Chunks(h.tokens, bs), h'.blocks) && h'.key == Chunks(h.tokens, bs)[..|h'.blocks|]
    requires h'.blocks == [] ==> h'.kv == h.kv
    requires h'.blocks != [] ==> h'.kv < |h.tokens|
    requires h'.blocks != [] ==> h'.kv == |h'.blocks| * bs || h'.kv + 1 == |h'.blocks| * bs == |h.tokens|
    ensures h' == SharedHolder(h, M, bs)
  {
    LongestMatchIs(M, Chunks(h.tokens, bs), h'.blocks);
  }

  /** A sequence without blocks takes those of its longest cached prefix. */
  ghost function Shared<S>(a: State<S>, s: S, bs: nat): State<S>
    requires bs > 0 && s in a.held && s in a.ssm
  {
    if a.held[s].blocks != [] then a
    else
      var h := SharedHolder(a.held[s], a.view, bs);
      a.(held := a.held[s := h], ssm := a.ssm[s := if h.blocks == [] then a.ssm[s] else h.kv],
         floor := a.floor[s := h.kv],
         counts := a.counts + multiset(h.blocks), inUse := |InUse(a.held[s := h])|)
  }

  // ---------------------------------------------------------------- allocating

  function BlocksNeeded(numTokens: nat, bs: nat): int
    requires bs > 0
  {
    (numTokens + bs - 1) / bs
  }

  /** The blocks needed are enough, and the fewest that are. */
  lemma NeededCovers(numTokens: nat, bs: nat, n: nat)
    requires bs > 0
    ensures BlocksNeeded(numTokens, bs) >= 0
    ensures numTokens <= n * bs <==> BlocksNeeded(numTokens, bs) <= n
    ensures numTokens <= BlocksNeeded(numTokens, bs) * bs
  {
    var q, m := (numTokens + bs - 1) / bs, (numTokens + bs - 1) % bs;
    assert numTokens + bs - 1 == q * bs + m;
    assert (q - n) * bs == q * bs - n * bs && (n - q) * bs == n * bs - q * bs && (-q) * bs == -(q * bs);
    if q > n {
      MulAtLeast(q - n, bs);
    } else if q < n {
      MulAtLeast(n - q, bs);
    }
    if q < 0 {
      MulAtLeast(-q, bs);
    }
  }

  /** How many cached blocks are evicted to make room for `missing` more. */
  ghost function ToEvict(missing: int, free: int, unshared: int, enable: bool): int {
    if enable && missing > free then Min(missing - free, unshared) else 0
  }

  /** The cache loses as many blocks as are lacking, none of which a sequence holds and each of which frees
      an id; then, if `ok`, `more` free ids are handed out. */
  ghost predicate Granted(M: Content, counts: multiset<int>, free: int, M': Content, counts': multiset<int>, free': int,
                          missing: int, more: seq<int>, ok: bool, enable: bool) {
    var evicted := ToEvict(missing, free, |Unshared(M, counts)|, enable);
    && |more| == (if ok then Max(missing, 0) else 0) && NoDup(more)
    && (forall b :: b in more ==> counts'[b] == 1)
    && M.Keys - M'.Keys <= Unshared(M, counts) && free' + |more| == free + evicted
    && Dropping(M, counts, free, M', counts' - multiset(more), free' + |more|, evicted)
  }

  lemma GrantedMore(M: Content, counts: multiset<int>, free: int, M': Content, counts': multiset<int>, free': int,
                    missing: int, more: seq<int>, ok: bool, enable: bool, counts'': multiset<int>, free'': int)
    requires Dropping(M, counts, free, M', counts', free', ToEvict(missing, free, |Unshared(M, counts)|, enable))
    requires |more| == (if ok then Max(missing, 0) else 0) && NoDup(more) && forall b :: b in more ==> counts'[b] == 0
    requires counts'' == counts' + multiset(more) && free'' == free' - |more| && PathClosed(M, counts)
    ensures Granted(M, counts, free, M', counts'', free'', missing, more, ok, enable)
  {
    hide PathClosed, Unshared, ToEvict;
    assert Unfold(true);
    forall b | b in more ensures counts''[b] == 1 { NoDupCount(more, b); }
    assert counts'' - multiset(more) == counts';
  }

  /** From `m`, after sharing, to `b`: the sequence is given its missing blocks exactly when they fit
      beside the padding block and the distinct blocks in use. */
  ghost predicate Allocates<S>(m: State<S>, b: State<S>, s: S, numTokens: nat, ok: bool, o: Options)
    requires o.bs > 0 && s in m.held
  {
    && s in b.held && m.held[s].blocks <= b.held[s].blocks
    && var missing, more := BlocksNeeded(numTokens, o.bs) - |m.held[s].blocks|, b.held[s].blocks[|m.held[s].blocks|..];
    && (ok <==> missing <= o.total - 1 - |InUse(m.held)|)
    && Granted(m.view, m.counts, m.free, b.view, b.counts, b.free, missing, more, ok, o.enable)
    && b == m.(held := m.held[s := m.held[s].(blocks := b.held[s].blocks)], view := b.view, counts := b.counts,
               free := b.free, inUse := m.inUse + |more|)
  }

  /** Sharing and allocating, put together. */
  lemma AllocatesFrom<S>(a: State<S>, b: State<S>, s: S, h: Holder, numTokens: nat, ok: bool, o: Options)
    requires o.bs > 0 && s in a.held && s in a.ssm && s in b.held && h.blocks <= b.held[s].blocks
      && a.inUse == |InUse(a.held)|
    requires h == if a.held[s].blocks == [] then SharedHolder(a.held[s], a.view, o.bs) else a.held[s]
    requires ok <==> BlocksNeeded(numTokens, o.bs) - |h.blocks| <= o.total - 1 - |InUse(a.held[s := h])|
    requires Granted(a.view, a.counts + multiset(if a.held[s].blocks == [] then h.blocks else []), a.free, b.view,
                     b.counts, b.free,
                     BlocksNeeded(numTokens, o.bs) - |h.blocks|, b.held[s].blocks[|h.blocks|..], ok, o.enable)
    requires b.held == a.held[s := h.(blocks := b.held[s].blocks)]
    requires b.ssm == a.ssm[s := if a.held[s].blocks == [] && h.blocks != [] then h.kv else a.ssm[s]]
    requires b.floor == if a.held[s].blocks == [] then a.floor[s := h.kv] else a.floor
    requires b.inUse == |InUse(a.held[s := h])| + |b.held[s].blocks| - |h.blocks| && b.contents == a.contents
    ensures s in Shared(a, s, o.bs).held && Allocates(Shared(a, s, o.bs), b, s, numTokens, ok, o)
  {
    hide Granted, SharedHolder, InUse, BlocksNeeded;
    var m := Shared(a, s, o.bs);
    if a.held[s].blocks != [] {
      assert a.held[s := h] == a.held && a.ssm[s := a.ssm[s]] == a.ssm;
      assert a.counts + multiset([]) == a.counts;
    }
    assert m.held == a.held[s := h];
    assert m.held[s := m.held[s].(blocks := b.held[s].blocks)] == b.held;
  }

  // ---------------------------------------------------------------- releasing

  /** How many tokens are in the KV cache of both engines; an SSM that lags by more than one is not in
      use. */
  function KvSize(kvLlm: nat, kvSsm: nat): nat {
    if kvLlm - kvSsm <= 1 then kvSsm else kvLlm
  }

  /** The prefix of its tokens whose blocks a sequence offers to the cache. */
  ghost function OfferedKey(h: Holder, ssm: nat, bs: nat, enable: bool): Key
    requires bs > 0 && ssm <= h.kv <= |h.tokens|
  {
    var q := Chunks(h.tokens[..KvSize(h.kv, ssm)], bs);
    if enable then q[..Min(|q|, |h.blocks|)] else []
  }

  /** `k` is a prefix of whole blocks whose KV the LLM has, and the SSM as well unless it lags by more than
      one token and is not in use. */
  ghost predicate InKvOfBoth(k: Key, h: Holder, ssm: nat, bs: nat)
    requires bs > 0
  {
    && 0 < |k| <= |h.blocks| && k <= Chunks(h.tokens, bs)
    && |k| * bs <= h.kv && (h.kv <= ssm + 1 ==> |k| * bs <= ssm)
  }

  /** Besides what was cached, exactly the prefixes whose KV is complete are cached afterwards, each new one
      with the sequence's own block. */
  ghost predicate CachesExactly(M: Content, M': Content, h: Holder, ssm: nat, bs: nat, enable: bool)
    requires bs > 0
  {
    && (forall k :: k in M' <==> k in M || (enable && InKvOfBoth(k, h, ssm, bs)))
    && (forall k :: k in M ==> k in M' && M'[k] == M[k])
    && (forall k :: k in M' && k !in M ==> 0 < |k| <= |h.blocks| && M'[k] == h.blocks[|k| - 1])
  }

  lemma FitsIn(n: nat, size: nat, bs: nat)
    requires bs > 0
    ensures n <= size / bs <==> n * bs <= size
  {
    var q, m := size / bs, size % bs;
    assert size == q * bs + m;
    if n <= q {
      Products(n, q, bs);
    } else {
      Products(q + 1, n, bs);
      assert (q + 1) * bs == q * bs + bs;
    }
  }

  lemma OfferedKeyIs(h: Holder, ssm: nat, bs: nat, k: Key)
    requires bs > 0 && ssm <= h.kv <= |h.tokens|
    ensures var q := OfferedKey(h, ssm, bs, true);
      |q| <= |h.blocks| && (0 < |k| <= |q| && k == q[..|k|] <==> InKvOfBoth(k, h, ssm, bs))
  {
    var size, all := KvSize(h.kv, ssm), Chunks(h.tokens, bs);
    ChunksOfPrefix(h.tokens, size, bs);
    ChunksAre(h.tokens[..size], bs);
    FitsIn(|k|, size, bs);
    var q := OfferedKey(h, ssm, bs, true);
    assert q == all[..|q|];
    if 0 < |k| <= |q| {
      assert q[..|k|] == all[..|k|];
    }
  }

  lemma OfferedCaches(M: Content, h: Holder, ssm: nat, bs: nat, enable: bool)
    requires bs > 0 && ssm <= h.kv <= |h.tokens|
    ensures var q := OfferedKey(h, ssm, bs, enable);
      |q| <= |h.blocks| && CachesExactly(M, AddContent(M, [], q, h.blocks[..|q|]), h, ssm, bs, enable)
  {
    hide OfferedKey, InKvOfBoth;
    OfferedSize(h, ssm, bs, enable);
    var q := OfferedKey(h, ssm, bs, enable);
    var M' := AddContent(M, [], q, h.blocks[..|q|]);
    assert q[..0] == [] && q[0..] == q;
    forall k
      ensures k in NewKeys([], q) <==> 0 < |k| <= |q| && k == q[..|k|]
      ensures enable ==> (k in NewKeys([], q) <==> InKvOfBoth(k, h, ssm, bs))
    {
      QueryKeys(q, 0, k);
      if enable {
        OfferedKeyIs(h, ssm, bs, k);
      }
    }
  }

  lemma OfferedSize(h: Holder, ssm: nat, bs: nat, enable: bool)
    requires bs > 0 && ssm <= h.kv <= |h.tokens|
    ensures |OfferedKey(h, ssm, bs, enable)| <= |h.blocks| && (!enable ==> OfferedKey(h, ssm, bs, enable) == [])
  {
  }

  /** The cache takes the blocks of the offered prefixes that it does not have, and the sequence drops
      all its handles. */
  ghost predicate Releases<S>(a: State<S>, b: State<S>, s: S, o: Options)
    requires o.bs > 0 && s in a.held && s in a.ssm && a.ssm[s] <= a.held[s].kv <= |a.held[s].tokens|
  {
    var h := a.held[s];
    var q := OfferedKey(h, a.ssm[s], o.bs, o.enable);
    && CachesExactly(a.view, b.view, h, a.ssm[s], o.bs, o.enable)
    && b.held == a.held[s := Holder([], [], h.tokens, 0)]
    && (exists added :: Inserted(a.view, h, q, added) && b.counts == a.counts + multiset(added) - multiset(h.blocks))
    && b == a.(held := b.held, ssm := a.ssm[s := 0], floor := a.floor[s := 0], view := b.view, counts := b.counts,
               free := b.free, inUse := |InUse(b.held)|)
  }

  // ---------------------------------------------------------------- computing

  /** The number of leading tokens that an engine may not replace when it keeps `keep` positions. */
  function Fixed(size: nat, floor: nat, keep: nat): nat {
    if keep > floor then keep else Min(floor + 1, size)
  }

  /** An engine keeps the KV of some positions, none of them behind the floor, and computes on from
      there within the blocks of the sequence. */
  predicate Legal(tokens: seq<int>, kv: nat, numBlocks: nat, floor: nat, tokens': seq<int>, keep: nat, kvLlm: nat,
                  kvSsm: nat, bs: nat) {
    var n := Fixed(|tokens|, floor, keep);
    && floor <= keep <= kv <= |tokens| && keep <= kvLlm <= |tokens'| && kvSsm <= kvLlm
    && (kvLlm == keep || kvLlm <= numBlocks * bs)
    && n <= |tokens'| && tokens'[..n] == tokens[..n]
  }

  /** Appending tokens and committing any number that fits into the blocks is legal (`commit_kv_cache`). */
  lemma CommitLegal(tokens: seq<int>, kv: nat, numBlocks: nat, floor: nat, more: seq<int>, size: nat, kvSsm: nat,
                    bs: nat)
    requires floor <= kv <= |tokens| && kv + size <= |tokens| + |more| && kv + size <= numBlocks * bs
    requires kvSsm <= kv + size
    ensures Legal(tokens, kv, numBlocks, floor, tokens + more, kv, kv + size, kvSsm, bs)
  {
    var n := Fixed(|tokens|, floor, kv);
    assert (tokens + more)[..n] == tokens[..n];
  }

  /** Accepting some of the tokens from `start` on, the last one perhaps replaced, and cutting the positions
      back below the last token is legal (`validate_tokens`). */
  lemma RewindLegal(tokens: seq<int>, kv: nat, kvSsm: nat, numBlocks: nat, floor: nat, start: nat,
                    accepted: seq<int>, bs: nat)
    requires kvSsm <= kv <= |tokens| && floor <= kv && floor < start && 0 < |accepted| && start + |accepted| <= |tokens|
    requires accepted[..|accepted| - 1] == tokens[start..start + |accepted| - 1]
    ensures var tokens' := tokens[..start] + accepted;
      Legal(tokens, kv, numBlocks, floor, tokens', Min(kv, |tokens'| - 1), Min(kv, |tokens'| - 1),
            Min(kvSsm, |tokens'| - 1), bs)
  {
    var tokens' := tokens[..start] + accepted;
    var m, kv' := |tokens'| - 1, Min(kv, |tokens'| - 1);
    assert tokens'[..m] == tokens[..start] + accepted[..|accepted| - 1] == tokens[..m];
    var n := Fixed(|tokens|, floor, kv');
    assert tokens'[..n] == tokens'[..m][..n] && tokens[..n] == tokens[..m][..n];
  }

  /** The KV of block `i` of `blocks` is written for each `i` from `lo` below `hi`. */
  ghost function WriteKv(contents: map<int, Key>, blocks: seq<int>, all: Key, lo: nat, hi: nat): map<int, Key>
    requires hi <= |blocks| && hi <= |all|
    decreases hi
  {
    if hi <= lo then contents else WriteKv(contents, blocks, all, lo, hi - 1)[blocks[hi - 1] := all[..hi]]
  }

  lemma {:induction false} WriteKvAt(contents: map<int, Key>, blocks: seq<int>, all: Key, lo: nat, hi: nat, b: int)
    requires hi <= |blocks| && hi <= |all| && NoDup(blocks)
    ensures forall i :: lo <= i < hi && blocks[i] == b ==>
              b in WriteKv(contents, blocks, all, lo, hi) && WriteKv(contents, blocks, all, lo, hi)[b] == all[..i + 1]
    ensures (forall i :: lo <= i < hi ==> blocks[i] != b) ==>
      SameAt(contents, WriteKv(contents, blocks, all, lo, hi), b)
  {
    if hi > lo {
      WriteKvAt(contents, blocks, all, lo, hi - 1, b);
      forall i | lo <= i < hi - 1 ensures blocks[i] != blocks[hi - 1] { assert Differ(blocks, i, hi - 1); }
    }
  }

  /** What the blocks hold after an engine computed from `keep` to the position of `h'`: the whole
      blocks of `h'` from there on, and nothing definite in its later blocks. */
  ghost function Computed(h': Holder, keep: nat, contents: map<int, Key>, bs: nat): map<int, Key>
    requires bs > 0
  {
    var lo, hi, all := BlocksIn(keep, bs), BlocksIn(h'.kv, bs), Chunks(h'.tokens, bs);
    if h'.kv != keep && lo <= hi <= |h'.blocks| && hi <= |all|
      then WriteKv(contents - Elements(h'.blocks[lo..]), h'.blocks, all, lo, hi) else contents
  }

  /** One step of an engine on a sequence; one that is not legal does not happen. */
  ghost predicate Computes<S>(a: State<S>, b: State<S>, s: S, tokens: seq<int>, keep: nat, kvLlm: nat, kvSsm: nat,
                              ok: bool, bs: nat)
    requires bs > 0 && s in a.held && s in a.floor
  {
    var h := a.held[s];
    var h' := h.(tokens := tokens, kv := kvLlm);
    && (ok <==> Legal(h.tokens, h.kv, |h.blocks|, a.floor[s], tokens, keep, kvLlm, kvSsm, bs))
    && b == if ok
      then a.(held := a.held[s := h'], ssm := a.ssm[s := kvSsm], contents := Computed(h', keep, a.contents, bs)) else a
  }

  lemma ComputesFrom<S>(a: State<S>, b: State<S>, s: S, tokens: seq<int>, keep: nat, kvLlm: nat, kvSsm: nat, ok: bool,
                        bs: nat)
    requires bs > 0 && s in a.held && s in a.floor && s in a.ssm && s in b.held && s in b.ssm
    requires ok
      <==> Legal(a.held[s].tokens, a.held[s].kv, |a.held[s].blocks|, a.floor[s], tokens, keep, kvLlm, kvSsm, bs)
    requires ok ==> b.held[s] == a.held[s].(tokens := tokens, kv := kvLlm) && b.ssm[s] == kvSsm
    requires ok ==> b.contents == Computed(b.held[s], keep, a.contents, bs)
    requires !ok ==> b.held[s] == a.held[s] && b.ssm[s] == a.ssm[s] && b.contents == a.contents
    requires b == a.(held := a.held[s := b.held[s]], ssm := a.ssm[s := b.ssm[s]], contents := b.contents)
    ensures Computes(a, b, s, tokens, keep, kvLlm, kvSsm, ok, bs)
    ensures FloorsOk(a.held, a.floor, bs) ==> FloorsOk(b.held, b.floor, bs)
  {
    hide Legal, Computed;
    if !ok {
      assert b.held == a.held && b.ssm == a.ssm;
    }
  }

  /** A legal step writes what an engine may write. */
  lemma LegalStep(M: Content, h: Holder, h': Holder, floor: nat, keep: nat, kvSsm: nat, contents: map<int, Key>,
                  bs: nat)
    requires bs > 0 && HolderOk(M, h) && HolderSound(h, contents, bs) && |h.key| <= BlocksIn(floor + 1, bs)
    requires h' == h.(tokens := h'.tokens, kv := h'.kv)
    requires Legal(h.tokens, h.kv, |h.blocks|, floor, h'.tokens, keep, h'.kv, kvSsm, bs)
    ensures EngineStep(h, h', keep, contents, Computed(h', keep, contents, bs), bs)
  {
    var n := Fixed(|h.tokens|, floor, keep);
    KeyStays(h, h', floor, n, bs);
    assert h'.tokens[..keep] == h'.tokens[..n][..keep] && h.tokens[..keep] == h.tokens[..n][..keep];
    RoomFor(h, h', keep, bs);
    BlocksInMono(floor + 1, keep + 1, bs);
    var lo, hi, all := BlocksIn(keep, bs), BlocksIn(h'.kv, bs), Chunks(h'.tokens, bs);
    var rest, contents' := contents - Elements(h.blocks[lo..]), Computed(h', keep, contents, bs);
    forall i | lo <= i < hi
      ensures Written(h', contents', bs, i)
    {
      WriteKvAt(rest, h.blocks, all, lo, hi, h.blocks[i]);
    }
    forall b | b !in h.blocks[lo..]
      ensures SameAt(contents, contents', b)
    {
      WriteKvAt(rest, h.blocks, all, lo, hi, b);
      forall i | lo <= i < hi ensures h.blocks[i] != b { InTail(h.blocks, lo, i); }
    }
  }

  /** The shared key lies within the tokens that are not replaced. */
  lemma KeyStays(h: Holder, h': Holder, floor: nat, n: nat, bs: nat)
    requires bs > 0 && h.key <= Chunks(h.tokens, bs) && |h.key| <= BlocksIn(floor + 1, bs)
    requires Min(floor + 1, |h.tokens|) <= n <= |h.tokens| && n <= |h'.tokens| && h'.tokens[..n] == h.tokens[..n]
    ensures h.key <= Chunks(h'.tokens, bs)
  {
    ChunksOfPrefix(h.tokens, n, bs);
    ChunksOfPrefix(h'.tokens, n, bs);
    ChunksAre(h.tokens, bs);
    BlocksInIs(n, bs);
    BlocksInIs(|h.tokens|, bs);
    if floor + 1 <= |h.tokens| {
      BlocksInMono(floor + 1, n, bs);
    }
    assert h.key == Chunks(h.tokens, bs)[..n / bs][..|h.key|];
    assert h.key == Chunks(h'.tokens, bs)[..n / bs][..|h.key|];
  }

  lemma RoomFor(h: Holder, h': Holder, keep: nat, bs: nat)
    requires bs > 0 && BlocksIn(h.kv, bs) <= |h.blocks| && keep <= h.kv && keep <= h'.kv <= |h'.tokens|
    requires h'.kv == keep || h'.kv <= |h.blocks| * bs
    ensures BlocksIn(keep, bs) <= BlocksIn(h'.kv, bs) <= |h.blocks| && BlocksIn(h'.kv, bs) <= |Chunks(h'.tokens, bs)|
  {
    BlocksInMono(keep, h'.kv, bs);
    BlocksInMono(keep, h.kv, bs);
    BlocksInExact(|h.blocks|, bs);
    if h'.kv != keep {
      BlocksInMono(h'.kv, |h.blocks| * bs, bs);
    }
    ChunksAre(h'.tokens, bs);
    BlocksInIs(|h'.tokens|, bs);
    BlocksInMono(h'.kv, |h'.tokens|, bs);
  }

  // ---------------------------------------------------------------- steps and runs

  /** The answer of the event and the state it leads to. */
  ghost predicate Step<S>(e: Event<S>, a: State<S>, b: State<S>, ok: bool, o: Options) {
    && o.bs > 0 && e.who in a.held && e.who in a.ssm && e.who in a.floor
    && a.ssm[e.who] <= a.held[e.who].kv <= |a.held[e.who].tokens|
    && match e
       case Share(s, _) => ok && b == Shared(a, s, o.bs)
       case Allocate(s, numTokens, _) =>
         s in Shared(a, s, o.bs).held && Allocates(Shared(a, s, o.bs), b, s, numTokens, ok, o)
       case Compute(s, tokens, keep, kvLlm, kvSsm) => Computes(a, b, s, tokens, keep, kvLlm, kvSsm, ok, o.bs)
       case Release(s, _) => ok && Releases(a, b, s, o)
  }

  lemma StepIs<S>(e: Event<S>, a: State<S>, b: State<S>, ok: bool, o: Options)
    requires o.bs > 0 && e.who in a.held && e.who in a.ssm && e.who in a.floor
    requires a.ssm[e.who] <= a.held[e.who].kv <= |a.held[e.who].tokens|
    requires e.Share? ==> ok && b == Shared(a, e.who, o.bs)
    requires e.Allocate? ==>
      e.who in Shared(a, e.who, o.bs).held && Allocates(Shared(a, e.who, o.bs), b, e.who, e.numTokens, ok, o)
    requires e.Compute? ==> Computes(a, b, e.who, e.tokens, e.keep, e.kvLlm, e.kvSsm, ok, o.bs)
    requires e.Release? ==> ok && Releases(a, b, e.who, o)
    ensures Step(e, a, b, ok, o)
  {
    hide Shared, Allocates, Computes, Releases;
  }

  /** No sequence has shared blocks beyond the position behind which its engines do not go back. */
  ghost predicate FloorsOk<S>(held: map<S, Holder>, floor: map<S, nat>, bs: nat)
    requires bs > 0
  {
    forall s :: s in held ==> s in floor && |held[s].key| <= BlocksIn(floor[s] + 1, bs)
  }

  lemma FloorUpdate<S>(held: map<S, Holder>, floor: map<S, nat>, bs: nat, s: S, h: Holder, n: nat)
    requires bs > 0 && FloorsOk(held, floor, bs) && |h.key| <= BlocksIn(n + 1, bs)
    ensures FloorsOk(held[s := h], floor[s := n], bs)
  {
  }
}
