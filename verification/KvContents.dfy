/** Which tokens the KV in a block belongs to: the soundness of prefix sharing
    (src/memory/block_manager.cpp, src/memory/prefix_cache.cpp). */
module KvContents {
  import opened Collections
  import opened RadixTree
  import opened TokenBlocks
  import opened Eviction
  import opened PrefixCaching
  import opened KvAccounting

  /** Every cached block holds the KV of exactly the prefix it is stored under. */
  ghost predicate CacheSound(M: Content, contents: map<int, Key>) {
    forall k :: k in M ==> M[k] in contents && contents[M[k]] == k
  }

  /** The blocks of `h` below its KV position hold the KV of its tokens, and its shared key is a
      prefix of its tokens. */
  ghost predicate HolderSound(h: Holder, contents: map<int, Key>, bs: nat)
    requires bs > 0
  {
    && h.kv <= |h.tokens| && BlocksIn(h.kv, bs) <= |h.blocks|
    && h.key <= Chunks(h.tokens, bs) && |h.key| <= BlocksIn(h.kv + 1, bs)
    && (forall i :: 0 <= i < |h.blocks| && i < BlocksIn(h.kv, bs) ==> Written(h, contents, bs, i))
  }

  /** Block `i` of `h` holds the KV of the first `i + 1` blocks of tokens. */
  ghost predicate Written(h: Holder, contents: map<int, Key>, bs: nat, i: int)
    requires bs > 0
  {
    0 <= i < |h.blocks| && i < |Chunks(h.tokens, bs)|
    && h.blocks[i] in contents && contents[h.blocks[i]] == Chunks(h.tokens, bs)[..i + 1]
  }

  ghost predicate Sound<S>(contents: map<int, Key>, M: Content, held: map<S, Holder>, bs: nat)
    requires bs > 0
  {
    CacheSound(M, contents) && forall s :: s in held ==> HolderSound(held[s], contents, bs)
  }

  /** A sound cache stores no block twice. */
  lemma SoundInjective(M: Content, contents: map<int, Key>)
    requires CacheSound(M, contents)
    ensures Injective(M)
  {
    forall k, k' | SameBlock(M, k, k')
      ensures k == k'
    {
    }
  }

  /** The blocks of a match hold the KV of the matched prefixes. */
  lemma MatchSound(M: Content, contents: map<int, Key>, q: Key, blocks: seq<int>, i: nat)
    requires CacheSound(M, contents) && Serves(M, q, 0, blocks) && i < |blocks|
    ensures blocks[i] in contents && contents[blocks[i]] == q[..i + 1]
  {
    assert Stores(M, q, 0 + i + 1, blocks[i]);
  }

  lemma ShareSound<S>(contents: map<int, Key>, M: Content, held: map<S, Holder>, bs: nat, s: S, h: Holder)
    requires bs > 0 && Sound(contents, M, held, bs) && s in held
    requires Serves(M, Chunks(h.tokens, bs), 0, h.blocks) && h.key == Chunks(h.tokens, bs)[..|h.blocks|]
    requires h.kv <= |h.tokens| && BlocksIn(h.kv, bs) <= |h.blocks| <= BlocksIn(h.kv + 1, bs)
    ensures Sound(contents, M, held[s := h], bs)
  {
    forall i | 0 <= i < |h.blocks| && i < BlocksIn(h.kv, bs)
      ensures Written(h, contents, bs, i)
    {
      MatchSound(M, contents, Chunks(h.tokens, bs), h.blocks, i);
    }
  }

  lemma AppendSound<S>(contents: map<int, Key>, M: Content, held: map<S, Holder>, bs: nat, s: S, more: seq<int>,
                       h: Holder)
    requires bs > 0 && Sound(contents, M, held, bs) && s in held && h == held[s].(blocks := held[s].blocks + more)
    ensures Sound(contents, M, held[s := h], bs)
  {
    forall i | 0 <= i < |h.blocks| && i < BlocksIn(h.kv, bs)
      ensures Written(h, contents, bs, i)
    {
      assert Written(held[s], contents, bs, i);
    }
  }

  lemma SubmapSound<S>(contents: map<int, Key>, M: Content, M': Content, held: map<S, Holder>, bs: nat)
    requires bs > 0 && Sound(contents, M, held, bs) && forall k :: k in M' ==> k in M && M'[k] == M[k]
    ensures Sound(contents, M', held, bs)
  {
  }

  /** Every block a release offers holds the KV of the prefix it is offered under. */
  lemma ReleaseSound<S>(contents: map<int, Key>, M: Content, held: map<S, Holder>, bs: nat, s: S, q: Key, h': Holder)
    requires bs > 0 && Sound(contents, M, held, bs) && s in held
    requires q <= Chunks(held[s].tokens, bs) && |q| <= BlocksIn(held[s].kv, bs) && |q| <= |held[s].blocks|
    requires h'.blocks == [] && h'.key == [] && h'.kv == 0
    ensures Sound(contents, AddContent(M, [], q, held[s].blocks[..|q|]), held[s := h'], bs)
  {
    var h := held[s];
    var M' := AddContent(M, [], q, h.blocks[..|q|]);
    assert q[..0] == [] && q[0..] == q;
    forall k | k in M'
      ensures M'[k] in contents && contents[M'[k]] == k
    {
      if k !in M {
        QueryKeys(q, 0, k);
        assert Written(h, contents, bs, |k| - 1);
        assert Chunks(h.tokens, bs)[..|k|] == q[..|k|] == k;
      }
    }
    DivSmall(0, bs);
  }

  /** The two prefixes of one token list that a release compares. */
  lemma StartsAgree(q: Key, key: Key, all: Key)
    requires q <= all && key <= all
    ensures SameStart(q, key)
  {
    forall j | 0 <= j <= |q| && j <= |key|
      ensures q[..j] == key[..j]
    {
      assert q[..j] == all[..j] == key[..j];
    }
  }

  // ---------------------------------------------------------------- the engine writes KV

  /** The engine keeps the first `keep` positions of the sequence's KV, may replace the tokens after
      them, and computes the KV up to its new position.  It writes to the sequence's blocks from
      position `keep` on, and to no others. */
  ghost predicate EngineStep(h: Holder, h': Holder, keep: nat, contents: map<int, Key>, contents': map<int, Key>,
                             bs: nat)
    requires bs > 0
  {
    && h'.blocks == h.blocks && h'.key == h.key
    && keep <= h.kv && keep <= h'.kv <= |h'.tokens| && BlocksIn(h'.kv, bs) <= |h.blocks|
    && keep <= |h.tokens| && h'.tokens[..keep] == h.tokens[..keep]
    && h.key <= Chunks(h'.tokens, bs) && |h.key| <= BlocksIn(keep + 1, bs)
    && (h'.kv == keep ==> contents' == contents)
    && (forall i :: BlocksIn(keep, bs) <= i < BlocksIn(h'.kv, bs) ==> Written(h', contents', bs, i))
    && BlocksIn(keep, bs) <= |h.blocks|
    && (forall b :: b !in h.blocks[BlocksIn(keep, bs)..] ==> SameAt(contents, contents', b))
  }

  ghost predicate SameAt(contents: map<int, Key>, contents': map<int, Key>, b: int) {
    (b in contents' <==> b in contents) && (b in contents ==> contents'[b] == contents[b])
  }

  /** A cached block that the engine writes to gets the KV it already holds. */
  lemma WriteToCached<S>(counts: multiset<int>, contents: map<int, Key>, contents': map<int, Key>, M: Content,
                         held: map<S, Holder>, bs: nat, s: S, h': Holder, keep: nat, k: Key)
    requires bs > 0 && Accounts(counts, M, held) && Sound(contents, M, held, bs) && s in held
    requires EngineStep(held[s], h', keep, contents, contents', bs) && k in M
    ensures M[k] in contents' && contents'[M[k]] == k
  {
    var h, b := held[s], M[k];
    if b in h.blocks[BlocksIn(keep, bs)..] && h'.kv != keep {
      assert b in h.blocks;
      HeldOnPath(counts, M, held, s, k);
      assert HolderOk(M, h);
      HeldIndex(M, h, k);
      var i := |k| - 1;
      BlocksInMono(keep + 1, h'.kv, bs);
      BlocksInMono(keep, keep + 1, bs);
      assert h.key[..i + 1] == Chunks(h'.tokens, bs)[..i + 1];
      if i < BlocksIn(keep, bs) {
        NotInTail(h.blocks, BlocksIn(keep, bs), i);
      }
      assert Written(h', contents', bs, i);
    } else {
      assert SameAt(contents, contents', b);
    }
  }

  lemma HeldIndex(M: Content, h: Holder, k: Key)
    requires HolderOk(M, h) && k in M && 0 < |k| <= |h.key| && k == h.key[..|k|]
    ensures h.blocks[|k| - 1] == M[k]
  {
    var served := h.blocks[..|h.key|];
    assert Stores(M, h.key, 0 + (|k| - 1) + 1, served[|k| - 1]);
  }

  /** The engine's writes keep every cached block and every other sequence sound. */
  lemma EngineSound<S>(counts: multiset<int>, contents: map<int, Key>, contents': map<int, Key>, M: Content,
                       held: map<S, Holder>, bs: nat, s: S, h': Holder, keep: nat)
    requires bs > 0 && Accounts(counts, M, held) && Sound(contents, M, held, bs) && s in held
    requires EngineStep(held[s], h', keep, contents, contents', bs)
    ensures Sound(contents', M, held[s := h'], bs) && Accounts(counts, M, held[s := h'])
  {
    var held' := held[s := h'];
    forall k | k in M
      ensures M[k] in contents' && contents'[M[k]] == k
    {
      WriteToCached(counts, contents, contents', M, held, bs, s, h', keep, k);
    }
    forall t | t in held'
      ensures HolderSound(held'[t], contents', bs)
    {
      if t == s {
        EngineOwn(M, held[s], h', keep, contents, contents', bs);
      } else {
        EngineOther(counts, contents, contents', M, held, bs, s, t, h', keep);
      }
    }
    forall b
      ensures HoldersOf(held', b) == HoldersOf(held, b) && Counted(counts, M, held', b)
    {
      assert Counted(counts, M, held, b);
    }
    forall t | t in held' ensures HolderOk(M, held'[t]) { assert HolderOk(M, held[t]); }
    forall t, t', b | t in held'
      && t' in held' ensures SharedCached(M, held', t, t', b) { assert SharedCached(M, held, t, t', b); }
  }

  lemma EngineOwn(M: Content, h: Holder, h': Holder, keep: nat, contents: map<int, Key>, contents': map<int, Key>,
                  bs: nat)
    requires bs > 0 && HolderOk(M, h) && HolderSound(h, contents, bs)
      && EngineStep(h, h', keep, contents, contents', bs)
    ensures HolderSound(h', contents', bs)
  {
    BlocksInMono(keep, h.kv, bs);
    BlocksInMono(keep + 1, h'.kv + 1, bs);
    forall i | 0 <= i < |h'.blocks| && i < BlocksIn(h'.kv, bs)
      ensures Written(h', contents', bs, i)
    {
      if i < BlocksIn(keep, bs) {
        assert Written(h, contents, bs, i);
        NotInTail(h.blocks, BlocksIn(keep, bs), i);
        assert SameAt(contents, contents', h.blocks[i]);
        BlocksInIs(keep, bs);
        ChunksOfPrefix(h.tokens, keep, bs);
        ChunksOfPrefix(h'.tokens, keep, bs);
        assert Chunks(h.tokens, bs)[..i + 1] == Chunks(h.tokens, bs)[..BlocksIn(keep, bs)][..i + 1];
        assert Chunks(h'.tokens, bs)[..i + 1] == Chunks(h'.tokens, bs)[..BlocksIn(keep, bs)][..i + 1];
      }
    }
  }

  lemma NotInTail<T>(s: seq<T>, n: nat, i: nat)
    requires NoDup(s) && i < n <= |s|
    ensures s[i] !in s[n..]
  {
    forall j | 0 <= j < |s[n..]|
      ensures s[n..][j] != s[i]
    {
      assert Differ(s, i, n + j);
    }
  }

  lemma EngineOther<S>(counts: multiset<int>, contents: map<int, Key>, contents': map<int, Key>, M: Content,
                       held: map<S, Holder>, bs: nat, s: S, t: S, h': Holder, keep: nat)
    requires bs > 0 && Accounts(counts, M, held) && Sound(contents, M, held, bs) && s in held && t in held && s != t
    requires EngineStep(held[s], h', keep, contents, contents', bs)
    requires forall k :: k in M ==> M[k] in contents' && contents'[M[k]] == k
    ensures HolderSound(held[t], contents', bs)
  {
    var h := held[t];
    forall i | 0 <= i < |h.blocks| && i < BlocksIn(h.kv, bs)
      ensures Written(h, contents', bs, i)
    {
      assert Written(h, contents, bs, i);
      var b := h.blocks[i];
      if b in held[s].blocks[BlocksIn(keep, bs)..] {
        assert b in held[s].blocks && b in h.blocks;
        assert SharedCached(M, held, s, t, b);
        var k :| k in M && M[k] == b;
      } else {
        assert SameAt(contents, contents', b);
      }
    }
  }
}
