/** Who holds which block (src/memory/block_manager.cpp).

    A sequence holds a list of blocks.  The first `|key|` of them came from the prefix cache, as the
    blocks of the prefixes of `key`; the others are its own.  `contents` records which token prefix
    the KV in a block belongs to. */
module KvAccounting {
  import opened Collections
  import opened RadixTree
  import opened TokenBlocks
  import opened Eviction
  import opened PrefixCaching

  datatype Holder = Holder(blocks: seq<int>, key: Key, tokens: seq<int>, kv: nat)

  const PADDING := 0

  ghost function HoldersOf<S>(held: map<S, Holder>, b: int): set<S> {
    set s | s in held && b in held[s].blocks
  }

  /** The distinct blocks that some sequence holds. */
  ghost function InUse<S>(held: map<S, Holder>): set<int> {
    set s, b | s in held && b in held[s].blocks :: b
  }

  /** The counter of a block is the number of its handles: the padding handle, the cache's, and one
      for each sequence that holds it. */
  ghost predicate Counted<S>(counts: multiset<int>, M: Content, held: map<S, Holder>, b: int) {
    counts[b] == (if b == PADDING then 1 else 0) + (if Holds(M, b) then 1 else 0) + |HoldersOf(held, b)|
  }

  ghost predicate HolderOk(M: Content, h: Holder) {
    && NoDup(h.blocks) && PADDING !in h.blocks
    && |h.key| <= |h.blocks| && Serves(M, h.key, 0, h.blocks[..|h.key|])
    && (forall b :: b in h.blocks[|h.key|..] ==> !Holds(M, b))
  }

  /** Two sequences share only cached blocks. */
  ghost predicate SharedCached<S>(M: Content, held: map<S, Holder>, s: S, s': S, b: int)
    requires s in held && s' in held
  {
    s != s' && b in held[s].blocks && b in held[s'].blocks ==> Holds(M, b)
  }

  ghost predicate Accounts<S>(counts: multiset<int>, M: Content, held: map<S, Holder>) {
    && (forall b :: Counted(counts, M, held, b))
    && Injective(M) && !Holds(M, PADDING)
    && (forall s :: s in held ==> HolderOk(M, held[s]))
    && (forall s, s', b {:trigger SharedCached(M, held, s, s', b)} :: s in held && s' in held ==>
        SharedCached(M, held, s, s', b))
  }

  // ---------------------------------------------------------------- the path closure

  lemma SomeHolder<S>(held: map<S, Holder>, b: int) returns (s: S)
    requires |HoldersOf(held, b)| > 0
    ensures s in held && b in held[s].blocks
  {
    s := AnyOf(HoldersOf(held, b));
  }

  lemma HeldMeansHolder<S>(held: map<S, Holder>, s: S, b: int)
    requires s in held && b in held[s].blocks
    ensures |HoldersOf(held, b)| > 0 && b in InUse(held)
  {
    assert s in HoldersOf(held, b);
  }

  lemma InTail<T>(s: seq<T>, n: nat, i: nat)
    requires n <= i < |s|
    ensures s[i] in s[n..]
  {
    assert s[n..][i - n] == s[i];
  }

  /** A sequence that holds a cached block holds it at its place on the cached path. */
  lemma HeldOnPath<S>(counts: multiset<int>, M: Content, held: map<S, Holder>, s: S, k: Key)
    requires Accounts(counts, M, held) && s in held && k in M && M[k] in held[s].blocks
    ensures 0 < |k| <= |held[s].key| && k == held[s].key[..|k|]
  {
    var h := held[s];
    assert HolderOk(M, h);
    var i :| 0 <= i < |h.blocks| && h.blocks[i] == M[k];
    assert Holds(M, M[k]);
    if i >= |h.key| {
      InTail(h.blocks, |h.key|, i);
    }
    assert h.blocks[..|h.key|][i] == M[k];
    assert Stores(M, h.key, 0 + i + 1, h.blocks[..|h.key|][i]);
    assert SameBlock(M, k, h.key[..i + 1]);
  }

  /** The closure that eviction needs: whoever holds a cached block holds every earlier one. */
  lemma AccountsPathClosed<S>(counts: multiset<int>, M: Content, held: map<S, Holder>)
    requires Accounts(counts, M, held)
    ensures PathClosed(M, counts)
  {
    forall k, j | k in M && 0 < j <= |k| && k[..j] in M && counts[M[k]] > 1
      ensures counts[M[k[..j]]] > 1
    {
      assert Counted(counts, M, held, M[k]);
      assert Holds(M, M[k]);
      var s := SomeHolder(held, M[k]);
      HeldOnPath(counts, M, held, s, k);
      var h := held[s];
      var b := h.blocks[..|h.key|][j - 1];
      assert Stores(M, h.key, 0 + (j - 1) + 1, b);
      assert h.key[..j] == k[..j];
      assert b in h.blocks;
      HeldMeansHolder(held, s, b);
      assert Counted(counts, M, held, b);
      assert Holds(M, b);
    }
  }

  // ---------------------------------------------------------------- free, cached and held blocks add up

  /** An injective map has as many values as keys. */
  lemma {:induction false} ImageSize(M: Content, keys: set<Key>)
    requires Injective(M) && keys <= M.Keys
    ensures |set k | k in keys :: M[k]| == |keys|
    decreases |keys|
  {
    var image := set k | k in keys :: M[k];
    if keys == {} {
      assert image == {};
    } else {
      var k := AnyOf(keys);
      var rest := keys - {k};
      ImageSize(M, rest);
      var image' := set k | k in rest :: M[k];
      assert M[k] !in image' by {
        if M[k] in image' {
          var k' :| k' in rest && M[k'] == M[k];
          assert SameBlock(M, k, k');
        }
      }
      assert image == image' + {M[k]};
    }
  }

  /** Every id is the padding block, held by a sequence, only cached, or free. */
  lemma LiveParts<S>(counts: multiset<int>, M: Content, held: map<S, Holder>, live: set<int>)
    requires Accounts(counts, M, held) && live == set b | b in counts
    ensures |live| == 1 + |InUse(held)| + |Unshared(M, counts)|
  {
    var cachedOnly := set k | k in Unshared(M, counts) :: M[k];
    ImageSize(M, Unshared(M, counts));
    var used := InUse(held);
    forall b
      ensures b in live <==> b == PADDING || b in used || b in cachedOnly
      ensures b in used ==> b != PADDING && b !in cachedOnly
      ensures PADDING !in cachedOnly
    {
      LivePart(counts, M, held, b);
    }
    ThreeParts(live, PADDING, used, cachedOnly);
  }

  lemma ThreeParts<T>(live: set<T>, p: T, a: set<T>, b: set<T>)
    requires forall x :: x in live <==> x == p || x in a || x in b
    requires forall x :: x in a ==> x != p && x !in b
    requires p !in b
    ensures |live| == 1 + |a| + |b|
  {
    assert live == {p} + a + b && a !! b;
    assert |{p} + a| == 1 + |a|;
    assert |{p} + a + b| == |{p} + a| + |b|;
  }

  lemma LivePart<S>(counts: multiset<int>, M: Content, held: map<S, Holder>, b: int)
    requires Accounts(counts, M, held)
    ensures b in InUse(held) <==> |HoldersOf(held, b)| > 0
    ensures b in InUse(held) ==> b != PADDING && b in counts
    ensures (exists k :: k in Unshared(M, counts) && M[k] == b) <==> Holds(M, b) && b !in InUse(held)
    ensures b in counts <==> b == PADDING || b in InUse(held) || Holds(M, b)
  {
    assert Counted(counts, M, held, b);
    if |HoldersOf(held, b)| > 0 {
      var s := SomeHolder(held, b);
      assert HolderOk(M, held[s]);
    }
    if b in InUse(held) {
      var s :| s in held && b in held[s].blocks;
      HeldMeansHolder(held, s, b);
      assert HolderOk(M, held[s]);
    }
    if Holds(M, b) && b !in InUse(held) {
      var k :| k in M && M[k] == b;
      assert k in Unshared(M, counts);
    }
    if exists k :: k in Unshared(M, counts) && M[k] == b {
      var k :| k in Unshared(M, counts) && M[k] == b;
      assert Holds(M, b);
    }
  }

  // ---------------------------------------------------------------- taking cached blocks

  lemma HoldersUpdate<S>(held: map<S, Holder>, s: S, h: Holder, b: int)
    ensures HoldersOf(held[s := h], b) == HoldersOf(held, b) - {s} + if b in h.blocks then {s} else {}
  {
  }

  lemma HoldersUpdateSize<S>(held: map<S, Holder>, s: S, h: Holder, b: int)
    requires s in held
    ensures |HoldersOf(held[s := h], b)|
         == |HoldersOf(held, b)| - (if b in held[s].blocks then 1 else 0) + (if b in h.blocks then 1 else 0)
  {
    HoldersUpdate(held, s, h, b);
    var before := HoldersOf(held, b);
    assert s in before <==> b in held[s].blocks;
    assert |before - {s}| == |before| - if s in before then 1 else 0;
  }

  lemma ServedFacts(M: Content, q: Key, blocks: seq<int>)
    requires Injective(M) && Serves(M, q, 0, blocks)
    ensures NoDup(blocks) && forall b :: b in blocks ==> Holds(M, b)
  {
    forall i, j
      ensures Differ(blocks, i, j)
    {
      if 0 <= i < j < |blocks| && blocks[i] == blocks[j] {
        assert Stores(M, q, 0 + i + 1, blocks[i]) && Stores(M, q, 0 + j + 1, blocks[j]);
        assert SameBlock(M, q[..i + 1], q[..j + 1]);
      }
    }
    forall b | b in blocks
      ensures Holds(M, b)
    {
      var i :| 0 <= i < |blocks| && blocks[i] == b;
      assert Stores(M, q, 0 + i + 1, blocks[i]);
    }
  }

  lemma ServesKey(M: Content, q: Key, blocks: seq<int>)
    requires Serves(M, q, 0, blocks)
    ensures Serves(M, q[..|blocks|], 0, blocks)
  {
    forall i | 0 <= i < |blocks|
      ensures Stores(M, q[..|blocks|], 0 + i + 1, blocks[i])
    {
      assert Stores(M, q, 0 + i + 1, blocks[i]);
      assert q[..|blocks|][..i + 1] == q[..i + 1];
    }
  }

  /** Giving a sequence the cached blocks of its longest cached prefix. */
  lemma ShareKeeps<S>(counts: multiset<int>, M: Content, held: map<S, Holder>, s: S, q: Key, h: Holder)
    requires Accounts(counts, M, held) && s in held && held[s].blocks == []
    requires Serves(M, q, 0, h.blocks) && h.key == q[..|h.blocks|]
    ensures Accounts(counts + multiset(h.blocks), M, held[s := h])
  {
    var counts', held' := counts + multiset(h.blocks), held[s := h];
    ServedFacts(M, q, h.blocks);
    ServesKey(M, q, h.blocks);
    assert h.blocks[..|h.key|] == h.blocks;
    forall b
      ensures Counted(counts', M, held', b)
    {
      assert Counted(counts, M, held, b);
      HoldersUpdateSize(held, s, h, b);
      NoDupCount(h.blocks, b);
    }
    forall t | t in held'
      ensures HolderOk(M, held'[t])
    {
      assert t != s ==> HolderOk(M, held[t]);
    }
    forall t, t', b | t in held' && t' in held'
      ensures SharedCached(M, held', t, t', b)
    {
      assert SharedCached(M, held, t, t', b);
    }
  }

  /** Appending newly allocated blocks. */
  lemma AppendKeeps<S>(counts: multiset<int>, M: Content, held: map<S, Holder>, s: S, more: seq<int>, h: Holder)
    requires Accounts(counts, M, held) && s in held && NoDup(more) && forall b :: b in more ==> counts[b] == 0
    requires h.blocks == held[s].blocks + more && h.key == held[s].key
    ensures Accounts(counts + multiset(more), M, held[s := h])
  {
    var counts', held', prior := counts + multiset(more), held[s := h], held[s];
    assert HolderOk(M, prior);
    forall b | b in more
      ensures b !in InUse(held) && b != PADDING && !Holds(M, b)
    {
      LivePart(counts, M, held, b);
    }
    AppendHolder(M, prior, more, h, held, s);
    forall b
      ensures Counted(counts', M, held', b)
    {
      assert Counted(counts, M, held, b);
      HoldersUpdateSize(held, s, h, b);
      NoDupCount(more, b);
      assert b in h.blocks <==> b in prior.blocks || b in more;
      if b in prior.blocks { HeldMeansHolder(held, s, b); }
    }
    forall t | t in held'
      ensures HolderOk(M, held'[t])
    {
      assert t != s ==> HolderOk(M, held[t]);
    }
    forall t, t', b | t in held' && t' in held'
      ensures SharedCached(M, held', t, t', b)
    {
      assert SharedCached(M, held, t, t', b);
      if t != s && b in held[t].blocks { HeldMeansHolder(held, t, b); }
      if t' != s && b in held[t'].blocks { HeldMeansHolder(held, t', b); }
    }
  }

  lemma AppendHolder<S>(M: Content, prior: Holder, more: seq<int>, h: Holder, held: map<S, Holder>, s: S)
    requires HolderOk(M, prior) && s in held && held[s] == prior && NoDup(more)
    requires forall b :: b in more ==> b !in InUse(held) && b != PADDING && !Holds(M, b)
    requires h.blocks == prior.blocks + more && h.key == prior.key
    ensures HolderOk(M, h)
  {
    forall i, j
      ensures Differ(h.blocks, i, j)
    {
      assert Differ(prior.blocks, i, j) && Differ(more, i - |prior.blocks|, j - |prior.blocks|);
      if 0 <= i < |prior.blocks| <= j < |h.blocks| {
        assert prior.blocks[i] in prior.blocks && more[j - |prior.blocks|] in more;
        HeldMeansHolder(held, s, prior.blocks[i]);
      }
    }
    assert h.blocks[..|h.key|] == prior.blocks[..|prior.key|];
    assert h.blocks[|h.key|..] == prior.blocks[|prior.key|..] + more;
  }

  // ---------------------------------------------------------------- evicting

  lemma EvictFacts(M: Content, counts: multiset<int>, free: int, M': Content, counts': multiset<int>, free': int,
                   d: int)
    requires Dropping(M, counts, free, M', counts', free', d) && PathClosed(M, counts)
    ensures Injective(M') && (forall b :: Holds(M', b) ==> Holds(M, b))
    ensures forall b :: counts'[b] + (if Holds(M, b) && !Holds(M', b) then 1 else 0) == counts[b]
    ensures forall k :: k in M && counts[M[k]] > 1 ==> k in M' && M'[k] == M[k]
  {
    assert Unfold(true);
    SubInjective(M, M');
    forall b { HoldsSub(M, M', b); }
    forall k | k in M && counts[M[k]] > 1
      ensures k in M'
    {
      assert k in M.Keys - M'.Keys ==> k in Unshared(M, counts);
    }
  }

  lemma HeldStays<S>(counts: multiset<int>, M: Content, held: map<S, Holder>, M': Content, s: S, k: Key)
    requires Accounts(counts, M, held) && s in held && k in M && M[k] in held[s].blocks
    requires forall k :: k in M && counts[M[k]] > 1 ==> k in M' && M'[k] == M[k]
    ensures k in M' && M'[k] == M[k]
  {
    HeldMeansHolder(held, s, M[k]);
    assert Counted(counts, M, held, M[k]) && Holds(M, M[k]);
  }

  /** Eviction removes nothing that a sequence holds. */
  lemma EvictKeeps<S>(counts: multiset<int>, M: Content, held: map<S, Holder>, free: int, counts': multiset<int>,
                      M': Content, free': int, d: int)
    requires Accounts(counts, M, held) && Dropping(M, counts, free, M', counts', free', d)
    ensures Accounts(counts', M', held)
  {
    AccountsPathClosed(counts, M, held);
    EvictFacts(M, counts, free, M', counts', free', d);
    forall b
      ensures Counted(counts', M', held, b)
    {
      assert Counted(counts, M, held, b);
    }
    forall s | s in held
      ensures HolderOk(M', held[s])
    {
      assert HolderOk(M, held[s]);
      forall k | k in M && M[k] in held[s].blocks { HeldStays(counts, M, held, M', s, k); }
      EvictHolder(M, M', held, s);
    }
    forall s, s', b | s in held && s' in held
      ensures SharedCached(M', held, s, s', b)
    {
      assert SharedCached(M, held, s, s', b);
      if Holds(M, b) && b in held[s].blocks {
        var k :| k in M && M[k] == b;
        HeldStays(counts, M, held, M', s, k);
      }
    }
  }

  lemma EvictHolder<S>(M: Content, M': Content, held: map<S, Holder>, s: S)
    requires s in held && HolderOk(M, held[s])
    requires forall k :: k in M && M[k] in held[s].blocks ==> k in M' && M'[k] == M[k]
    requires forall b :: Holds(M', b) ==> Holds(M, b)
    ensures HolderOk(M', held[s])
  {
    var h := held[s];
    var served := h.blocks[..|h.key|];
    forall i | 0 <= i < |served|
      ensures Stores(M', h.key, 0 + i + 1, served[i])
    {
      assert Stores(M, h.key, 0 + i + 1, served[i]);
      assert served[i] == h.blocks[i] && h.blocks[i] in h.blocks;
    }
  }

  // ---------------------------------------------------------------- releasing

  /** The keys that `added` brings are missing before; the others of `q` are stored. */
  ghost predicate Inserted(M: Content, h: Holder, q: Key, added: seq<int>) {
    && |added| <= |q| <= |h.blocks| && added == h.blocks[|q| - |added|..|q|]
    && FirstStored(M, q, |q| - |added|)
  }

  /** The offered tokens begin with the shared ones. */
  ghost predicate SameStart(q: Key, key: Key) {
    forall j :: 0 <= j <= |q| && j <= |key| ==> q[..j] == key[..j]
  }

  lemma SharedStored(M: Content, h: Holder, q: Key, j: nat)
    requires HolderOk(M, h) && SameStart(q, h.key) && 0 < j <= |q| && j <= |h.key|
    ensures q[..j] in M
  {
    var served := h.blocks[..|h.key|];
    assert Stores(M, h.key, 0 + (j - 1) + 1, served[j - 1]);
    assert q[..j] == h.key[..j];
  }

  /** Only blocks that were not shared go into the cache. */
  lemma AddedPrivate(M: Content, h: Holder, q: Key, added: seq<int>)
    requires HolderOk(M, h) && Inserted(M, h, q, added) && SameStart(q, h.key)
    ensures added != [] ==> |q| - |added| >= |h.key|
    ensures forall b :: b in added ==> b in h.blocks[|h.key|..] && b in h.blocks
  {
    var r := |q| - |added|;
    if added != [] && r < |h.key| {
      SharedStored(M, h, q, r + 1);
    }
    forall b | b in added
      ensures b in h.blocks[|h.key|..] && b in h.blocks
    {
      var i :| 0 <= i < |added| && added[i] == b;
      InTail(h.blocks, |h.key|, r + i);
      assert h.blocks[r + i] in h.blocks;
    }
  }

  lemma InsertHolds(M: Content, h: Holder, q: Key, added: seq<int>, b: int)
    requires Inserted(M, h, q, added)
    ensures Holds(AddContent(M, [], q, h.blocks[..|q|]), b) <==> Holds(M, b) || b in added
  {
    var blocks, r := h.blocks[..|q|], |q| - |added|;
    var M' := AddContent(M, [], q, blocks);
    assert q[..0] == [] && q[0..] == q;
    if Holds(M, b) {
      var k :| k in M && M[k] == b;
      assert M'[k] == b;
    }
    if b in added {
      var i :| 0 <= i < |added| && added[i] == b;
      QueryKeys(q, 0, q[..r + i + 1]);
      assert q[..r + i + 1] !in M;
      assert M'[q[..r + i + 1]] == blocks[r + i] == b;
    }
    if Holds(M', b) {
      var k :| k in M' && M'[k] == b;
      if k in M {
        assert Holds(M, M[k]);
      } else {
        QueryKeys(q, 0, k);
        assert q[..|k|] == k && |k| > r;
        assert b == blocks[|k| - 1] == added[|k| - 1 - r];
      }
    }
  }

  lemma InsertInjective(M: Content, h: Holder, q: Key, added: seq<int>)
    requires HolderOk(M, h) && Injective(M) && Inserted(M, h, q, added) && SameStart(q, h.key)
    ensures Injective(AddContent(M, [], q, h.blocks[..|q|]))
  {
    var blocks := h.blocks[..|q|];
    var M' := AddContent(M, [], q, blocks);
    assert q[..0] == [] && q[0..] == q;
    AddedPrivate(M, h, q, added);
    forall k, k' | SameBlock(M', k, k')
      ensures k == k'
    {
      QueryKeys(q, 0, k);
      QueryKeys(q, 0, k');
      if k in M && k' in M {
        assert SameBlock(M, k, k');
      } else if k !in M && k' !in M {
        assert Differ(h.blocks, |k| - 1, |k'| - 1) && Differ(h.blocks, |k'| - 1, |k| - 1);
      } else {
        var x, y := if k in M then k else k', if k in M then k' else k;
        NewBlockPrivate(M, h, q, added, y);
        assert Holds(M, M[x]);
      }
    }
  }

  lemma NewBlockPrivate(M: Content, h: Holder, q: Key, added: seq<int>, k: Key)
    requires HolderOk(M, h) && Inserted(M, h, q, added) && SameStart(q, h.key)
    requires k !in M && k in AddContent(M, [], q, h.blocks[..|q|])
    ensures !Holds(M, AddContent(M, [], q, h.blocks[..|q|])[k])
  {
    var blocks, r := h.blocks[..|q|], |q| - |added|;
    assert q[..0] == [] && q[0..] == q;
    QueryKeys(q, 0, k);
    AddedPrivate(M, h, q, added);
    assert q[..|k|] == k && |k| > r;
    assert blocks[|k| - 1] == added[|k| - 1 - r];
  }

  lemma InsertSubmap(M: Content, q: Key, blocks: seq<int>)
    requires |q| == |blocks|
    ensures var M' := AddContent(M, [], q, blocks); forall k :: k in M ==> k in M' && M'[k] == M[k]
  {
  }

  lemma KeepHolder(M: Content, M': Content, h: Holder)
    requires HolderOk(M, h) && (forall k :: k in M ==> k in M' && M'[k] == M[k])
    requires forall b :: b in h.blocks[|h.key|..] ==> !Holds(M', b)
    ensures HolderOk(M', h)
  {
    var served := h.blocks[..|h.key|];
    forall i | 0 <= i < |served|
      ensures Stores(M', h.key, 0 + i + 1, served[i])
    {
      assert Stores(M, h.key, 0 + i + 1, served[i]);
    }
  }

  /** A sequence's own blocks are nobody else's. */
  lemma PrivateBlock<S>(counts: multiset<int>, M: Content, held: map<S, Holder>, s: S, t: S, b: int)
    requires Accounts(counts, M, held) && s in held && t in held && s != t && b in held[s].blocks[|held[s].key|..]
    ensures b !in held[t].blocks && b != PADDING && !Holds(M, b)
  {
    assert HolderOk(M, held[s]) && SharedCached(M, held, s, t, b);
    assert b in held[s].blocks;
  }

  /** Offering a sequence's blocks to the cache and dropping its handles. */
  lemma ReleaseKeeps<S>(counts: multiset<int>, M: Content, held: map<S, Holder>, s: S, q: Key, added: seq<int>,
                        h': Holder)
    requires Accounts(counts, M, held) && s in held && Inserted(M, held[s], q, added) && SameStart(q, held[s].key)
    requires h'.blocks == [] && h'.key == []
    ensures Accounts(counts + multiset(added) - multiset(held[s].blocks), AddContent(M, [], q, held[s].blocks[..|q|]),
                     held[s := h'])
  {
    var h := held[s];
    var M', held', counts' := AddContent(M, [], q, h.blocks[..|q|]), held[s := h'],
      counts + multiset(added) - multiset(h.blocks);
    assert HolderOk(M, h);
    AddedPrivate(M, h, q, added);
    InsertInjective(M, h, q, added);
    InsertSubmap(M, q, h.blocks[..|q|]);
    forall b
      ensures Counted(counts', M', held', b) && (Holds(M', b) <==> Holds(M, b) || b in added)
    {
      InsertHolds(M, h, q, added, b);
      ReleaseCount(counts, M, held, s, q, added, h', b);
    }
    assert !Holds(M', PADDING);
    forall t | t in held'
      ensures HolderOk(M', held'[t])
    {
      if t != s {
        assert HolderOk(M, held[t]);
        forall b | b in added { PrivateBlock(counts, M, held, s, t, b); }
        assert forall b :: b in held[t].blocks[|held[t].key|..] ==> b in held[t].blocks;
        KeepHolder(M, M', held[t]);
      }
    }
    forall t, t', b | t in held' && t' in held'
      ensures SharedCached(M', held', t, t', b)
    {
      assert SharedCached(M, held, t, t', b);
    }
  }

  lemma ReleaseCount<S>(counts: multiset<int>, M: Content, held: map<S, Holder>, s: S, q: Key, added: seq<int>,
                        h': Holder, b: int)
    requires Accounts(counts, M, held) && s in held && Inserted(M, held[s], q, added) && SameStart(q, held[s].key)
      && h'.blocks == []
    ensures Counted(counts + multiset(added) - multiset(held[s].blocks), AddContent(M, [], q, held[s].blocks[..|q|]),
                    held[s := h'], b)
  {
    var h := held[s];
    assert HolderOk(M, h) && Counted(counts, M, held, b);
    AddedPrivate(M, h, q, added);
    InsertHolds(M, h, q, added, b);
    HoldersUpdateSize(held, s, h', b);
    NoDupCount(h.blocks, b);
    NoDupSlice(h.blocks, |q| - |added|, |q|);
    NoDupCount(added, b);
    if b in h.blocks { HeldMeansHolder(held, s, b); }
  }

  // ---------------------------------------------------------------- the number of blocks in use

  lemma InUseIff<S>(held: map<S, Holder>, b: int)
    ensures b in InUse(held) <==> |HoldersOf(held, b)| > 0
  {
    if |HoldersOf(held, b)| > 0 {
      var s := SomeHolder(held, b);
    }
    if b in InUse(held) {
      var s :| s in held && b in held[s].blocks;
      HeldMeansHolder(held, s, b);
    }
  }

  /** The blocks that the source's `ref_count() <= 2` test counts. */
  ghost function Sole(blocks: seq<int>, counts: multiset<int>): set<int> {
    set b | b in blocks && counts[b] <= 2
  }

  /** The counting loop of the source. */
  method CountSole(blocks: seq<int>, counts: multiset<int>) returns (n: nat)
    requires NoDup(blocks)
    ensures n == |Sole(blocks, counts)|
  {
    n := 0;
    assert Sole(blocks[..0], counts) == {};
    for i := 0 to |blocks|
      invariant n == |Sole(blocks[..i], counts)|
    {
      SoleNext(blocks, counts, i);
      if counts[blocks[i]] <= 2 {
        n := n + 1;
      }
    }
    assert blocks[..|blocks|] == blocks;
  }

  lemma SoleNext(blocks: seq<int>, counts: multiset<int>, i: nat)
    requires NoDup(blocks) && i < |blocks|
    ensures |Sole(blocks[..i + 1], counts)| == |Sole(blocks[..i], counts)| + if counts[blocks[i]] <= 2 then 1 else 0
  {
    NoDupSlice(blocks, 0, i + 1);
    NoDupLast(blocks[..i + 1]);
    assert blocks[..i + 1][..i] == blocks[..i] && blocks[..i + 1] == blocks[..i] + [blocks[i]];
    var extra := if counts[blocks[i]] <= 2 then {blocks[i]} else {};
    TwoParts(Sole(blocks[..i + 1], counts), Sole(blocks[..i], counts), extra);
  }

  /** Sharing counts every cached block that no sequence held before, once. */
  lemma ShareInUse<S>(counts: multiset<int>, M: Content, held: map<S, Holder>, s: S, q: Key, h: Holder)
    requires Accounts(counts, M, held) && s in held && held[s].blocks == [] && Serves(M, q, 0, h.blocks)
    ensures |InUse(held[s := h])| == |InUse(held)| + |Sole(h.blocks, counts + multiset(h.blocks))|
  {
    ServedFacts(M, q, h.blocks);
    var counts' := counts + multiset(h.blocks);
    forall b
      ensures b in InUse(held[s := h]) <==> b in InUse(held) || b in Sole(h.blocks, counts')
      ensures b in InUse(held) ==> b !in Sole(h.blocks, counts')
    {
      InUseIff(held, b);
      InUseIff(held[s := h], b);
      HoldersUpdateSize(held, s, h, b);
      NoDupCount(h.blocks, b);
      assert Counted(counts, M, held, b);
    }
    TwoParts(InUse(held[s := h]), InUse(held), Sole(h.blocks, counts'));
  }

  lemma AppendInUse<S>(counts: multiset<int>, M: Content, held: map<S, Holder>, s: S, more: seq<int>, h: Holder)
    requires Accounts(counts, M, held) && s in held && NoDup(more) && (forall b :: b in more ==> counts[b] == 0)
    requires h.blocks == held[s].blocks + more
    ensures |InUse(held[s := h])| == |InUse(held)| + |more|
  {
    forall b
      ensures b in InUse(held[s := h]) <==> b in InUse(held) || b in Elements(more)
      ensures b in InUse(held) ==> b !in Elements(more)
    {
      InUseIff(held, b);
      InUseIff(held[s := h], b);
      HoldersUpdateSize(held, s, h, b);
      assert Counted(counts, M, held, b);
    }
    NoDupSize(more);
    TwoParts(InUse(held[s := h]), InUse(held), Elements(more));
  }

  /** Releasing counts every block that no other sequence holds, once. */
  lemma ReleaseInUse<S>(counts: multiset<int>, M: Content, held: map<S, Holder>, s: S, q: Key, added: seq<int>,
                        h': Holder)
    requires Accounts(counts, M, held) && s in held && Inserted(M, held[s], q, added) && SameStart(q, held[s].key)
      && h'.blocks == []
    ensures |InUse(held[s := h'])| == |InUse(held)| - |Sole(held[s].blocks, counts + multiset(added))|
  {
    var h, counts' := held[s], counts + multiset(added);
    forall b
      ensures b in InUse(held) <==> b in InUse(held[s := h']) || b in Sole(h.blocks, counts')
      ensures b in InUse(held[s := h']) ==> b !in Sole(h.blocks, counts')
    {
      InUseIff(held, b);
      InUseIff(held[s := h'], b);
      HoldersUpdateSize(held, s, h', b);
      ReleaseSole(counts, M, held, s, q, added, b);
    }
    TwoParts(InUse(held), InUse(held[s := h']), Sole(h.blocks, counts'));
  }

  lemma ReleaseSole<S>(counts: multiset<int>, M: Content, held: map<S, Holder>, s: S, q: Key, added: seq<int>, b: int)
    requires Accounts(counts, M, held) && s in held && Inserted(M, held[s], q, added) && SameStart(q, held[s].key)
    ensures b in Sole(held[s].blocks, counts + multiset(added)) <==> b in held[s].blocks && |HoldersOf(held, b)| == 1
  {
    var h := held[s];
    assert HolderOk(M, h) && Counted(counts, M, held, b);
    AddedPrivate(M, h, q, added);
    NoDupSlice(h.blocks, |q| - |added|, |q|);
    NoDupCount(added, b);
    if b in h.blocks {
      HeldMeansHolder(held, s, b);
      if !Holds(M, b) {
        OnlyHolder(counts, M, held, s, b);
      }
    }
  }

  lemma OnlyHolder<S>(counts: multiset<int>, M: Content, held: map<S, Holder>, s: S, b: int)
    requires Accounts(counts, M, held) && s in held && b in held[s].blocks && !Holds(M, b)
    ensures |HoldersOf(held, b)| == 1
  {
    forall t | t in HoldersOf(held, b)
      ensures t == s
    {
      assert SharedCached(M, held, s, t, b);
    }
    assert HoldersOf(held, b) == {s};
  }
}
