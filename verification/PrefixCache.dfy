/** The prefix cache (src/memory/prefix_cache.cpp): a tree of nodes with flat token vectors, changed
    in place, that refines the keyed radix tree of module RadixTree. */
module PrefixCaching {
  import opened Collections
  import opened RadixTree
  import opened TokenBlocks
  import opened LruLists
  import opened Recency
  import opened BlockAllocation
  import opened Eviction

  /** A tree node as the source stores it; nodes are named by their ids. */
  datatype Node = Node(tokens: seq<int>, blocks: seq<int>, children: set<int>, parent: int, time: int)

  ghost predicate RepNode(c: Node, a: RNode, bs: nat) {
    && Sized(a.edge, bs) && c.tokens == Flatten(a.edge)
    && c.blocks == a.blocks && c.children == a.children && c.parent == a.parent && c.time == a.time
  }

  /** The stored nodes hold the token vectors of the keyed tree. */
  ghost predicate Rep(nodes: map<int, Node>, t: map<int, RNode>, bs: nat) {
    nodes.Keys == t.Keys && forall n {:trigger RepNode(nodes[n], t[n], bs)} :: n in t ==> RepNode(nodes[n], t[n], bs)
  }

  /** The invariant of the cache: structure, access order, token vectors and the two counters. */
  ghost predicate CacheOk(nodes: map<int, Node>, g: Radix, order: seq<int>, clock: int, bs: nat,
                          nextId: int, numBlocks: int, numNodes: int) {
    bs > 0 && forall u {:trigger Unfold(u)} :: Unfold(u) ==>
      CacheInv(nodes, g, order, clock, bs, nextId, numBlocks, numNodes)
  }

  ghost predicate CacheInv(nodes: map<int, Node>, g: Radix, order: seq<int>, clock: int, bs: nat,
                           nextId: int, numBlocks: int, numNodes: int) {
    && 0 <= clock
    && Shape(g)
    && Recent(g.nodes, order, clock)
    && Rep(nodes, g.nodes, bs)
    && numBlocks == |g.home|
    && numNodes == |nodes| - 1
    && 0 < nextId && (forall n {:trigger n in nodes} :: n in nodes ==> 0 <= n < nextId)
  }

  /** The blocks and the children of each node. */
  ghost function BlocksOf(g: Radix): map<int, seq<int>> {
    map n | n in g.nodes :: g.nodes[n].blocks
  }

  ghost function TimesOf(g: Radix): map<int, int> {
    map n | n in g.nodes :: g.nodes[n].time
  }

  ghost function KidsOf(g: Radix): map<int, set<int>> {
    map n | n in g.nodes :: g.nodes[n].children
  }

  // ---------------------------------------------------------------- what the invariant says of the stored nodes

  /** Every node but the root has at least one block and a whole block of tokens for each, and parent
      and child links agree. */
  ghost predicate WellLinked(nodes: map<int, Node>, bs: nat) {
    && (forall n {:trigger nodes[n].parent} :: n in nodes && n != ROOT ==>
          && nodes[n].blocks != [] && |nodes[n].tokens| == |nodes[n].blocks| * bs
          && nodes[n].parent in nodes && n in nodes[nodes[n].parent].children)
    && (forall n, c {:trigger c in nodes[n].children} :: n in nodes && c in nodes[n].children ==>
        c in nodes && c != ROOT && nodes[c].parent == n)
  }

  /** Two children of `p` differ within their first block. */
  ghost predicate SiblingsApart(nodes: map<int, Node>, bs: nat, p: int, a: int, b: int) {
    p in nodes && a in nodes[p].children && b in nodes[p].children && a != b ==>
      && a in nodes && b in nodes && bs <= |nodes[a].tokens| && bs <= |nodes[b].tokens|
      && nodes[a].tokens[..bs] != nodes[b].tokens[..bs]
  }

  ghost predicate FirstBlocksDiffer(nodes: map<int, Node>, bs: nat) {
    forall p, a, b :: SiblingsApart(nodes, bs, p, a, b)
  }

  /** The list holds every node but the root once, oldest access first, and no child is more recent
      than its parent. */
  ghost predicate LruSorted(nodes: map<int, Node>, order: seq<int>) {
    && NoDup(order) && (forall n :: n in order <==> n in nodes && n != ROOT)
    && (forall i, j :: 0 <= i < j < |order| ==> nodes[order[i]].time <= nodes[order[j]].time)
    && (forall n {:trigger nodes[n].parent} ::
          n in nodes && n != ROOT && nodes[n].parent in nodes && nodes[n].parent != ROOT ==>
            nodes[n].time <= nodes[nodes[n].parent].time)
  }

  lemma StoredLinks(nodes: map<int, Node>, g: Radix, bs: nat)
    requires Shape(g) && Rep(nodes, g.nodes, bs)
    ensures WellLinked(nodes, bs)
  {
    forall n | n in nodes && n != ROOT
      ensures nodes[n].blocks != [] && |nodes[n].tokens| == |nodes[n].blocks| * bs && nodes[n].parent in nodes
        && n in nodes[nodes[n].parent].children
    {
      assert NodeOk(g.nodes, n) && RepNode(nodes[n], g.nodes[n], bs);
      FlattenSize(g.nodes[n].edge, bs);
      assert RepNode(nodes[g.nodes[n].parent], g.nodes[g.nodes[n].parent], bs);
    }
    forall n, c | n in nodes && c in nodes[n].children
      ensures c in nodes && c != ROOT && nodes[c].parent == n
    {
      assert RepNode(nodes[n], g.nodes[n], bs);
      assert c in g.nodes[n].children;
      assert RepNode(nodes[c], g.nodes[c], bs);
    }
  }

  lemma FirstBlockIs(nodes: map<int, Node>, g: Radix, bs: nat, n: int)
    requires Rep(nodes, g.nodes, bs) && n in g.nodes && g.nodes[n].edge != []
    ensures bs <= |nodes[n].tokens| && nodes[n].tokens[..bs] == g.nodes[n].edge[0]
  {
    assert RepNode(nodes[n], g.nodes[n], bs);
  }

  lemma StoredSiblings(nodes: map<int, Node>, g: Radix, bs: nat)
    requires Shape(g) && Rep(nodes, g.nodes, bs)
    ensures FirstBlocksDiffer(nodes, bs)
  {
    forall p, a, b
      ensures SiblingsApart(nodes, bs, p, a, b)
    {
      if p in nodes && a in nodes[p].children && b in nodes[p].children && a != b {
        assert RepNode(nodes[p], g.nodes[p], bs);
        SiblingsDiffer(g, p, a, b);
        FirstBlockIs(nodes, g, bs, a);
        FirstBlockIs(nodes, g, bs, b);
      }
    }
  }

  lemma StoredOrder(nodes: map<int, Node>, g: Radix, order: seq<int>, clock: int, bs: nat)
    requires Shape(g) && Rep(nodes, g.nodes, bs) && Recent(g.nodes, order, clock)
    ensures LruSorted(nodes, order) && |order| == |nodes| - 1
  {
    var t := g.nodes;
    forall n | n in nodes
      ensures nodes[n].time == t[n].time && nodes[n].parent == t[n].parent
    {
      assert RepNode(nodes[n], t[n], bs);
    }
    forall n
      ensures n in order <==> n in nodes && n != ROOT
    {
    }
    forall i, j | 0 <= i < j < |order|
      ensures nodes[order[i]].time <= nodes[order[j]].time
    {
      assert NotLater(t, order, i, j);
    }
    forall n | n in nodes && n != ROOT && nodes[n].parent in nodes && nodes[n].parent != ROOT
      ensures nodes[n].time <= nodes[nodes[n].parent].time
    {
      assert ParentFresher(t, n);
    }
    NoDupSize(order);
    AllButOne(order, nodes.Keys, ROOT);
  }

  lemma AllButOne<T>(order: seq<T>, keys: set<T>, root: T)
    requires (forall n :: n in order <==> n in keys && n != root) && root in keys
    ensures |Elements(order)| == |keys| - 1
  {
    TwoParts(keys, Elements(order), {root});
  }

  lemma ContentSize(r: Radix)
    ensures |ContentOf(r)| == |r.home|
  {
    assert ContentOf(r).Keys == r.home.Keys;
  }

  // ---------------------------------------------------------------- cutting a leaf

  /** What a cut of leaf `n` to `k` blocks may rely on. */
  lemma TouchReady(nodes: map<int, Node>, g: Radix, order: seq<int>, clock: int, bs: nat, nextId: int, numBlocks: int,
                   numNodes: int, n: int)
    requires CacheOk(nodes, g, order, clock, bs, nextId, numBlocks, numNodes) && n in g.nodes && n != ROOT
    ensures n in nodes && n in order && NoDup(order)
  {
    assert Unfold(true);
  }

  lemma TouchOk(nodes: map<int, Node>, nodes': map<int, Node>, g: Radix, order: seq<int>, order': seq<int>, clock: int,
                now: int, bs: nat,
                nextId: int, numBlocks: int, numNodes: int, n: int)
    requires CacheOk(nodes, g, order, clock, bs, nextId, numBlocks, numNodes) && n in g.nodes && n != ROOT
      && clock <= now
    requires g.nodes[n].parent == ROOT || (g.nodes[n].parent in g.nodes && g.nodes[g.nodes[n].parent].time == now)
    requires n in nodes && nodes' == nodes[n := nodes[n].(time := now)] && order' == Without(order, n) + [n]
    ensures CacheOk(nodes', Touch(g, n, now), order', now, bs, nextId, numBlocks, numNodes)
    ensures ContentOf(Touch(g, n, now)) == ContentOf(g)
  {
    assert Unfold(true);
    hide Links, Homes, Recent, ContentOf;
    TouchRecent(g, order, clock, n, now);
    TouchKeeps(g, n, now);
    assert RepNode(nodes[n], g.nodes[n], bs);
    assert nodes'.Keys == nodes.Keys;
  }

  lemma CutReady(nodes: map<int, Node>, g: Radix, order: seq<int>, clock: int, bs: nat,
                 nextId: int, numBlocks: int, numNodes: int, n: int, k: nat)
    requires CacheOk(nodes, g, order, clock, bs, nextId, numBlocks, numNodes)
    requires n in g.nodes && n != ROOT && g.nodes[n].children == {} && k <= |g.nodes[n].blocks|
    ensures CanCut(g, n, k) && n in nodes && nodes[n].blocks == g.nodes[n].blocks && n in order
    ensures nodes[n].parent == g.nodes[n].parent && nodes[n].parent in nodes && nodes[n].parent != n
    ensures 0 <= k * bs <= |nodes[n].tokens|
  {
    assert Unfold(true);
    assert NodeOk(g.nodes, n) && RepNode(nodes[n], g.nodes[n], bs);
    assert g.nodes[n].parent in g.nodes;
    FlattenCut(g.nodes[n].edge, k, bs);
  }

  lemma CutHomeSize(g: Radix, n: int, k: nat)
    requires CanCut(g, n, k)
    ensures |Cut(g, n, k).home| == |g.home| - (|g.nodes[n].blocks| - k)
  {
    CutKeeps(g, n, k);
    assert Cut(g, n, k).home.Keys == ContentOf(Cut(g, n, k)).Keys == g.home.Keys - CutKeys(g.nodes[n], k);
  }

  lemma TrimRep(nodes: map<int, Node>, t: map<int, RNode>, bs: nat, n: int, k: nat)
    requires Rep(nodes, t, bs) && n in t && 0 < k <= |t[n].edge| && k <= |t[n].blocks| && t[n].parent in t
    requires 0 <= k * bs <= |nodes[n].tokens|
    ensures Rep(nodes[n := nodes[n].(tokens := nodes[n].tokens[..k * bs], blocks := t[n].blocks[..k])],
                CutNodes(t, n, k), bs)
  {
    assert RepNode(nodes[n], t[n], bs);
    FlattenCut(t[n].edge, k, bs);
    var nodes', t' := nodes[n := nodes[n].(tokens := nodes[n].tokens[..k * bs], blocks := t[n].blocks[..k])],
      CutNodes(t, n, k);
    forall m | m in t'
      ensures RepNode(nodes'[m], t'[m], bs)
    {
      assert RepNode(nodes[m], t[m], bs);
    }
  }

  lemma RemoveRep(nodes: map<int, Node>, nodes': map<int, Node>, t: map<int, RNode>, bs: nat, n: int)
    requires Rep(nodes, t, bs) && n in t && t[n].parent in t && t[n].parent != n && IsRemoved(nodes, nodes', n)
    ensures Rep(nodes', CutNodes(t, n, 0), bs)
  {
    assert RepNode(nodes[n], t[n], bs);
    var t' := CutNodes(t, n, 0);
    forall m | m in t'
      ensures RepNode(nodes'[m], t'[m], bs)
    {
      assert RepNode(nodes[m], t[m], bs);
    }
  }

  lemma TrimOk(nodes: map<int, Node>, nodes': map<int, Node>, g: Radix, order: seq<int>, clock: int, bs: nat,
               nextId: int, numBlocks: int, numBlocks': int, numNodes: int, n: int, k: nat)
    returns (g': Radix)
    requires CacheOk(nodes, g, order, clock, bs, nextId, numBlocks, numNodes)
    requires CanCut(g, n, k) && k > 0 && n in nodes && 0 <= k * bs <= |nodes[n].tokens|
    requires nodes' == nodes[n := nodes[n].(tokens := nodes[n].tokens[..k * bs], blocks := g.nodes[n].blocks[..k])]
    requires numBlocks' == numBlocks - (|g.nodes[n].blocks| - k)
    ensures CacheOk(nodes', g', order, clock, bs, nextId, numBlocks', numNodes)
    ensures ContentOf(g') == ContentOf(g) - CutKeys(g.nodes[n], k)
    ensures BlocksOf(g') == BlocksOf(g)[n := g.nodes[n].blocks[..k]] && KidsOf(g') == KidsOf(g)
      && TimesOf(g') == TimesOf(g)
  {
    assert Unfold(true);
    hide Links, Homes, Recent, RepNode, ContentOf, CutKeys, BlocksOf, KidsOf, TimesOf;
    g' := Cut(g, n, k);
    TrimFrame(g, n, k);
    CutKeeps(g, n, k);
    CutHomeSize(g, n, k);
    TrimRecent(g, order, n, k, clock);
    TrimRep(nodes, g.nodes, bs, n, k);
    assert nodes'.Keys == nodes.Keys;
  }

  lemma TrimFrame(g: Radix, n: int, k: nat)
    requires CanCut(g, n, k) && k > 0
    ensures var g' := Cut(g, n, k);
      BlocksOf(g') == BlocksOf(g)[n := g.nodes[n].blocks[..k]] && KidsOf(g') == KidsOf(g) && TimesOf(g') == TimesOf(g)
  {
    hide Shape;
  }

  lemma RemoveFrame(g: Radix, n: int)
    requires CanCut(g, n, 0)
    ensures var g' := Cut(g, n, 0);
      && BlocksOf(g') == BlocksOf(g) - {n} && g'.nodes.Keys == g.nodes.Keys - {n}
      && (forall m :: m in g'.nodes && g.nodes[m].children == {} ==> g'.nodes[m].children == {})
  {
  }

  lemma OneLessNode(nodes: map<int, Node>, nodes': map<int, Node>, n: int)
    requires n in nodes && nodes'.Keys == nodes.Keys - {n}
    ensures |nodes'| == |nodes| - 1
  {
    assert |nodes'| == |nodes'.Keys| && |nodes| == |nodes.Keys|;
  }

  /** The stored nodes after leaf `n` was unlinked from its parent. */
  ghost predicate IsRemoved(nodes: map<int, Node>, nodes': map<int, Node>, n: int)
    requires n in nodes
  {
    && nodes'.Keys == nodes.Keys - {n}
    && (forall m :: m in nodes' ==>
          nodes'[m] == if m == nodes[n].parent then nodes[m].(children := nodes[m].children - {n}) else nodes[m])
  }

  lemma RemoveOk(nodes: map<int, Node>, nodes': map<int, Node>, g: Radix, order: seq<int>, order': seq<int>,
                 clock: int, bs: nat,
                 nextId: int, numBlocks: int, numBlocks': int, numNodes: int, numNodes': int, n: int)
    returns (g': Radix)
    requires order' == Without(order, n) && numNodes' == numNodes - 1
    requires CacheOk(nodes, g, order, clock, bs, nextId, numBlocks, numNodes)
    requires CanCut(g, n, 0) && n in nodes && IsRemoved(nodes, nodes', n)
    requires numBlocks' == numBlocks - |g.nodes[n].blocks|
    ensures CacheOk(nodes', g', order', clock, bs, nextId, numBlocks', numNodes')
    ensures ContentOf(g') == ContentOf(g) - CutKeys(g.nodes[n], 0)
    ensures BlocksOf(g') == BlocksOf(g) - {n} && g'.nodes.Keys == g.nodes.Keys - {n}
    ensures forall m :: m in g'.nodes && g.nodes[m].children == {} ==> g'.nodes[m].children == {}
  {
    assert Unfold(true);
    assert NodeOk(g.nodes, n);
    hide Links, Homes, Recent, RepNode, ContentOf, CutKeys, BlocksOf;
    g' := Cut(g, n, 0);
    OneLessNode(nodes, nodes', n);
    RemoveFrame(g, n);
    CutHomeSize(g, n, 0);
    CutKeeps(g, n, 0);
    RemoveRecent(g, order, n, clock);
    RemoveRep(nodes, nodes', g.nodes, bs, n);
  }

  /** What a run of cuts may rely on at node `n`. */
  lemma NodeFacts(nodes: map<int, Node>, g: Radix, order: seq<int>, clock: int, bs: nat, nextId: int, numBlocks: int,
                  numNodes: int,
                  M0: Content, counts0: multiset<int>, free0: int, counts: multiset<int>, free: int, d: int, n: int)
    requires CacheOk(nodes, g, order, clock, bs, nextId, numBlocks, numNodes)
    requires Dropping(M0, counts0, free0, ContentOf(g), counts, free, d) && n in g.nodes && n != ROOT
    ensures n in nodes && nodes[n].blocks == g.nodes[n].blocks && nodes[n].children == g.nodes[n].children
    ensures |g.nodes[n].edge| == |g.nodes[n].blocks| > 0 && NoDup(g.nodes[n].blocks)
    ensures forall b :: b in g.nodes[n].blocks ==> b in counts
    ensures FirstUnshared(g.nodes[n].blocks, counts) == FirstUnshared(g.nodes[n].blocks, counts0)
  {
    assert Unfold(true);
    assert NodeOk(g.nodes, n) && RepNode(nodes[n], g.nodes[n], bs);
    SubInjective(M0, ContentOf(g));
    NodeBlocksNoDup(g, n);
    NodeCountsKept(M0, counts0, free0, g, counts, free, d, n);
  }

  /** The children of a node, with their token vectors. */
  lemma ChildrenFacts(nodes: map<int, Node>, g: Radix, order: seq<int>, clock: int, bs: nat, nextId: int,
                      numBlocks: int, numNodes: int, n: int)
    requires CacheOk(nodes, g, order, clock, bs, nextId, numBlocks, numNodes) && n in g.nodes
    ensures bs > 0 && n in nodes && nodes[n].children == g.nodes[n].children
    ensures forall c :: c in g.nodes[n].children ==>
      c in g.nodes && c in nodes && |g.nodes[c].edge| > 0 && Sized(g.nodes[c].edge, bs)
      && nodes[c].tokens == Flatten(g.nodes[c].edge)
  {
    assert Unfold(true);
    assert RepNode(nodes[n], g.nodes[n], bs);
    forall c | c in g.nodes[n].children
      ensures c in g.nodes && c in nodes && |g.nodes[c].edge| > 0 && Sized(g.nodes[c].edge, bs)
        && nodes[c].tokens == Flatten(g.nodes[c].edge)
    {
      assert RepNode(nodes[c], g.nodes[c], bs) && NodeOk(g.nodes, c);
    }
  }

  /** The list holds tree nodes, and their access times do not decrease along it. */
  lemma OrderFacts(nodes: map<int, Node>, g: Radix, order: seq<int>, clock: int, bs: nat, nextId: int, numBlocks: int,
                   numNodes: int, i: nat)
    requires CacheOk(nodes, g, order, clock, bs, nextId, numBlocks, numNodes) && i < |order|
    ensures order[i] in g.nodes && order[i] != ROOT && order[i] in nodes
      && nodes[order[i]].time == g.nodes[order[i]].time >= 0
    ensures i > 0 ==> order[i - 1] in g.nodes && g.nodes[order[i - 1]].time <= g.nodes[order[i]].time
  {
    assert Unfold(true);
    assert RepNode(nodes[order[i]], g.nodes[order[i]], bs);
    assert NotLater(g.nodes, order, i - 1, i);
  }

  /** The access time that a scan remembers before position `i`. */
  ghost predicate PrevTime(times: map<int, int>, order: seq<int>, i: int, preTime: int) {
    if 0 < i <= |order| then order[i - 1] in times && preTime == times[order[i - 1]] else preTime == 0
  }

  lemma ScanStart(nodes: map<int, Node>, g: Radix, order: seq<int>, clock: int, bs: nat, nextId: int, numBlocks: int,
                  numNodes: int,
                  counts: multiset<int>, budget: nat)
    requires CacheOk(nodes, g, order, clock, bs, nextId, numBlocks, numNodes)
    ensures Visited(BlocksOf(g), KidsOf(g), counts, order, budget, 0, [], BlocksOf(g))
    ensures Marked([], BlocksOf(g), BlocksOf(g), KidsOf(g), counts)
  {
    assert Unfold(true);
  }

  /** `blocks` are the stored blocks of the keys of `q` from chunk `done` on. */
  ghost predicate Serves(M: Content, q: Key, done: nat, blocks: seq<int>) {
    && done + |blocks| <= |q|
    && (forall i {:trigger blocks[i]} :: 0 <= i < |blocks| ==> Stores(M, q, done + i + 1, blocks[i]))
  }

  /** `b` is the stored block of the first `n` chunks of `q`. */
  ghost predicate Stores(M: Content, q: Key, n: nat, b: int) {
    n <= |q| && q[..n] in M && M[q[..n]] == b
  }

  lemma ServesJoin(M: Content, q: Key, a: seq<int>, b: seq<int>)
    requires Serves(M, q, 0, a) && Serves(M, q, |a|, b)
    ensures Serves(M, q, 0, a + b)
  {
    forall i | 0 <= i < |a + b|
      ensures Stores(M, q, 0 + i + 1, (a + b)[i])
    {
      if i < |a| {
        assert Stores(M, q, 0 + i + 1, a[i]);
      } else {
        assert Stores(M, q, |a| + (i - |a|) + 1, b[i - |a|]);
      }
    }
  }

  /** A longest match: the blocks of the first keys of `q`, as far as they are stored. */
  ghost predicate IsLongestMatch(M: Content, q: Key, blocks: seq<int>) {
    Serves(M, q, 0, blocks) && Exhausted(M, q, |blocks|)
  }

  /** No key of `q` longer than `n` chunks is next in line: `q` ends there, or that key is missing. */
  ghost predicate Exhausted(M: Content, q: Key, n: nat) {
    n < |q| ==> q[..n + 1] !in M
  }

  // ---------------------------------------------------------------- one step down the tree

  /** A child that shares its first `k` chunks with the rest of the query stores the next `k` keys. */
  lemma HitStored(r: Radix, p: int, c: int, q: Key, done: nat, k: nat, i: nat)
    requires Shape(r) && p in r.nodes && c in r.nodes[p].children && c in r.nodes
    requires done <= |q| && r.nodes[p].End() == q[..done]
    requires k <= |q| - done && k <= |r.nodes[c].edge| && q[done..][..k] == r.nodes[c].edge[..k] && i < k
    ensures |r.nodes[c].blocks| == |r.nodes[c].edge|
    ensures q[..done + i + 1] in r.home && StoredAt(r, q[..done + i + 1]) == r.nodes[c].blocks[i]
  {
    var key := q[..done + i + 1];
    assert NodeOk(r.nodes, c);
    assert key == q[..done] + q[done..][..k][..i + 1];
    assert Covers(r.nodes[c], key);
  }

  /** What a child with `k > 0` chunks in common tells about the tree. */
  lemma HitChild(r: Radix, p: int, c: int, q: Key, done: nat, k: nat)
    requires Shape(r) && p in r.nodes && c in r.nodes[p].children && c in r.nodes
    requires done <= |q| && r.nodes[p].End() == q[..done] && IsCommon(q[done..], r.nodes[c].edge, k)
    ensures c != ROOT && r.nodes[c].parent == p && r.nodes[c].start == q[..done]
    ensures |r.nodes[c].blocks| == |r.nodes[c].edge|
    ensures r.nodes[c].start + r.nodes[c].edge[..k] == q[..done + k]
    ensures Serves(ContentOf(r), q, done, r.nodes[c].blocks[..k])
  {
    assert NodeOk(r.nodes, c);
    assert q[..done + k] == q[..done] + q[done..][..k];
    var M, served := ContentOf(r), r.nodes[c].blocks[..k];
    forall i | 0 <= i < |served|
      ensures Stores(M, q, done + i + 1, served[i])
    {
      HitStored(r, p, c, q, done, k, i);
    }
  }

  /** After a split where the query leaves a node, the query's next key is not stored. */
  lemma SplitStops(r: Radix, c: int, id: int, q: Key, e: nat)
    requires Shape(r) && c in r.nodes && e <= |q| && r.nodes[c].End() == q[..e]
    requires r.nodes[c].children == {id} && id in r.nodes && |r.nodes[id].edge| > 0
    requires e < |q| ==> r.nodes[id].edge[0] != q[e]
    ensures Exhausted(ContentOf(r), q, e)
  {
    if e < |q| {
      NextKeyMissing(r, c, q[..e + 1]);
    }
  }

  /** A node whose token vector is longer than `k` blocks has more than `k` chunks. */
  lemma TokensSize(c: Node, a: RNode, bs: nat, k: nat)
    requires RepNode(c, a, bs) && bs > 0
    ensures k * bs < |c.tokens| <==> k < |a.edge|
    ensures k * bs == |c.tokens| <==> k == |a.edge|
  {
    FlattenSize(a.edge, bs);
    assert (|a.edge| - k) * bs == |a.edge| * bs - k * bs && (k - |a.edge|) * bs == k * bs - |a.edge| * bs;
    if k < |a.edge| {
      MulAtLeast(|a.edge| - k, bs);
    } else if k > |a.edge| {
      MulAtLeast(k - |a.edge|, bs);
    }
  }

  // ---------------------------------------------------------------- the two halves of a split node

  /** The stored nodes after `n` was cut in two at token `len` and block `k`. */
  ghost predicate IsSplit(nodes: map<int, Node>, nodes': map<int, Node>, n: int, len: nat, k: nat, id: int)
    requires n in nodes && len <= |nodes[n].tokens| && k <= |nodes[n].blocks| && id !in nodes
  {
    && nodes'.Keys == nodes.Keys + {id}
    && nodes'[id] == Node(nodes[n].tokens[len..], nodes[n].blocks[k..], nodes[n].children, n, nodes[n].time)
    && nodes'[n] == nodes[n].(tokens := nodes[n].tokens[..len], blocks := nodes[n].blocks[..k], children := {id})
    && (forall m :: m in nodes && m != n ==>
          nodes'[m] == if m in nodes[n].children then nodes[m].(parent := id) else nodes[m])
  }

  lemma SplitRep(nodes: map<int, Node>, nodes': map<int, Node>, t: map<int, RNode>, bs: nat, n: int, k: nat, id: int)
    requires Rep(nodes, t, bs) && n in t && k <= |t[n].edge| && k <= |t[n].blocks| && id !in t
    requires 0 <= k * bs <= |nodes[n].tokens| && k <= |nodes[n].blocks| && IsSplit(nodes, nodes', n, k * bs, k, id)
    ensures Rep(nodes', SplitNodes(t, n, k, id), bs)
  {
    assert RepNode(nodes[n], t[n], bs);
    FlattenCut(t[n].edge, k, bs);
    var t' := SplitNodes(t, n, k, id);
    forall m | m in t'
      ensures RepNode(nodes'[m], t'[m], bs)
    {
      assert m in t ==> RepNode(nodes[m], t[m], bs);
    }
  }

  lemma OneMoreNode(nodes: map<int, Node>, nodes': map<int, Node>, id: int)
    requires nodes'.Keys == nodes.Keys + {id} && 0 <= id && forall n :: n in nodes ==> 0 <= n < id
    ensures |nodes'| == |nodes| + 1
    ensures forall n :: n in nodes' ==> 0 <= n < id + 1
  {
    assert |nodes'| == |nodes'.Keys| && |nodes| == |nodes.Keys|;
  }

  lemma NewIdUnused(nodes: map<int, Node>, g: Radix, order: seq<int>, clock: int, bs: nat,
                    nextId: int, numBlocks: int, numNodes: int)
    requires CacheOk(nodes, g, order, clock, bs, nextId, numBlocks, numNodes)
    ensures nextId !in order && nextId !in nodes && nextId > 0 && nodes.Keys == g.nodes.Keys
    ensures ROOT in g.nodes && g.nodes[ROOT].End() == []
  {
    assert Unfold(true);
  }

  /** What a split may rely on. */
  lemma SplitReady(nodes: map<int, Node>, g: Radix, order: seq<int>, clock: int, bs: nat,
                   nextId: int, numBlocks: int, numNodes: int, n: int, k: nat)
    requires CacheOk(nodes, g, order, clock, bs, nextId, numBlocks, numNodes)
    requires n in g.nodes && n != ROOT && 0 < k < |g.nodes[n].edge|
    ensures n in nodes && |nodes[n].blocks| == |g.nodes[n].blocks| == |g.nodes[n].edge|
    ensures 0 <= k * bs <= |nodes[n].tokens| && k * bs / bs == k
    ensures nodes[n].children <= nodes.Keys && n !in nodes[n].children
    ensures nextId !in order && nextId !in nodes && nextId > 0
  {
    assert Unfold(true);
    assert RepNode(nodes[n], g.nodes[n], bs) && NodeOk(g.nodes, n);
    FlattenCut(g.nodes[n].edge, k, bs);
    DivExact(k, bs);
    forall c | c in nodes[n].children
      ensures c in nodes && c != n
    {
      assert c in g.nodes[n].children;
    }
  }

  lemma SplitOk(nodes: map<int, Node>, nodes': map<int, Node>, g: Radix, order: seq<int>, order': seq<int>, clock: int,
                bs: nat,
                nextId: int, nextId': int, numBlocks: int, numNodes: int, numNodes': int, n: int, k: nat)
    returns (g': Radix)
    requires order' == order + [nextId] && nextId' == nextId + 1 && numNodes' == numNodes + 1
    requires CacheOk(nodes, g, order, clock, bs, nextId, numBlocks, numNodes)
    requires n in g.nodes && n != ROOT && g.nodes[n].time == clock && 0 < k < |g.nodes[n].edge|
    requires n in nodes && nextId !in nodes && 0 <= k * bs <= |nodes[n].tokens| && k <= |nodes[n].blocks|
    requires IsSplit(nodes, nodes', n, k * bs, k, nextId)
    ensures CacheOk(nodes', g', order', clock, bs, nextId', numBlocks, numNodes')
    ensures ContentOf(g') == ContentOf(g)
    ensures n in g'.nodes && nextId in g'.nodes && |g.nodes[n].blocks| == |g.nodes[n].edge|
    ensures g'.nodes[n] == g.nodes[n].(edge := g.nodes[n].edge[..k], blocks := g.nodes[n].blocks[..k],
                                       children := {nextId})
    ensures g'.nodes[nextId].edge == g.nodes[n].edge[k..] && StampsKept(Stamps(g), Stamps(g'))
  {
    hide StampsKept, Stamps, Homes, Recent, RepNode, ContentOf;
    assert Unfold(true);
    assert NodeOk(g.nodes, n);
    g' := Split(g, n, k, nextId);
    SplitStamps(g, n, k, nextId);
    SplitKeeps(g, n, k, nextId);
    SplitRecent(g, order, n, k, nextId, clock);
    SplitRep(nodes, nodes', g.nodes, bs, n, k, nextId);
    assert g'.home.Keys == g.home.Keys;
    OneMoreNode(nodes, nodes', nextId);
  }

  lemma AddOk(nodes: map<int, Node>, nodes': map<int, Node>, g: Radix, order: seq<int>, order': seq<int>, clock: int,
              bs: nat,
              nextId: int, nextId': int, numBlocks: int, numBlocks': int, numNodes: int, numNodes': int,
              p: int, edge: Key, blocks: seq<int>, now: int)
    returns (g': Radix)
    requires order' == order + [nextId] && nextId' == nextId + 1
    requires numBlocks' == numBlocks + |blocks| && numNodes' == numNodes + 1
    requires CacheOk(nodes, g, order, clock, bs, nextId, numBlocks, numNodes) && clock <= now
    requires p in g.nodes && Sized(edge, bs) && p in nodes
    requires AddSite(g, p, edge, blocks, nextId) && (p == ROOT || g.nodes[p].time == now)
    requires IsAdded(nodes, nodes', p, Flatten(edge), blocks, now, nextId)
    ensures CacheOk(nodes', g', order', now, bs, nextId', numBlocks', numNodes')
    ensures ContentOf(g') == AddContent(ContentOf(g), g.nodes[p].End(), edge, blocks)
    ensures NewKeys(g.nodes[p].End(), edge) !! ContentOf(g).Keys && StampsKept(Stamps(g), Stamps(g'))
  {
    hide StampsKept, Stamps;
    assert Unfold(true);
    g' := AddChild(g, p, edge, blocks, now, nextId);
    AddStamps(g, p, edge, blocks, now, nextId);
    AddInv(nodes, nodes', g, order, order', clock, bs, nextId, nextId', numBlocks, numBlocks', numNodes, numNodes', p,
           edge, blocks, now);
    AddKeeps(g, p, edge, blocks, now, nextId);
  }

  lemma AddInv(nodes: map<int, Node>, nodes': map<int, Node>, g: Radix, order: seq<int>, order': seq<int>, clock: int,
               bs: nat,
               nextId: int, nextId': int, numBlocks: int, numBlocks': int, numNodes: int, numNodes': int,
               p: int, edge: Key, blocks: seq<int>, now: int)
    requires order' == order + [nextId] && nextId' == nextId + 1 && bs > 0
    requires numBlocks' == numBlocks + |blocks| && numNodes' == numNodes + 1
    requires CacheInv(nodes, g, order, clock, bs, nextId, numBlocks, numNodes) && clock <= now
    requires p in g.nodes && Sized(edge, bs) && p in nodes
    requires AddSite(g, p, edge, blocks, nextId) && (p == ROOT || g.nodes[p].time == now)
    requires IsAdded(nodes, nodes', p, Flatten(edge), blocks, now, nextId)
    ensures CacheInv(nodes', AddChild(g, p, edge, blocks, now, nextId), order', now, bs, nextId', numBlocks', numNodes')
  {
    hide Recent, Rep, Shape, ContentOf, AddContent, AddNode, NewKeys, IsAdded;
    AddCounters(nodes, nodes', p, Flatten(edge), blocks, now, nextId);
    AddRep(nodes, nodes', g.nodes, bs, p, edge, blocks, now, nextId);
    AddSize(g, p, edge, blocks, now, nextId);
    AddRecent(g, order, clock, p, edge, blocks, now, nextId);
    AddKeeps(g, p, edge, blocks, now, nextId);
  }

  lemma AddCounters(nodes: map<int, Node>, nodes': map<int, Node>, p: int, tokens: seq<int>, blocks: seq<int>, now: int,
                    id: int)
    requires p in nodes && IsAdded(nodes, nodes', p, tokens, blocks, now, id)
    requires 0 <= id && forall n :: n in nodes ==> 0 <= n < id
    ensures |nodes'| == |nodes| + 1 && forall n :: n in nodes' ==> 0 <= n < id + 1
  {
    OneMoreNode(nodes, nodes', id);
  }

  /** The stored nodes after a leaf was hung under `p`. */
  ghost predicate IsAdded(nodes: map<int, Node>, nodes': map<int, Node>, p: int, tokens: seq<int>, blocks: seq<int>,
                          now: int, id: int)
    requires p in nodes
  {
    && nodes'.Keys == nodes.Keys + {id}
    && nodes'[id] == Node(tokens, blocks, {}, p, now)
    && (forall m :: m in nodes && m != id ==>
          nodes'[m] == if m == p then nodes[p].(children := nodes[p].children + {id}) else nodes[m])
  }

  lemma AddRep(nodes: map<int, Node>, nodes': map<int, Node>, t: map<int, RNode>, bs: nat, p: int, edge: Key,
               blocks: seq<int>, now: int, id: int)
    requires Rep(nodes, t, bs) && p in t && Sized(edge, bs) && id !in t
    requires IsAdded(nodes, nodes', p, Flatten(edge), blocks, now, id)
    ensures Rep(nodes', AddNode(t, p, edge, blocks, now, id), bs)
  {
    var t' := AddNode(t, p, edge, blocks, now, id);
    forall m | m in t'
      ensures RepNode(nodes'[m], t'[m], bs)
    {
      assert m in t ==> RepNode(nodes[m], t[m], bs);
    }
  }

  lemma AddSize(r: Radix, p: int, edge: Key, blocks: seq<int>, now: int, id: int)
    requires CanAdd(r, p, edge, blocks, id)
    ensures |AddChild(r, p, edge, blocks, now, id).home| == |r.home| + |edge|
  {
    var e := r.nodes[p].End();
    forall key | key in NewKeys(e, edge) { NewKeysMissing(r, p, edge, blocks, id, key); }
    NewKeysSize(e, edge);
    var r' := AddChild(r, p, edge, blocks, now, id);
    assert r'.home.Keys == r.home.Keys + NewKeys(e, edge);
  }

  /** What the walk may rely on at a child that shares `k > 0` chunks with the query. */
  lemma EnterFacts(nodes: map<int, Node>, g: Radix, order: seq<int>, clock: int, bs: nat, nextId: int, numBlocks: int,
                   numNodes: int,
                   p: int, c: int, q: Key, done: nat, k: nat)
    requires CacheOk(nodes, g, order, clock, bs, nextId, numBlocks, numNodes)
    requires p in g.nodes && c in g.nodes[p].children && c in g.nodes
    requires done <= |q| && g.nodes[p].End() == q[..done] && IsCommon(q[done..], g.nodes[c].edge, k)
    ensures c != ROOT && g.nodes[c].parent == p && |g.nodes[c].blocks| == |g.nodes[c].edge|
    ensures g.nodes[c].start + g.nodes[c].edge[..k] == q[..done + k]
    ensures Serves(ContentOf(g), q, done, g.nodes[c].blocks[..k])
    ensures k > 0 ==> OnlyNext(Stamps(g), q, done, k, c)
    ensures c in nodes && nodes[c].blocks == g.nodes[c].blocks
      && (k * bs == |nodes[c].tokens| <==> k == |g.nodes[c].edge|)
  {
    assert Unfold(true);
    HitChild(g, p, c, q, done, k);
    if k > 0 {
      ChildIsNext(g, p, c, q, done, k);
    }
    assert RepNode(nodes[c], g.nodes[c], bs);
    TokensSize(nodes[c], g.nodes[c], bs, k);
  }

  class PrefixCache {
    const bs: nat
    const lru: LruList
    var nodes: map<int, Node>
    var nextId: int
    var numBlocks: int
    var numNodes: int

    ghost var g: Radix
    ghost var clock: int

    ghost predicate Valid()
      reads this, lru
    {
      ValidBut(numBlocks)
    }

    /** The invariant with `count` in place of the block counter, which a pass settles at its end. */
    ghost predicate ValidBut(count: int)
      reads this, lru
    {
      lru.Valid() && CacheOk(nodes, g, lru.order, clock, bs, nextId, count, numNodes)
    }

    /** The map the cache stands for. */
    ghost function View(): Content
      requires Valid()
      reads this, lru
    {
      ContentOf(g)
    }

    /** The structure that every operation keeps, in terms of the stored nodes: the cached keys are closed
        under prefixes, both counters are the real totals, the links agree, siblings differ within their
        first block, and the list is sorted by access time. */
    lemma Structure()
      requires Valid()
      ensures PrefixClosed(View()) && numBlocks == |View()| && numNodes == |lru.order| == |nodes| - 1
      ensures WellLinked(nodes, bs) && FirstBlocksDiffer(nodes, bs) && LruSorted(nodes, lru.order)
    {
      assert CacheInv(nodes, g, lru.order, clock, bs, nextId, numBlocks, numNodes) by { assert Unfold(true); }
      ContentPrefixClosed(g);
      ContentSize(g);
      StoredLinks(nodes, g, bs);
      StoredSiblings(nodes, g, bs);
      StoredOrder(nodes, g, lru.order, clock, bs);
    }

    constructor (blockSize: nat)
      requires blockSize > 0
      ensures Valid() && fresh(lru)
      ensures bs == blockSize && View() == map[] && clock == 0
    {
      bs := blockSize;
      lru := new LruList();
      nodes := map[ROOT := Node([], [], {}, ROOT, 0)];
      nextId := 1;
      numBlocks := 0;
      numNodes := 0;
      g := Radix(map[ROOT := RNode([], [], [], {}, ROOT, 0)], map[]);
      clock := 0;
      new;
      assert forall k :: !Covers(g.nodes[ROOT], k);
    }

    /** The length of the common prefix of two token vectors. */
    static method CommonPrefixLength(a: seq<int>, b: seq<int>) returns (i: nat)
      ensures IsCommon(a, b, i)
    {
      i := 0;
      while i < |a| && i < |b| && a[i] == b[i]
        invariant i <= |a| && i <= |b| && a[..i] == b[..i]
      {
        assert a[..i + 1] == a[..i] + [a[i]] && b[..i + 1] == b[..i] + [b[i]];
        i := i + 1;
      }
    }

    /** The search among the children, in whatever order the set yields them: a child that shares at
        least one whole block with `tokens`, and how many blocks it shares. */
    method FindChild(curr: int, tokens: seq<int>, ghost q: Key) returns (found: bool, child: int, len: nat)
      requires Valid() && curr in g.nodes
      requires Sized(q, bs) && tokens == Flatten(q) && q != []
      ensures found ==> child in g.nodes[curr].children && child in g.nodes && len > 0
      ensures found ==> len == len / bs * bs && IsCommon(q, g.nodes[child].edge, len / bs)
      ensures !found ==> forall c :: c in g.nodes[curr].children ==>
        c in g.nodes && |g.nodes[c].edge| > 0 && g.nodes[c].edge[0] != q[0]
    {
      hide CacheOk, IsCommon, Flatten, Sized;
      ChildrenFacts(nodes, g, lru.order, clock, bs, nextId, numBlocks, numNodes, curr);
      found, child, len := false, ROOT, 0;
      var rest := nodes[curr].children;
      while rest != {} && !found
        invariant rest <= g.nodes[curr].children
        invariant found ==> child in g.nodes[curr].children && child in g.nodes && len > 0
        invariant found ==> len == len / bs * bs && IsCommon(q, g.nodes[child].edge, len / bs)
        invariant !found ==> forall c :: c in g.nodes[curr].children - rest ==>
          c in g.nodes && |g.nodes[c].edge| > 0 && g.nodes[c].edge[0] != q[0]
        decreases rest, !found
      {
        child := Pick(rest);
        rest := rest - {child};
        len := SharedLength(tokens, nodes[child].tokens, q, g.nodes[child].edge, bs);
        found := len > 0;
      }
    }

    /** The length of the common prefix, rounded down to a block boundary. */
    static method SharedLength(tokens: seq<int>, other: seq<int>, ghost q: Key, ghost edge: Key, bs: nat)
      returns (len: nat)
      requires bs > 0 && Sized(q, bs) && tokens == Flatten(q) && Sized(edge, bs) && other == Flatten(edge)
      ensures len == len / bs * bs && IsCommon(q, edge, len / bs)
      ensures len == 0 && q != [] && edge != [] ==> edge[0] != q[0]
    {
      var common := CommonPrefixLength(tokens, other);
      RoundedCommon(q, edge, common, bs);
      var n := common / bs;
      len := n * bs;
      DivExact(n, bs);
      if n > 0 {
        MulAtLeast(n, bs);
      }
    }

    /** `last_access_time = now; move_node_to_lru_back`. */
    method TouchNode(n: int, now: int)
      requires Valid() && n in g.nodes && n != ROOT && clock <= now
      requires g.nodes[n].parent == ROOT || (g.nodes[n].parent in g.nodes && g.nodes[g.nodes[n].parent].time == now)
      modifies this, lru
      ensures Valid() && View() == old(View()) && clock == now
      ensures n in nodes && n in g.nodes && g.nodes[n] == old(g).nodes[n].(time := now)
      ensures n in old(nodes) && nodes[n] == old(nodes)[n].(time := now)
      ensures StampSet(old(Stamps(g)), Stamps(g), n, now)
    {
      hide StampSet, Stamps;
      hide CacheOk, ContentOf, Without;
      ghost var nodes0, order0, g0, clock0 := nodes, lru.order, g, clock;
      TouchReady(nodes, g, lru.order, clock, bs, nextId, numBlocks, numNodes, n);
      nodes := nodes[n := nodes[n].(time := now)];
      lru.MoveToBack(n);
      g := Touch(g, n, now);
      clock := now;
      TouchStamps(g0, n, now);
      TouchOk(nodes0, nodes, g0, order0, lru.order, clock0, now, bs, nextId, numBlocks, numNodes, n);
    }

    /** Splits a node at a block boundary: the new lower half takes over the children. */
    method SplitNode(n: int, len: nat, ghost k: nat)
      requires Valid() && n in g.nodes && n != ROOT && g.nodes[n].time == clock
      requires 0 < k < |g.nodes[n].edge| && len == k * bs
      modifies this, lru
      ensures Valid() && clock == old(clock) && View() == old(View())
      ensures n in g.nodes && |old(g).nodes[n].blocks| == |old(g).nodes[n].edge|
      ensures g.nodes[n] == old(g).nodes[n].(edge := old(g).nodes[n].edge[..k], blocks := old(g).nodes[n].blocks[..k],
                                             children := {old(nextId)})
      ensures old(nextId) in g.nodes && g.nodes[old(nextId)].edge == old(g).nodes[n].edge[k..]
      ensures StampsKept(old(Stamps(g)), Stamps(g))
    {
      hide StampsKept, Stamps;
      SplitReady(nodes, g, lru.order, clock, bs, nextId, numBlocks, numNodes, n, k);
      ghost var nodes0, order0, id, count := nodes, lru.order, nextId, numNodes;
      SplitInPlace(n, len);
      lru.AddBack(nextId);
      nextId := nextId + 1;
      numNodes := numNodes + 1;
      g := SplitOk(nodes0, nodes, g, order0, lru.order, clock, bs, id, nextId, numBlocks, count, numNodes, n, k);
    }

    /** The pointer updates of a split, grandchild by grandchild. */
    method SplitInPlace(n: int, len: nat)
      requires bs > 0 && n in nodes && len <= |nodes[n].tokens| && len / bs <= |nodes[n].blocks|
      requires nextId !in nodes && nodes[n].children <= nodes.Keys && n !in nodes[n].children
      modifies this`nodes
      ensures IsSplit(old(nodes), nodes, n, len, len / bs, nextId)
    {
      var id, k, node := nextId, len / bs, nodes[n];
      var rest := node.children;
      while rest != {}
        invariant rest <= node.children
        invariant nodes.Keys == old(nodes.Keys)
        invariant forall m :: m in nodes ==>
          nodes[m] == if m in node.children - rest then old(nodes)[m].(parent := id) else old(nodes)[m]
        decreases rest
      {
        var c := Pick(rest);
        nodes := nodes[c := nodes[c].(parent := id)];
        rest := rest - {c};
      }
      nodes := nodes[n := nodes[n].(tokens := node.tokens[..len], blocks := node.blocks[..k], children := {id})];
      nodes := nodes[id := Node(node.tokens[len..], node.blocks[k..], node.children, n, node.time)];
    }

    method AddInPlace(p: int, tokens: seq<int>, blocks: seq<int>, now: int)
      requires p in nodes && nextId !in nodes
      modifies this`nodes
      ensures IsAdded(old(nodes), nodes, p, tokens, blocks, now, nextId)
    {
      nodes := nodes[nextId := Node(tokens, blocks, {}, p, now)];
      nodes := nodes[p := nodes[p].(children := nodes[p].children + {nextId})];
    }

    /** Hangs a new leaf with the remaining tokens and blocks under `p`. */
    method CreateChild(p: int, tokens: seq<int>, blocks: seq<int>, now: int, ghost edge: Key)
      requires Valid() && p in g.nodes && clock <= now
      requires Sized(edge, bs) && tokens == Flatten(edge)
      requires AddSite(g, p, edge, blocks, nextId) && (p == ROOT || g.nodes[p].time == now)
      modifies this, lru
      ensures Valid() && clock == now
      ensures View() == AddContent(old(View()), old(g).nodes[p].End(), edge, blocks)
      ensures NewKeys(old(g).nodes[p].End(), edge) !! old(View()).Keys
      ensures StampsKept(old(Stamps(g)), Stamps(g))
    {
      hide StampsKept, Stamps, CacheOk, AddContent, NewKeys, AddSite, Sized, Flatten;
      ghost var nodes0, order0, id, count, size := nodes, lru.order, nextId, numNodes, numBlocks;
      NewIdUnused(nodes, g, lru.order, clock, bs, nextId, numBlocks, numNodes);
      lru.AddBack(nextId);
      AddInPlace(p, tokens, blocks, now);
      nextId := nextId + 1;
      numNodes := numNodes + 1;
      numBlocks := numBlocks + |blocks|;
      g := AddOk(nodes0, nodes, g, order0, lru.order, clock, bs, id, nextId, size, numBlocks, count, numNodes, p, edge,
                 blocks, now);
      clock := now;
    }

    /** Splits a node where the query leaves it, after `e` chunks: the next key is not stored. */
    method SplitWhereLeft(n: int, len: nat, ghost k: nat, ghost q: Key, ghost e: nat)
      requires Valid() && n in g.nodes && n != ROOT && g.nodes[n].time == clock
      requires 0 < k < |g.nodes[n].edge| == |g.nodes[n].blocks| && len == k * bs
      requires e <= |q| && g.nodes[n].start + g.nodes[n].edge[..k] == q[..e] && (e < |q| ==> g.nodes[n].edge[k] != q[e])
      modifies this, lru
      ensures Valid() && clock == old(clock) && View() == old(View())
      ensures n in g.nodes && g.nodes[n].time == clock && g.nodes[n].End() == q[..e]
      ensures n in nodes && nodes[n].blocks == old(g).nodes[n].blocks[..k]
      ensures Exhausted(View(), q, e)
      ensures StampsKept(old(Stamps(g)), Stamps(g))
    {
      hide StampsKept, Stamps;
      assert Unfold(true);
      ghost var id := nextId;
      SplitNode(n, len, k);
      SplitStops(g, n, id, q, e);
      assert RepNode(nodes[n], g.nodes[n], bs);
    }

    /** Goes to a child that shares `len` tokens with the rest of the query: marks it accessed, and
        splits it where the query leaves it. */
    method Enter(curr: int, child: int, len: nat, now: int, ghost q: Key, ghost done: nat, ghost k: nat)
      returns (full: bool)
      requires Valid() && clock <= now && curr in g.nodes && (curr == ROOT || g.nodes[curr].time == now)
      requires done < |q| && g.nodes[curr].End() == q[..done] && child in g.nodes[curr].children && child in g.nodes
      requires 0 < k && len == k * bs && IsCommon(q[done..], g.nodes[child].edge, k)
      modifies this, lru
      ensures Valid() && View() == old(View()) && clock == now
      ensures child in g.nodes && child != ROOT && g.nodes[child].time == now && g.nodes[child].End() == q[..done + k]
      ensures child in nodes && |nodes[child].blocks| == k && Serves(View(), q, done, nodes[child].blocks)
      ensures !full ==> Exhausted(View(), q, done + k)
      ensures OnlyNext(old(Stamps(g)), q, done, k, child) && StampSet(old(Stamps(g)), Stamps(g), child, now)
    {
      hide StampsKept, StampSet, Stamps, OnlyNext;
      ghost var edge, blocks, stamps := g.nodes[child].edge, g.nodes[child].blocks, Stamps(g);
      EnterFacts(nodes, g, lru.order, clock, bs, nextId, numBlocks, numNodes, curr, child, q, done, k);
      TouchNode(child, now);
      full := len == |nodes[child].tokens|;
      if full {
        assert edge[..k] == edge && blocks[..k] == blocks;
      } else {
        ghost var touched := Stamps(g);
        SplitWhereLeft(child, len, k, q, done + k);
        SetThenKept(stamps, touched, Stamps(g), child, now);
      }
    }

    /** One step down the tree, as `match` and `insert` take it. */
    method Advance(curr: int, tokens: seq<int>, now: int, ghost q: Key, ghost done: nat)
      returns (found: bool, child: int, len: nat, full: bool)
      requires Valid() && clock <= now && curr in g.nodes && (curr == ROOT || g.nodes[curr].time == now)
      requires Sized(q, bs) && done < |q| && tokens == Flatten(q[done..]) && g.nodes[curr].End() == q[..done]
      modifies this, lru
      ensures Valid() && View() == old(View()) && clock <= now
      ensures !found ==> g == old(g) && nextId == old(nextId) && Exhausted(View(), q, done)
      ensures !found ==> forall c :: c in g.nodes[curr].children ==>
        c in g.nodes && |g.nodes[c].edge| > 0 && g.nodes[c].edge[0] != q[done]
      ensures found ==> child in g.nodes && child != ROOT && g.nodes[child].time == now
      ensures found ==> 0 < len / bs <= |q| - done && len == len / bs * bs
      ensures found ==> g.nodes[child].End() == q[..done + len / bs]
      ensures found ==>
        child in nodes && len / bs == |nodes[child].blocks| && Serves(View(), q, done, nodes[child].blocks)
      ensures found && !full ==> Exhausted(View(), q, done + len / bs)
      ensures found ==>
        OnlyNext(old(Stamps(g)), q, done, len / bs, child) && StampSet(old(Stamps(g)), Stamps(g), child, now)
    {
      hide StampSet, Stamps, OnlyNext;
      assert Unfold(true);
      found, child, len := FindChild(curr, tokens, q[done..]);
      full := true;
      if found {
        full := Enter(curr, child, len, now, q, done, len / bs);
      } else {
        NextKeyMissing(g, curr, q[..done + 1]);
      }
    }

    /** The walk stands at `curr`, whose path is the first `n` chunks of `q`. */
    ghost predicate At(curr: int, q: Key, n: nat, now: int)
      reads this
    {
      curr in g.nodes && (curr == ROOT || g.nodes[curr].time == now) && n <= |q| && g.nodes[curr].End() == q[..n]
    }

    /** One round of the walk of `match`. */
    method MatchStep(curr: int, tokens: seq<int>, blocks: seq<int>, now: int, ghost q: Key,
                     ghost stamps: map<int, Stamp>)
      returns (more: bool, next: int, rest: seq<int>, hit: seq<int>)
      requires Valid() && clock <= now && At(curr, q, |blocks|, now)
      requires Sized(q, bs) && tokens != [] && tokens == Flatten(q[|blocks|..]) && Serves(View(), q, 0, blocks)
      requires Accessed(stamps, Stamps(g), q, |blocks|, now)
      modifies this, lru
      ensures Valid() && View() == old(View()) && clock <= now
      ensures Serves(View(), q, 0, blocks + hit) && Serves(View(), q, |blocks|, hit)
        && rest == Flatten(q[|blocks + hit|..])
      ensures if more then At(next, q, |blocks + hit|, now) && |rest| < |tokens|
        else Exhausted(View(), q, |blocks + hit|)
      ensures Accessed(stamps, Stamps(g), q, |blocks + hit|, now)
    {
      hide StampSet, Stamps, OnlyNext, Accessed, Shape, Recent, Rep;
      assert Unfold(true);
      ghost var done, before := |blocks|, Stamps(g);
      FlattenEmpty(q[done..], bs);
      var found, child, len, full := Advance(curr, tokens, now, q, done);
      more, next, rest, hit := found && full, child, tokens, [];
      if found {
        AccessedNext(stamps, before, Stamps(g), q, done, len / bs, child, now);
        hit := nodes[child].blocks;
        ServesJoin(View(), q, blocks, hit);
        FlattenCut(q[done..], len / bs, bs);
        assert q[done..][len / bs..] == q[done + len / bs..];
        rest := tokens[len..];
      } else {
        assert blocks + hit == blocks;
      }
    }

    /** The walk of `match`, from the root until the query is used up or leaves the tree. */
    method Walk(tokenIds: seq<int>, now: int) returns (blocks: seq<int>)
      requires Valid() && clock <= now
      modifies this, lru
      ensures Valid() && View() == old(View()) && clock <= now
      ensures IsLongestMatch(View(), Chunks(tokenIds, bs), blocks)
      ensures Accessed(old(Stamps(g)), Stamps(g), Chunks(tokenIds, bs), |Chunks(tokenIds, bs)|, now)
    {
      hide Stamps, Accessed;
      ghost var q, M, g0 := Chunks(tokenIds, bs), View(), g;
      WalkStarts(nodes, g, lru.order, clock, bs, nextId, numBlocks, numNodes, q, now);
      ChunksAre(tokenIds, bs);
      var tokens := tokenIds[..|tokenIds| / bs * bs];
      NewIdUnused(nodes, g, lru.order, clock, bs, nextId, numBlocks, numNodes);
      blocks := [];
      var curr, more := ROOT, true;
      while more && tokens != []
        invariant Valid() && View() == M && clock <= now
        invariant Serves(M, q, 0, blocks) && tokens == Flatten(q[|blocks|..])
        invariant if more then At(curr, q, |blocks|, now) else Exhausted(M, q, |blocks|)
        invariant Accessed(Stamps(g0), Stamps(g), q, |blocks|, now)
        decreases if more then |tokens| + 1 else 0
      {
        var hit;
        more, curr, tokens, hit := MatchStep(curr, tokens, blocks, now, q, Stamps(g0));
        blocks := blocks + hit;
      }
      FlattenEmpty(q[|blocks|..], bs);
      WalkEnds(g0, Stamps(g), q, |blocks|, now);
    }

    /** One round of the walk of `insert`: a step down, or a new leaf with all that remains. */
    method InsertStep(curr: int, tokens: seq<int>, blocks: seq<int>, now: int, ghost q: Key, ghost done: nat,
                      ghost all: seq<int>, ghost stamps: map<int, Stamp>)
      returns (more: bool, next: int, ghost e: nat, restTokens: seq<int>, restBlocks: seq<int>)
      requires Valid() && clock <= now && At(curr, q, done, now) && HasKeys(View(), q, done)
      requires Sized(q, bs) && tokens != [] && tokens == Flatten(q[done..]) && |all| == |q| && blocks == all[done..]
      requires Accessed(stamps, Stamps(g), q, done, now)
      modifies this, lru
      ensures Valid() && clock <= now
      ensures more ==> View() == old(View()) && done < e <= |q|
      ensures more ==> At(next, q, e, now) && HasKeys(View(), q, e)
      ensures more ==> restTokens == Flatten(q[e..]) && restBlocks == all[e..]
      ensures !more ==>
        View() == AddContent(old(View()), [], q, all) && FirstStored(old(View()), q, done)
        && Exhausted(old(View()), q, done)
      ensures Accessed(stamps, Stamps(g), q, if more then e else done, now)
    {
      hide StampSet, StampsKept, Stamps, OnlyNext, Accessed;
      ghost var before := Stamps(g);
      FlattenEmpty(q[done..], bs);
      var found, child, len, full := Advance(curr, tokens, now, q, done);
      more, next, restTokens, restBlocks := found, child, [], [];
      e := done;
      if found {
        AccessedNext(stamps, before, Stamps(g), q, done, len / bs, child, now);
        var n := len / bs;
        e := done + n;
        HasMoreKeys(View(), q, done, nodes[child].blocks);
        FlattenCut(q[done..], n, bs);
        assert q[done..][n..] == q[e..];
        restTokens, restBlocks := tokens[len..], blocks[n..];
      } else {
        ghost var M := View();
        NewIdUnused(nodes, g, lru.order, clock, bs, nextId, numBlocks, numNodes);
        CreateChild(curr, tokens, blocks, now, q[done..]);
        InsertIs(M, q, done, all);
        TailMissing(M, q, done);
        AccessedKept(stamps, before, Stamps(g), q, done, now);
      }
    }

    /** The walk of `insert` over whole blocks; `added` are the blocks that went into the tree. */
    method InsertWalk(tokenIds: seq<int>, blocks: seq<int>, now: int, ghost q: Key) returns (added: seq<int>)
      requires Valid() && clock <= now
      requires Sized(q, bs) && tokenIds == Flatten(q) && |blocks| == |q|
      modifies this, lru
      ensures Valid() && clock <= now && View() == AddContent(old(View()), [], q, blocks)
      ensures |added| <= |q| && added == blocks[|q| - |added|..] && FirstStored(old(View()), q, |q| - |added|)
      ensures Accessed(old(Stamps(g)), Stamps(g), q, |q|, now)
    {
      hide Stamps, Accessed;
      WalkStarts(nodes, g, lru.order, clock, bs, nextId, numBlocks, numNodes, q, now);
      ghost var g0 := g;
      NewIdUnused(nodes, g, lru.order, clock, bs, nextId, numBlocks, numNodes);
      var tokens, rest, curr := tokenIds, blocks, ROOT;
      ghost var done, M := 0, View();
      assert q[0..] == q && blocks[0..] == blocks;
      while tokens != []
        invariant Valid() && clock <= now && 0 <= done <= |q|
        invariant View() == M && At(curr, q, done, now) && HasKeys(M, q, done)
        invariant tokens == Flatten(q[done..]) && rest == blocks[done..]
        invariant Accessed(Stamps(g0), Stamps(g), q, done, now)
        decreases |q| - done
      {
        var more;
        ghost var e;
        added := rest;
        more, curr, e, tokens, rest := InsertStep(curr, tokens, rest, now, q, done, blocks, Stamps(g0));
        if !more {
          WalkEnds(g0, Stamps(g), q, done, now);
          return;
        }
        done := e;
      }
      FlattenEmpty(q[done..], bs);
      InsertNothing(M, q, blocks);
      added := [];
    }

    /** The blocks of the longest cached prefix of `tokenIds`, as new handles.  The map the cache
        stands for does not change. */
    method Match(tokenIds: seq<int>, pool: BlockAllocator, now: int) returns (blocks: seq<int>)
      requires Valid() && pool.Valid() && clock <= now
      requires forall k :: k in View() ==> View()[k] in pool.counts
      modifies this, lru, pool`counts
      ensures Valid() && View() == old(View()) && clock <= now
      ensures IsLongestMatch(View(), Chunks(tokenIds, bs), blocks)
      ensures pool.Valid() && pool.counts == old(pool.counts) + multiset(blocks)
      ensures Accessed(old(Stamps(g)), Stamps(g), Chunks(tokenIds, bs), |Chunks(tokenIds, bs)|, now)
    {
      hide Stamps, Accessed;
      blocks := Walk(tokenIds, now);
      ServedLive(View(), Chunks(tokenIds, bs), 0, blocks, pool.counts);
      pool.IncRefs(blocks);
    }

    /** Offers the whole blocks of `tokenIds` to the cache.  Exactly the missing keys are added, none
        is overwritten, and the number of newly cached tokens is returned. */
    method Insert(tokenIds: seq<int>, blocks: seq<int>, pool: BlockAllocator, now: int)
      returns (newTokens: nat, ghost added: seq<int>)
      requires Valid() && pool.Valid() && clock <= now
      requires forall b :: b in blocks ==> b in pool.counts
      modifies this, lru, pool`counts
      ensures Valid() && clock <= now
      ensures var n := Min(|tokenIds| / bs, |blocks|);
        && n <= |Chunks(tokenIds, bs)|
        && View() == AddContent(old(View()), [], Chunks(tokenIds, bs)[..n], blocks[..n])
        && |added| <= n && added == blocks[n - |added|..n]
        && FirstStored(old(View()), Chunks(tokenIds, bs)[..n], n - |added|)
        && newTokens == |added| * bs
      ensures pool.Valid() && pool.counts == old(pool.counts) + multiset(added)
      ensures var q := Chunks(tokenIds, bs)[..Min(|tokenIds| / bs, |blocks|)];
        Accessed(old(Stamps(g)), Stamps(g), q, |q|, now)
    {
      hide Stamps, Accessed;
      ChunksAre(tokenIds, bs);
      var n := Min(|tokenIds| / bs, |blocks|);
      ghost var q := Chunks(tokenIds, bs);
      FlattenCut(q, n, bs);
      assert tokenIds[..n * bs] == tokenIds[..|tokenIds| / bs * bs][..n * bs];
      var fresh' := InsertWalk(tokenIds[..n * bs], blocks[..n], now, q[..n]);
      newTokens := |fresh'| * bs;
      pool.IncRefs(fresh');
      added := fresh';
    }

    /** Cuts leaf `n` back to `k > 0` blocks and drops the handles of the others. */
    method TrimNode(n: int, k: nat, pool: BlockAllocator, ghost count: int, ghost count': int)
      requires ValidBut(count) && pool.Valid() && n in g.nodes && n != ROOT && g.nodes[n].children == {}
      requires 0 < k <= |g.nodes[n].blocks| == |g.nodes[n].edge| && NoDup(g.nodes[n].blocks)
        && forall b :: b in g.nodes[n].blocks ==> b in pool.counts
      requires count' == count - (|g.nodes[n].blocks| - k)
      modifies this`nodes, this`g, pool, pool.freeBlocks
      ensures ValidBut(count') && pool.Valid()
      ensures ContentOf(g) == ContentOf(old(g)) - CutKeys(old(g).nodes[n], k)
      ensures BlocksOf(g) == BlocksOf(old(g))[n := old(g).nodes[n].blocks[..k]] && KidsOf(g) == KidsOf(old(g))
        && TimesOf(g) == TimesOf(old(g))
      ensures pool.counts == old(pool.counts) - multiset(old(g).nodes[n].blocks[k..])
      ensures (forall b :: b in old(g).nodes[n].blocks[k..] ==> old(pool.counts)[b] == 1) ==>
                pool.numFree == old(pool.numFree) + |old(g).nodes[n].blocks| - k
    {
      hide CacheOk, FreeListOk, ContentOf, CutKeys, BlocksOf, KidsOf, TimesOf, CanCut;
      CutReady(nodes, g, lru.order, clock, bs, nextId, count, numNodes, n, k);
      var node := nodes[n];
      ghost var nodes0 := nodes;
      nodes := nodes[n := node.(tokens := node.tokens[..k * bs], blocks := node.blocks[..k])];
      g := TrimOk(nodes0, nodes, g, lru.order, clock, bs, nextId, count, count', numNodes, n, k);
      NoDupSlice(node.blocks, k, |node.blocks|);
      assert node.blocks[k..] == node.blocks[k..|node.blocks|];
      pool.DecRefs(node.blocks[k..]);
    }

    /** Unlinks leaf `n` and drops all its handles. */
    method ReleaseNode(n: int, pool: BlockAllocator, ghost count: int, ghost count': int)
      requires ValidBut(count) && pool.Valid() && n in g.nodes && n != ROOT && g.nodes[n].children == {}
      requires NoDup(g.nodes[n].blocks) && forall b :: b in g.nodes[n].blocks ==> b in pool.counts
      requires count' == count - |g.nodes[n].blocks|
      modifies this`nodes, this`g, this`numNodes, lru, pool, pool.freeBlocks
      ensures ValidBut(count') && pool.Valid()
      ensures ContentOf(g) == ContentOf(old(g)) - CutKeys(old(g).nodes[n], 0)
      ensures BlocksOf(g) == BlocksOf(old(g)) - {n} && g.nodes.Keys == old(g).nodes.Keys - {n}
      ensures forall m :: m in g.nodes && old(g).nodes[m].children == {} ==> g.nodes[m].children == {}
      ensures pool.counts == old(pool.counts) - multiset(old(g).nodes[n].blocks)
      ensures (forall b :: b in old(g).nodes[n].blocks ==> old(pool.counts)[b] == 1) ==>
                pool.numFree == old(pool.numFree) + |old(g).nodes[n].blocks|
    {
      hide CacheOk, FreeListOk, ContentOf, CutKeys, BlocksOf, CanCut, IsRemoved, Without;
      CutReady(nodes, g, lru.order, clock, bs, nextId, count, numNodes, n, 0);
      var blocks := nodes[n].blocks;
      ghost var nodes0, order0, size := nodes, lru.order, numNodes;
      UnlinkInPlace(n);
      lru.Remove(n);
      numNodes := numNodes - 1;
      g := RemoveOk(nodes0, nodes, g, order0, lru.order, clock, bs, nextId, count, count', size, numNodes, n);
      pool.DecRefs(blocks);
    }

    method UnlinkInPlace(n: int)
      requires n in nodes && nodes[n].parent in nodes && nodes[n].parent != n
      modifies this`nodes
      ensures IsRemoved(old(nodes), nodes, n)
    {
      var parent := nodes[n].parent;
      nodes := nodes[parent := nodes[parent].(children := nodes[parent].children - {n})];
      nodes := nodes - {n};
    }

    /** A run of cuts since `M0`, `counts0` and `free0` has dropped `d` blocks and left `size`. */
    ghost predicate Cutting(pool: BlockAllocator, M0: Content, counts0: multiset<int>, free0: int, size: int, d: int)
      reads this, lru, pool, pool.freeBlocks
    {
      ValidBut(size) && pool.Valid() && Dropping(M0, counts0, free0, ContentOf(g), pool.counts, pool.numFree, d)
    }

    /** Takes some, but not all, of the unshared tail of a leaf. */
    method CutTail(n: int, taken: nat, pool: BlockAllocator, ghost M0: Content, ghost counts0: multiset<int>,
                   ghost free0: int,
                   ghost size: int, ghost size': int, ghost d: int, ghost d': int)
      requires Cutting(pool, M0, counts0, free0, size, d) && n in g.nodes && n != ROOT && g.nodes[n].children == {}
      requires 0 < taken < |g.nodes[n].blocks| && size' == size - taken && d' == d + taken
      requires FirstUnshared(g.nodes[n].blocks, pool.counts) + taken <= |g.nodes[n].blocks|
      modifies this`nodes, this`g, pool, pool.freeBlocks
      ensures Cutting(pool, M0, counts0, free0, size', d')
      ensures KidsOf(g) == KidsOf(old(g)) && TimesOf(g) == TimesOf(old(g))
      ensures BlocksOf(g) == BlocksOf(old(g))[n := old(g).nodes[n].blocks[..|old(g).nodes[n].blocks| - taken]]
    {
      hide CacheOk, FreeListOk, Dropping, ContentOf, CutKeys, BlocksOf, KidsOf, TimesOf, FirstUnshared, NoDup;
      ghost var g0, counts, free := g, pool.counts, pool.numFree;
      NodeFacts(nodes, g, lru.order, clock, bs, nextId, size, numNodes, M0, counts0, free0, counts, free, d, n);
      var k := |nodes[n].blocks| - taken;
      CutReady(nodes, g, lru.order, clock, bs, nextId, size, numNodes, n, k);
      TrimNode(n, k, pool, size, size');
      DropMore(M0, counts0, free0, g0, counts, free, pool.numFree, d, d', n, k);
    }

    /** Takes from one node of the list what the rest of the budget allows; a leaf that is to lose
        every block is left for the end of the pass. */
    method StripLeaf(n: int, left: nat, pool: BlockAllocator,
                     ghost M0: Content, ghost counts0: multiset<int>, ghost free0: int, ghost size: int, ghost d: int)
      returns (taken: nat, whole: bool, ghost size': int, ghost d': int)
      requires Cutting(pool, M0, counts0, free0, size, d) && n in g.nodes && n != ROOT
      modifies this`nodes, this`g, pool, pool.freeBlocks
      ensures taken == Min(left, Evictable(BlocksOf(old(g)), KidsOf(old(g)), counts0, n))
      ensures var blocks := BlocksOf(old(g))[n];
        taken == if KidsOf(old(g))[n] == {} then Min(left, |blocks| - FirstUnshared(blocks, counts0)) else 0
      ensures whole <==> 0 < taken == |BlocksOf(old(g))[n]|
      ensures d' == (if whole then d else d + taken) && size' == size - (d' - d)
      ensures Cutting(pool, M0, counts0, free0, size', d')
      ensures KidsOf(g) == KidsOf(old(g)) && TimesOf(g) == TimesOf(old(g))
      ensures StripEffect(BlocksOf(old(g)), BlocksOf(g), n, taken)
      ensures whole ==> KidsOf(old(g))[n] == {} && FirstUnshared(BlocksOf(old(g))[n], counts0) == 0
    {
      hide CacheOk, FreeListOk, Dropping, TimesOf, ContentOf, NoDup;
      NodeFacts(nodes, g, lru.order, clock, bs, nextId, size, numNodes, M0, counts0, free0, pool.counts, pool.numFree,
                d, n);
      var node := nodes[n];
      ghost var blk, kids := BlocksOf(g), KidsOf(g);
      assert blk[n] == node.blocks && kids[n] == node.children;
      taken, whole, size', d' := 0, false, size, d;
      if node.children == {} {
        var start := ScanShared(node.blocks, pool.counts);
        taken := Min(left, |node.blocks| - start);
        whole := taken == |node.blocks|;
        if !whole && taken > 0 {
          size', d' := size - taken, d + taken;
          CutTail(n, taken, pool, M0, counts0, free0, size, size', d, d');
        }
      }
    }

    /** A pass has visited the first `i` nodes of the list: `total` blocks are promised, of which `d` are
        gone and the rest are those of the `marked` nodes. */
    ghost predicate Scanning(pool: BlockAllocator, M0: Content, counts0: multiset<int>, free0: int,
                             blk0: map<int, seq<int>>, kids: map<int, set<int>>, budget: nat,
                             i: int, total: int, marked: seq<int>, size: int, d: int)
      reads this, lru, pool, pool.freeBlocks
    {
      && 0 <= i <= |lru.order| && size == numBlocks - d && Cutting(pool, M0, counts0, free0, size, d)
      && Visited(blk0, kids, counts0, lru.order, budget, i, marked, BlocksOf(g))
      && total == Min(budget, Offered(blk0, kids, counts0, lru.order[..i])) && total == d + SumLen(blk0, marked)
      && KidsOf(g) == kids && Marked(marked, blk0, BlocksOf(g), kids, counts0)
    }

    method MarkStep(node: int, budget: nat, total: nat, marked: seq<int>, pool: BlockAllocator,
                    ghost M0: Content, ghost counts0: multiset<int>, ghost free0: int,
                    ghost blk0: map<int, seq<int>>, ghost kids: map<int, set<int>>, ghost i: nat, ghost size: int,
                    ghost d: int)
      returns (total': nat, marked': seq<int>, ghost size': int, ghost d': int)
      requires Scanning(pool, M0, counts0, free0, blk0, kids, budget, i, total, marked, size, d)
      requires i < |lru.order| && node == lru.order[i] && total < budget
      modifies this`nodes, this`g, pool, pool.freeBlocks
      ensures Scanning(pool, M0, counts0, free0, blk0, kids, budget, i + 1, total', marked', size', d')
      ensures TimesOf(g) == TimesOf(old(g))
    {
      ghost var blk := BlocksOf(g);
      OrderFacts(nodes, g, lru.order, clock, bs, nextId, size, numNodes, i);
      var taken, whole;
      taken, whole, size', d' := StripLeaf(node, budget - total, pool, M0, counts0, free0, size, d);
      ScanNext(blk0, kids, counts0, lru.order, budget, i, total, marked, d, blk, taken, whole, BlocksOf(g));
      total', marked' := total + taken, marked;
      if whole {
        marked' := marked + [node];
      }
    }

    /** The check that access times do not decrease along the list, which never fails. */
    method CheckTime(node: int, preTime: int, ghost i: nat, ghost size: int, ghost times: map<int, int>)
      returns (time: int)
      requires ValidBut(size) && i < |lru.order| && node == lru.order[i] && TimesOf(g) == times
        && PrevTime(times, lru.order, i, preTime)
      ensures preTime <= time && PrevTime(times, lru.order, i + 1, time)
    {
      OrderFacts(nodes, g, lru.order, clock, bs, nextId, size, numNodes, i);
      time := nodes[node].time;
    }

    /** One round of the scan: checks the time of the node, marks it, and moves on along the list. */
    method MarkRound(node: int, preTime: int, budget: nat, total: nat, marked: seq<int>, pool: BlockAllocator,
                     ghost M0: Content, ghost counts0: multiset<int>, ghost free0: int,
                     ghost blk0: map<int, seq<int>>, ghost kids: map<int, set<int>>, ghost times: map<int, int>,
                     ghost i: nat, ghost size: int, ghost d: int)
      returns (node': int, preTime': int, total': nat, marked': seq<int>, ghost size': int, ghost d': int)
      requires Scanning(pool, M0, counts0, free0, blk0, kids, budget, i, total, marked, size, d)
      requires i < |lru.order| && node == Full(lru.order)[i + 1] && total < budget
      requires TimesOf(g) == times && PrevTime(times, lru.order, i, preTime)
      modifies this`nodes, this`g, pool, pool.freeBlocks
      ensures Scanning(pool, M0, counts0, free0, blk0, kids, budget, i + 1, total', marked', size', d')
      ensures node' == Full(lru.order)[i + 2] && (node' == BACK <==> i + 1 == |lru.order|)
      ensures TimesOf(g) == times && PrevTime(times, lru.order, i + 1, preTime')
    {
      preTime' := CheckTime(node, preTime, i, size, times);
      total', marked', size', d' :=
        MarkStep(node, budget, total, marked, pool, M0, counts0, free0, blk0, kids, i, size, d);
      node' := lru.Next(node, i + 1);
    }

    /** The scan of a pass, from the least recently used node on; access times never decrease. */
    method MarkPass(budget: nat, pool: BlockAllocator, ghost M0: Content, ghost counts0: multiset<int>,
                    ghost free0: int)
      returns (total: nat, marked: seq<int>, ghost size: int, ghost d: int)
      requires Cutting(pool, M0, counts0, free0, numBlocks, 0) && counts0 == pool.counts
      modifies this`nodes, this`g, pool, pool.freeBlocks
      ensures Scanning(pool, M0, counts0, free0, BlocksOf(old(g)), KidsOf(old(g)), budget, |lru.order|, total, marked,
                       size, d)
    {
      hide CacheOk, Dropping, FreeListOk, Visited, Marked, Evictable, BlocksOf, KidsOf, TimesOf;
      total, marked, size, d := 0, [], numBlocks, 0;
      ghost var blk0, kids, times := BlocksOf(g), KidsOf(g), TimesOf(g);
      ghost var i := 0;
      ScanStart(nodes, g, lru.order, clock, bs, nextId, numBlocks, numNodes, counts0, budget);
      var node := lru.Next(FRONT, 0);
      var preTime := 0;
      while total < budget && node != BACK
        invariant Scanning(pool, M0, counts0, free0, blk0, kids, budget, i, total, marked, size, d)
        invariant node == Full(lru.order)[i + 1] && (node == BACK <==> i == |lru.order|)
        invariant TimesOf(g) == times && PrevTime(times, lru.order, i, preTime)
        decreases |lru.order| - i
      {
        node, preTime, total, marked, size, d :=
          MarkRound(node, preTime, budget, total, marked, pool, M0, counts0, free0, blk0, kids, times, i, size, d);
        i := i + 1;
      }
      VisitRest(blk0, kids, counts0, lru.order, budget, i, marked, BlocksOf(g));
      assert lru.order[..|lru.order|] == lru.order;
    }

    /** Releases one marked leaf. */
    method ReleaseStep(n: int, pool: BlockAllocator, ghost M0: Content, ghost counts0: multiset<int>, ghost free0: int,
                       ghost size: int, ghost d: int)
      returns (ghost size': int, ghost d': int)
      requires Cutting(pool, M0, counts0, free0, size, d) && n in g.nodes && n != ROOT && g.nodes[n].children == {}
      requires FirstUnshared(g.nodes[n].blocks, counts0) == 0
      modifies this`nodes, this`g, this`numNodes, lru, pool, pool.freeBlocks
      ensures d' == d + |old(g).nodes[n].blocks| && size' == size - |old(g).nodes[n].blocks|
      ensures Cutting(pool, M0, counts0, free0, size', d')
      ensures BlocksOf(g) == BlocksOf(old(g)) - {n} && KidsOf(g).Keys == KidsOf(old(g)).Keys - {n}
      ensures forall m :: m in KidsOf(g) && KidsOf(old(g))[m] == {} ==> KidsOf(g)[m] == {}
    {
      ghost var g0, counts, free := g, pool.counts, pool.numFree;
      NodeFacts(nodes, g, lru.order, clock, bs, nextId, size, numNodes, M0, counts0, free0, counts, free, d, n);
      CutReady(nodes, g, lru.order, clock, bs, nextId, size, numNodes, n, 0);
      ghost var blocks := g.nodes[n].blocks;
      size', d' := size - |blocks|, d + |blocks|;
      ReleaseNode(n, pool, size, size');
      assert blocks[0..] == blocks;
      DropMore(M0, counts0, free0, g0, counts, free, pool.numFree, d, d', n, 0);
    }

    /** The end of a pass: the marked leaves are unlinked. */
    method ReleaseMarked(marked: seq<int>, pool: BlockAllocator, ghost M0: Content, ghost counts0: multiset<int>,
                         ghost free0: int,
                         ghost blk0: map<int, seq<int>>, ghost kids: map<int, set<int>>, ghost budget: nat,
                         ghost size0: int, ghost d0: int)
      returns (ghost size: int, ghost d: int)
      requires Cutting(pool, M0, counts0, free0, size0, d0)
      requires Visited(blk0, kids, counts0, lru.order, budget, |lru.order|, marked, BlocksOf(g))
      requires Marked(marked, blk0, BlocksOf(g), KidsOf(g), counts0)
      modifies this`nodes, this`g, this`numNodes, lru, pool, pool.freeBlocks
      ensures d == d0 + SumLen(blk0, marked) && size == size0 - SumLen(blk0, marked)
        && Cutting(pool, M0, counts0, free0, size, d)
      ensures PassLaw(blk0, kids, counts0, old(lru.order), budget, BlocksOf(g))
    {
      ghost var order := lru.order;
      size, d := size0, d0;
      ReleaseStart(blk0, kids, counts0, order, budget, marked, BlocksOf(g));
      assert marked[0..] == marked;
      for t := 0 to |marked|
        invariant Cutting(pool, M0, counts0, free0, size, d)
          && d + SumLen(blk0, marked[t..]) == d0 + SumLen(blk0, marked) && size + d == size0 + d0
        invariant Releasing(blk0, kids, counts0, order, budget, marked[t..], BlocksOf(g))
        invariant Marked(marked[t..], blk0, BlocksOf(g), KidsOf(g), counts0)
      {
        ghost var blk, kids' := BlocksOf(g), KidsOf(g);
        assert marked[t] == marked[t..][0] && marked[t] in marked[t..] && marked[t..][1..] == marked[t + 1..];
        size, d := ReleaseStep(marked[t], pool, M0, counts0, free0, size, d);
        ReleaseNext(blk0, kids, counts0, order, budget, marked, t, blk, kids', BlocksOf(g), KidsOf(g));
      }
      assert marked[|marked|..] == [];
      ReleaseEnd(blk0, kids, counts0, order, budget, BlocksOf(g));
    }

    /** One pass: in LRU order every leaf loses its unshared tail until `budget` blocks are found. */
    method EvictHelper(budget: nat, pool: BlockAllocator) returns (total: nat)
      requires Valid() && pool.Valid() && Injective(View()) && forall k :: k in View() ==> View()[k] in pool.counts
      modifies this, lru, pool, pool.freeBlocks
      ensures Valid() && pool.Valid() && clock == old(clock)
      ensures Dropping(old(View()), old(pool.counts), old(pool.numFree), View(), pool.counts, pool.numFree, total)
      ensures total == Min(budget, Offered(BlocksOf(old(g)), KidsOf(old(g)), old(pool.counts), old(lru.order)))
      ensures PassLaw(BlocksOf(old(g)), KidsOf(old(g)), old(pool.counts), old(lru.order), budget, BlocksOf(g))
      ensures StrippedInOrder(BlocksOf(old(g)), KidsOf(old(g)), old(pool.counts), old(lru.order), budget, total,
                              BlocksOf(g))
    {
      hide CacheOk, Dropping, FreeListOk, Visited, Marked, PassLaw, SumLen, StrippedInOrder;
      ghost var M0, counts0, free0 := View(), pool.counts, pool.numFree;
      DroppingNothing(M0, counts0, free0);
      ghost var blk0, kids, size, d := BlocksOf(g), KidsOf(g), 0, 0;
      var marked;
      total, marked, size, d := MarkPass(budget, pool, M0, counts0, free0);
      assert lru.order[..|lru.order|] == lru.order;
      size, d := ReleaseMarked(marked, pool, M0, counts0, free0, blk0, kids, budget, size, d);
      assert d == total && size == numBlocks - total;
      numBlocks := numBlocks - total;
      PassInOrder(blk0, kids, counts0, old(lru.order), budget, total, BlocksOf(g));
    }

    /** One more pass of an eviction that has removed `sofar` blocks. */
    method EvictRound(n: nat, sofar: nat, pool: BlockAllocator, ghost M0: Content, ghost counts0: multiset<int>,
                      ghost free0: int)
      returns (evicted: nat)
      requires Cutting(pool, M0, counts0, free0, numBlocks, sofar) && sofar < n
      modifies this, lru, pool, pool.freeBlocks
      ensures sofar <= evicted <= n && clock == old(clock) && Cutting(pool, M0, counts0, free0, numBlocks, evicted)
      ensures evicted == sofar && PathClosed(M0, counts0) ==> evicted == |Unshared(M0, counts0)|
      ensures PathClosed(M0, counts0) ==> evicted <= |Unshared(M0, counts0)|
    {
      ghost var M, counts, free := View(), pool.counts, pool.numFree;
      DroppingFacts(M0, counts0, free0, M, counts, free, sofar);
      if Offered(BlocksOf(g), KidsOf(g), counts, lru.order) == 0 {
        EvictDone(nodes, g, lru.order, clock, bs, nextId, numBlocks, numNodes, M0, counts0, free0, counts, free, sofar);
      }
      var more := EvictHelper(n - sofar, pool);
      evicted := sofar + more;
      DroppingTwice(M0, counts0, free0, M, counts, free, sofar, View(), pool.counts, pool.numFree, more, evicted);
      DroppingFacts(M0, counts0, free0, View(), pool.counts, pool.numFree, evicted);
    }

    /** Passes until enough blocks are gone or a pass finds none.  If the path closure holds, exactly
        min(`n`, the number of unshared cached blocks) are evicted, and each frees an id. */
    method Evict(n: nat, pool: BlockAllocator) returns (evicted: nat)
      requires Valid() && pool.Valid() && Injective(View()) && forall k :: k in View() ==> View()[k] in pool.counts
      modifies this, lru, pool, pool.freeBlocks
      ensures Valid() && pool.Valid() && evicted <= n && clock == old(clock)
      ensures Dropping(old(View()), old(pool.counts), old(pool.numFree), View(), pool.counts, pool.numFree, evicted)
      ensures PathClosed(old(View()), old(pool.counts)) ==> evicted == Min(n, |Unshared(old(View()), old(pool.counts))|)
    {
      ghost var M0, counts0, free0 := View(), pool.counts, pool.numFree;
      DroppingNothing(M0, counts0, free0);
      evicted := 0;
      var more := true;
      while evicted < n && more
        invariant evicted <= n && clock == old(clock) && Cutting(pool, M0, counts0, free0, numBlocks, evicted)
        invariant PathClosed(M0, counts0) ==>
          evicted <= |Unshared(M0, counts0)| && (more || evicted == |Unshared(M0, counts0)|)
        decreases if more then n - evicted + 1 else 0
      {
        var evicted' := EvictRound(n, evicted, pool, M0, counts0, free0);
        more := evicted' > evicted;
        evicted := evicted';
      }
    }
  }

  lemma WalkStarts(nodes: map<int, Node>, g: Radix, order: seq<int>, clock: int, bs: nat, nextId: int, numBlocks: int,
                   numNodes: int, q: Key, now: int)
    requires CacheOk(nodes, g, order, clock, bs, nextId, numBlocks, numNodes)
    ensures Shape(g) && Accessed(Stamps(g), Stamps(g), q, 0, now)
  {
    assert Unfold(true);
    AccessedNone(g, q, now);
  }

  lemma WalkEnds(g: Radix, stamps: map<int, Stamp>, q: Key, n: nat, now: int)
    requires Shape(g) && Accessed(Stamps(g), stamps, q, n, now) && Exhausted(ContentOf(g), q, n)
    ensures Accessed(Stamps(g), stamps, q, |q|, now)
  {
    AccessedAll(g, stamps, q, n, now);
  }

  lemma DroppingFacts(M0: Content, counts0: multiset<int>, free0: int, M: Content, counts: multiset<int>, free: int,
                      d: int)
    requires Dropping(M0, counts0, free0, M, counts, free, d)
    ensures Injective(M) && forall k :: k in M ==> M[k] in counts
    ensures PathClosed(M0, counts0) ==> d <= |Unshared(M0, counts0)|
  {
    assert Unfold(true);
    SubInjective(M0, M);
  }

  /** A pass that finds nothing has left nothing unshared. */
  lemma EvictDone(nodes: map<int, Node>, g: Radix, order: seq<int>, clock: int, bs: nat, nextId: int, numBlocks: int,
                  numNodes: int,
                  M0: Content, counts0: multiset<int>, free0: int, counts: multiset<int>, free: int, d: int)
    requires CacheOk(nodes, g, order, clock, bs, nextId, numBlocks, numNodes)
    requires Dropping(M0, counts0, free0, ContentOf(g), counts, free, d)
    requires Offered(BlocksOf(g), KidsOf(g), counts, order) == 0
    ensures PathClosed(M0, counts0) ==> d == |Unshared(M0, counts0)|
  {
    assert Unfold(true);
    if PathClosed(M0, counts0) {
      NothingLeft(g, order, counts);
    }
  }

  /** The first `n` keys of `q` are stored. */
  ghost predicate HasKeys(M: Content, q: Key, n: nat) {
    n <= |q| && forall j :: 0 < j <= n ==> q[..j] in M
  }

  lemma HasMoreKeys(M: Content, q: Key, done: nat, hit: seq<int>)
    requires HasKeys(M, q, done) && Serves(M, q, done, hit)
    ensures HasKeys(M, q, done + |hit|)
  {
    forall j | 0 < j <= done + |hit|
      ensures q[..j] in M
    {
      if j > done {
        var b := hit[j - done - 1];
        assert Stores(M, q, done + (j - done - 1) + 1, b);
      }
    }
  }

  lemma QueryKeys(q: Key, done: nat, key: Key)
    requires done <= |q|
    ensures key in NewKeys(q[..done], q[done..]) <==> done < |key| <= |q| && key == q[..|key|]
  {
    var e, edge := q[..done], q[done..];
    if key in NewKeys(e, edge) {
      var j :| 0 < j <= |edge| && key == e + edge[..j];
      assert key == q[..done + j];
    }
    if done < |key| <= |q| && key == q[..|key|] {
      assert key == e + edge[..|key| - done];
    }
  }

  /** Adding the missing tail of a query is the same as adding each of its missing keys. */
  lemma InsertIs(M: Content, q: Key, done: nat, blocks: seq<int>)
    requires HasKeys(M, q, done) && |q| == |blocks|
    ensures AddContent(M, q[..done], q[done..], blocks[done..]) == AddContent(M, [], q, blocks)
  {
    assert q[..0] == [] && q[0..] == q;
    var A, B := AddContent(M, q[..done], q[done..], blocks[done..]), AddContent(M, [], q, blocks);
    forall key
      ensures key in A <==> key in B
      ensures key in A ==> A[key] == B[key]
    {
      QueryKeys(q, done, key);
      QueryKeys(q, 0, key);
    }
  }

  lemma InsertNothing(M: Content, q: Key, blocks: seq<int>)
    requires HasKeys(M, q, |q|) && |q| == |blocks|
    ensures AddContent(M, [], q, blocks) == M && FirstStored(M, q, |q|)
  {
    assert q[..0] == [] && q[0..] == q;
    forall key | key in NewKeys([], q)
      ensures key in M
    {
      QueryKeys(q, 0, key);
    }
  }

  /** Of the keys of `q` exactly the first `r` were stored in `M`. */
  ghost predicate FirstStored(M: Content, q: Key, r: nat) {
    r <= |q| && forall j :: 0 < j <= |q| ==> (q[..j] in M <==> j <= r)
  }

  lemma TailMissing(M: Content, q: Key, done: nat)
    requires HasKeys(M, q, done) && NewKeys(q[..done], q[done..]) !! M.Keys
    ensures FirstStored(M, q, done)
  {
    forall j | done < j <= |q|
      ensures q[..j] !in M
    {
      QueryKeys(q, done, q[..j]);
    }
  }

  lemma ServedLive(M: Content, q: Key, done: nat, hit: seq<int>, counts: multiset<int>)
    requires Serves(M, q, done, hit) && forall k :: k in M ==> M[k] in counts
    ensures forall b :: b in hit ==> b in counts
  {
    forall b | b in hit
      ensures b in counts
    {
      var i :| 0 <= i < |hit| && hit[i] == b;
      assert Stores(M, q, done + i + 1, hit[i]);
    }
  }
}
