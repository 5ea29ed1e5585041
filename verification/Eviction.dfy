/** What eviction may take (src/memory/prefix_cache.cpp, `evict` and `evict_helper`): the cached
    blocks that nobody but the cache holds. */
module Eviction {
  import opened Collections
  import opened RadixTree

  ghost predicate SameBlock(M: Content, k: Key, k': Key) {
    k in M && k' in M && M[k] == M[k']
  }

  /** No block is stored under two keys. */
  ghost predicate Injective(M: Content) {
    forall k, k' :: SameBlock(M, k, k') ==> k == k'
  }

  lemma SubInjective(M0: Content, M: Content)
    requires Injective(M0) && M.Keys <= M0.Keys && forall k :: k in M ==> M[k] == M0[k]
    ensures Injective(M)
  {
    forall k, k' | SameBlock(M, k, k')
      ensures k == k'
    {
      assert SameBlock(M0, k, k');
    }
  }

  /** Whoever holds a cached block holds every earlier block on its path. */
  ghost predicate PathClosed(M: Content, counts: multiset<int>) {
    forall k, j :: k in M && 0 < j <= |k| && k[..j] in M && counts[M[k]] > 1 ==> counts[M[k[..j]]] > 1
  }

  /** The keys whose block only the cache holds. */
  ghost function Unshared(M: Content, counts: multiset<int>): set<Key> {
    set k | k in M && counts[M[k]] <= 1
  }

  /** The scan for the first block that is not shared. */
  function FirstUnshared(blocks: seq<int>, counts: multiset<int>): (i: nat)
    ensures i <= |blocks|
    ensures forall j :: 0 <= j < i ==> counts[blocks[j]] > 1
    ensures i < |blocks| ==> counts[blocks[i]] <= 1
  {
    if blocks == [] || counts[blocks[0]] <= 1 then 0 else 1 + FirstUnshared(blocks[1..], counts)
  }

  /** The scan as the source runs it. */
  method ScanShared(blocks: seq<int>, counts: multiset<int>) returns (i: nat)
    ensures i == FirstUnshared(blocks, counts)
  {
    i := 0;
    while i < |blocks| && counts[blocks[i]] > 1
      invariant i <= |blocks| && FirstUnshared(blocks, counts) == i + FirstUnshared(blocks[i..], counts)
    {
      assert blocks[i..][1..] == blocks[i + 1..];
      i := i + 1;
    }
  }

  /** The `i`-th key of a node, counted from 0. */
  ghost function NthKey(n: RNode, i: nat): Key
    requires i < |n.edge|
  {
    (n.start + n.edge)[..|n.start| + i + 1]
  }

  lemma NthKeyStored(r: Radix, n: int, i: nat)
    requires Shape(r) && n in r.nodes && i < |r.nodes[n].edge|
    ensures |r.nodes[n].blocks| == |r.nodes[n].edge|
    ensures NthKey(r.nodes[n], i) in r.home && r.home[NthKey(r.nodes[n], i)] == n
    ensures ContentOf(r)[NthKey(r.nodes[n], i)] == r.nodes[n].blocks[i]
    ensures |NthKey(r.nodes[n], i)| == |r.nodes[n].start| + i + 1
  {
    assert NodeOk(r.nodes, n);
    assert Covers(r.nodes[n], NthKey(r.nodes[n], i));
  }

  /** Within a node the shared blocks come first. */
  lemma SharedFirst(r: Radix, counts: multiset<int>, n: int, i: nat, j: nat)
    requires Shape(r) && n in r.nodes && PathClosed(ContentOf(r), counts)
    requires i <= j < |r.nodes[n].edge| == |r.nodes[n].blocks| && counts[r.nodes[n].blocks[i]] <= 1
    ensures counts[r.nodes[n].blocks[j]] <= 1
  {
    NthKeyStored(r, n, i);
    NthKeyStored(r, n, j);
    var k := NthKey(r.nodes[n], j);
    assert k[..|r.nodes[n].start| + i + 1] == NthKey(r.nodes[n], i);
  }

  /** The blocks of a node are pairwise different. */
  lemma NodeBlocksNoDup(r: Radix, n: int)
    requires Shape(r) && n in r.nodes && n != ROOT && Injective(ContentOf(r))
    ensures NoDup(r.nodes[n].blocks)
  {
    assert NodeOk(r.nodes, n);
    var blocks := r.nodes[n].blocks;
    forall i, j
      ensures Differ(blocks, i, j)
    {
      if 0 <= i < j < |blocks| {
        NthKeyStored(r, n, i);
        NthKeyStored(r, n, j);
        assert !SameBlock(ContentOf(r), NthKey(r.nodes[n], i), NthKey(r.nodes[n], j));
      }
    }
  }

  lemma {:induction false} LongestKey(s: set<Key>) returns (k: Key)
    requires s != {}
    ensures k in s && forall k' :: k' in s ==> |k'| <= |k|
    decreases |s|
  {
    k := AnyOf(s);
    var first, rest := k, s - {k};
    assert forall x :: x in s ==> x == first || x in rest;
    if rest != {} {
      var k' := LongestKey(rest);
      if |k'| > |k| {
        k := k';
      }
    }
  }

  /** Below an unshared node end everything is unshared. */
  lemma ChildUnshared(r: Radix, counts: multiset<int>, n: int, c: int)
    requires Shape(r) && PathClosed(ContentOf(r), counts) && n in r.nodes && c in r.nodes[n].children
    requires |r.nodes[n].edge| == |r.nodes[n].blocks| > 0 && counts[r.nodes[n].blocks[|r.nodes[n].blocks| - 1]] <= 1
    ensures exists k :: k in Unshared(ContentOf(r), counts) && |k| > |r.nodes[n].End()|
  {
    assert NodeOk(r.nodes, c);
    NthKeyStored(r, n, |r.nodes[n].edge| - 1);
    NthKeyStored(r, c, 0);
    var k := NthKey(r.nodes[c], 0);
    assert k[..|r.nodes[n].End()|] == NthKey(r.nodes[n], |r.nodes[n].edge| - 1);
    assert k in Unshared(ContentOf(r), counts);
  }

  /** A longest unshared key ends a leaf. */
  lemma LongestIsLeafEnd(r: Radix, counts: multiset<int>, k: Key) returns (n: int)
    requires Shape(r) && PathClosed(ContentOf(r), counts) && k in Unshared(ContentOf(r), counts)
    requires forall k' :: k' in Unshared(ContentOf(r), counts) ==> |k'| <= |k|
    ensures n in r.nodes && n != ROOT && r.nodes[n].children == {}
    ensures FirstUnshared(r.nodes[n].blocks, counts) < |r.nodes[n].blocks|
  {
    n := r.home[k];
    assert Covers(r.nodes[n], k) && NodeOk(r.nodes, n);
    var node := r.nodes[n];
    var last := |node.edge| - 1;
    SharedFirst(r, counts, n, |k| - |node.start| - 1, last);
    NthKeyStored(r, n, last);
    assert NthKey(node, last) in Unshared(ContentOf(r), counts);
    if node.children != {} {
      var c := AnyOf(node.children);
      ChildUnshared(r, counts, n, c);
    }
  }

  /** When every leaf is shared to its end, nothing in the cache is unshared. */
  lemma NothingUnshared(r: Radix, counts: multiset<int>)
    requires Shape(r) && PathClosed(ContentOf(r), counts)
    requires forall n :: n in r.nodes && n != ROOT && r.nodes[n].children == {}
               ==> FirstUnshared(r.nodes[n].blocks, counts) == |r.nodes[n].blocks|
    ensures Unshared(ContentOf(r), counts) == {}
  {
    if Unshared(ContentOf(r), counts) != {} {
      var k := LongestKey(Unshared(ContentOf(r), counts));
      var n := LongestIsLeafEnd(r, counts, k);
    }
  }

  // ---------------------------------------------------------------- cutting

  /** The dropped blocks are those of the cut keys. */
  lemma CutBlocks(r: Radix, n: int, k: nat)
    requires CanCut(r, n, k) && Injective(ContentOf(r))
    ensures forall key :: key in CutKeys(r.nodes[n], k) ==> key in r.home && ContentOf(r)[key] in r.nodes[n].blocks[k..]
    ensures forall key :: key in r.home && key !in CutKeys(r.nodes[n], k) ==>
      ContentOf(r)[key] !in r.nodes[n].blocks[k..]
  {
    var node := r.nodes[n];
    forall key | key in CutKeys(node, k)
      ensures key in r.home && ContentOf(r)[key] in node.blocks[k..]
    {
      CutKeysStored(r, n, k, key);
      assert ContentOf(r)[key] == node.blocks[k..][|key| - |node.start| - 1 - k];
    }
    forall key | key in r.home && key !in CutKeys(node, k)
      ensures ContentOf(r)[key] !in node.blocks[k..]
    {
      if ContentOf(r)[key] in node.blocks[k..] {
        var i :| 0 <= i < |node.blocks[k..]| && node.blocks[k..][i] == ContentOf(r)[key];
        NthKeyStored(r, n, k + i);
        CutKeysStored(r, n, k, key);
        assert SameBlock(ContentOf(r), key, NthKey(node, k + i));
      }
    }
  }

  /** Dropping the handles of a cut leaves the counters of what stays cached alone. */
  lemma CutCounts(r: Radix, n: int, k: nat, counts: multiset<int>)
    requires CanCut(r, n, k) && Injective(ContentOf(r))
    requires forall key :: key in r.home ==> ContentOf(r)[key] in counts
    ensures var M := ContentOf(r); var M' := M - CutKeys(r.nodes[n], k);
      var counts' := counts - multiset(r.nodes[n].blocks[k..]);
      && Injective(M')
      && (forall key :: key in M' ==> counts'[M'[key]] == counts[M[key]])
      && (forall key :: key in M' ==> M'[key] in counts')
  {
    var M, dropped := ContentOf(r), r.nodes[n].blocks[k..];
    CutBlocks(r, n, k);
    SubInjective(M, M - CutKeys(r.nodes[n], k));
    forall key | key in M - CutKeys(r.nodes[n], k)
      ensures (counts - multiset(dropped))[M[key]] == counts[M[key]]
    {
      assert M[key] !in dropped;
      assert multiset(dropped)[M[key]] == 0;
    }
  }

  /** Cutting from the first unshared block on takes unshared keys only, and keeps the closure. */
  lemma CutUnshared(r: Radix, n: int, k: nat, counts: multiset<int>)
    requires CanCut(r, n, k) && Injective(ContentOf(r)) && PathClosed(ContentOf(r), counts)
    requires forall key :: key in r.home ==> ContentOf(r)[key] in counts
    requires FirstUnshared(r.nodes[n].blocks, counts) <= k
    ensures var M := ContentOf(r); var M' := M - CutKeys(r.nodes[n], k);
      var counts' := counts - multiset(r.nodes[n].blocks[k..]);
      && PathClosed(M', counts')
      && CutKeys(r.nodes[n], k) <= Unshared(M, counts)
      && Unshared(M', counts') == Unshared(M, counts) - CutKeys(r.nodes[n], k)
    ensures forall b :: b in r.nodes[n].blocks[k..] ==> counts[b] == 1
  {
    var node, M := r.nodes[n], ContentOf(r);
    CutCounts(r, n, k, counts);
    forall i | k <= i < |node.blocks|
      ensures counts[node.blocks[i]] == 1
    {
      SharedFirst(r, counts, n, FirstUnshared(node.blocks, counts), i);
      NthKeyStored(r, n, i);
    }
    forall key | key in CutKeys(node, k)
      ensures key in Unshared(M, counts)
    {
      CutKeysStored(r, n, k, key);
    }
  }

  // ---------------------------------------------------------------- a run of cuts

  ghost predicate Holds(M: Content, b: int) {
    b in M.Values
  }

  /** From `M0` with counters `counts0` some keys were dropped, `d` in all: each dropped block lost the
      cache's handle and no other counter changed.  If the path closure held, only unshared keys were
      dropped and each of them freed an id. */
  ghost predicate Dropping(M0: Content, counts0: multiset<int>, free0: int,
                           M: Content, counts: multiset<int>, free: int, d: int) {
    forall u {:trigger Unfold(u)} :: Unfold(u) ==> DroppingInv(M0, counts0, free0, M, counts, free, d)
  }

  ghost predicate DroppingInv(M0: Content, counts0: multiset<int>, free0: int,
                              M: Content, counts: multiset<int>, free: int, d: int) {
    && Injective(M0) && M.Keys <= M0.Keys && (forall k :: k in M ==> M[k] == M0[k])
    && |M0| - |M| == d
    && (forall k :: k in M ==> M[k] in counts)
    && (forall b :: counts[b] + (if Holds(M0, b) && !Holds(M, b) then 1 else 0) == counts0[b])
    && (PathClosed(M0, counts0) ==>
          && PathClosed(M, counts) && Unshared(M, counts) <= Unshared(M0, counts0)
          && M0.Keys - M.Keys <= Unshared(M0, counts0)
          && |Unshared(M0, counts0)| - |Unshared(M, counts)| == d && free == free0 + d)
  }

  lemma DroppingNothing(M: Content, counts: multiset<int>, free: int)
    requires Injective(M) && forall k :: k in M ==> M[k] in counts
    ensures Dropping(M, counts, free, M, counts, free, 0)
  {
  }

  /** Cached blocks keep their counters while others are dropped. */
  lemma DroppingKeeps(M0: Content, counts0: multiset<int>, free0: int, M: Content, counts: multiset<int>, free: int,
                      d: int, k: Key)
    requires Dropping(M0, counts0, free0, M, counts, free, d) && k in M
    ensures counts[M[k]] == counts0[M[k]]
  {
    assert Unfold(true);
    assert M[k] in M.Values;
  }

  lemma DropCounts(M0: Content, counts0: multiset<int>, free0: int, r: Radix, counts: multiset<int>, free: int, d: int,
                   n: int, k: nat, b: int)
    requires CanCut(r, n, k) && NoDup(r.nodes[n].blocks) && Dropping(M0, counts0, free0, ContentOf(r), counts, free, d)
    ensures var M' := ContentOf(r) - CutKeys(r.nodes[n], k);
      (counts - multiset(r.nodes[n].blocks[k..]))[b] + (if Holds(M0, b) && !Holds(M', b) then 1 else 0) == counts0[b]
  {
    assert Unfold(true);
    var M, dropped := ContentOf(r), r.nodes[n].blocks[k..];
    var M' := M - CutKeys(r.nodes[n], k);
    SubInjective(M0, M);
    assert dropped == r.nodes[n].blocks[k..|r.nodes[n].blocks|];
    NoDupSlice(r.nodes[n].blocks, k, |r.nodes[n].blocks|);
    NoDupCount(dropped, b);
    CutHolds(r, n, k, b);
    assert Holds(M, b) ==> Holds(M0, b) by {
      if Holds(M, b) {
        var key :| key in M && M[key] == b;
        assert M0[key] == b;
      }
    }
  }

  /** A cut ends the cache's hold of exactly the dropped blocks. */
  lemma CutHolds(r: Radix, n: int, k: nat, b: int)
    requires CanCut(r, n, k) && Injective(ContentOf(r))
    ensures var M' := ContentOf(r) - CutKeys(r.nodes[n], k);
      if b in r.nodes[n].blocks[k..] then Holds(ContentOf(r), b) && !Holds(M', b)
        else Holds(M', b) <==> Holds(ContentOf(r), b)
  {
    var M, dropped := ContentOf(r), r.nodes[n].blocks[k..];
    var M' := M - CutKeys(r.nodes[n], k);
    CutBlocks(r, n, k);
    if b in dropped {
      var i :| 0 <= i < |dropped| && dropped[i] == b;
      NthKeyStored(r, n, k + i);
      assert M[NthKey(r.nodes[n], k + i)] == b;
    } else if Holds(M, b) {
      var key :| key in M && M[key] == b;
      assert M'[key] == b;
    }
  }

  /** One more cut of a run. */
  lemma DropMore(M0: Content, counts0: multiset<int>, free0: int, r: Radix, counts: multiset<int>, free: int,
                 free': int, d: int, d': int, n: int, k: nat)
    requires CanCut(r, n, k) && NoDup(r.nodes[n].blocks) && Dropping(M0, counts0, free0, ContentOf(r), counts, free, d)
    requires FirstUnshared(r.nodes[n].blocks, counts) <= k
    requires (forall b :: b in r.nodes[n].blocks[k..] ==> counts[b] == 1) ==> free' == free + |r.nodes[n].blocks| - k
    requires d' == d + |r.nodes[n].blocks| - k
    ensures Dropping(M0, counts0, free0, ContentOf(r) - CutKeys(r.nodes[n], k),
                     counts - multiset(r.nodes[n].blocks[k..]), free', d')
  {
    assert Unfold(true);
    var M, keys := ContentOf(r), CutKeys(r.nodes[n], k);
    var M', counts' := M - keys, counts - multiset(r.nodes[n].blocks[k..]);
    CutKeeps(r, n, k);
    SubInjective(M0, M);
    assert M'.Keys == M.Keys - keys;
    CutCounts(r, n, k, counts);
    forall b { DropCounts(M0, counts0, free0, r, counts, free, d, n, k, b); }
    if PathClosed(M0, counts0) {
      CutUnshared(r, n, k, counts);
    }
    assert DroppingInv(M0, counts0, free0, M', counts', free', d');
  }

  // ---------------------------------------------------------------- the order of a pass

  /** The blocks a pass may take from node `n`: the unshared tail of a leaf. */
  ghost function Evictable(blk: map<int, seq<int>>, kids: map<int, set<int>>, counts: multiset<int>, n: int): nat {
    if n in blk && n in kids && kids[n] == {} then |blk[n]| - FirstUnshared(blk[n], counts) else 0
  }

  /** What the nodes of a list offer together. */
  ghost function Offered(blk: map<int, seq<int>>, kids: map<int, set<int>>, counts: multiset<int>,
                         order: seq<int>): nat {
    if order == [] then 0
    else Offered(blk, kids, counts, order[..|order| - 1]) + Evictable(blk, kids, counts, order[|order| - 1])
  }

  /** What a pass with this budget takes from position `j`: the nodes before it come first. */
  ghost function Share(blk: map<int, seq<int>>, kids: map<int, set<int>>, counts: multiset<int>, order: seq<int>,
                       budget: nat, j: nat): int
    requires j < |order|
  {
    Min(budget, Offered(blk, kids, counts, order[..j + 1])) - Min(budget, Offered(blk, kids, counts, order[..j]))
  }

  lemma OfferedStep(blk: map<int, seq<int>>, kids: map<int, set<int>>, counts: multiset<int>, order: seq<int>, j: nat)
    requires j < |order|
    ensures Offered(blk, kids, counts, order[..j + 1]) == Offered(blk, kids, counts, order[..j]) + Evictable(blk, kids,
        counts, order[j])
  {
    assert order[..j + 1][..j] == order[..j];
  }

  lemma {:induction false} OfferedGrows(blk: map<int, seq<int>>, kids: map<int, set<int>>, counts: multiset<int>,
                                        order: seq<int>, i: nat, j: nat)
    requires i <= j <= |order|
    ensures Offered(blk, kids, counts, order[..i]) <= Offered(blk, kids, counts, order[..j])
    decreases j - i
  {
    if i < j {
      OfferedStep(blk, kids, counts, order, i);
      OfferedGrows(blk, kids, counts, order, i + 1, j);
    }
  }

  lemma {:induction false} FirstUnsharedSame(blocks: seq<int>, counts: multiset<int>, counts': multiset<int>)
    requires forall b :: b in blocks ==> counts[b] == counts'[b]
    ensures FirstUnshared(blocks, counts) == FirstUnshared(blocks, counts')
  {
    if blocks != [] {
      var b := blocks[0];
      assert b in blocks && counts[b] == counts'[b];
      FirstUnsharedSame(blocks[1..], counts, counts');
      assert FirstUnshared(blocks, counts) == if counts[b] <= 1 then 0 else 1 + FirstUnshared(blocks[1..], counts);
    }
  }

  /** The blocks of a node keep their counters during a run of cuts. */
  lemma NodeCountsKept(M0: Content, counts0: multiset<int>, free0: int, r: Radix, counts: multiset<int>, free: int,
                       d: int, n: int)
    requires Shape(r) && n in r.nodes && n != ROOT && Dropping(M0, counts0, free0, ContentOf(r), counts, free, d)
    ensures FirstUnshared(r.nodes[n].blocks, counts) == FirstUnshared(r.nodes[n].blocks, counts0)
    ensures forall b :: b in r.nodes[n].blocks ==> b in counts
  {
    assert Unfold(true);
    assert NodeOk(r.nodes, n);
    forall b | b in r.nodes[n].blocks
      ensures b in counts && counts[b] == counts0[b]
    {
      var i :| 0 <= i < |r.nodes[n].blocks| && r.nodes[n].blocks[i] == b;
      NthKeyStored(r, n, i);
      DroppingKeeps(M0, counts0, free0, ContentOf(r), counts, free, d, NthKey(r.nodes[n], i));
    }
    FirstUnsharedSame(r.nodes[n].blocks, counts, counts0);
  }

  /** A pass takes all blocks of position `j`. */
  ghost predicate Whole(blk: map<int, seq<int>>, kids: map<int, set<int>>, counts: multiset<int>, order: seq<int>,
                        budget: nat, j: nat)
    requires j < |order| && order[j] in blk
  {
    0 < Share(blk, kids, counts, order, budget, j) == |blk[order[j]]|
  }

  /** The blocks a pass leaves at position `j`. */
  ghost function Left(blk: map<int, seq<int>>, kids: map<int, set<int>>, counts: multiset<int>, order: seq<int>,
                      budget: nat, j: nat): seq<int>
    requires j < |order| && order[j] in blk
  {
    var s := Share(blk, kids, counts, order, budget, j);
    if 0 <= s <= |blk[order[j]]| then blk[order[j]][..|blk[order[j]]| - s] else []
  }

  /** The effect of a pass: position by position in LRU order, each node loses its share. */
  ghost predicate PassLaw(blk0: map<int, seq<int>>, kids: map<int, set<int>>, counts: multiset<int>, order: seq<int>,
                          budget: nat, blk: map<int, seq<int>>) {
    forall j {:trigger order[j]} :: 0 <= j < |order| ==>
      && order[j] in blk0
      && if Whole(blk0, kids, counts, order, budget, j) then order[j] !in blk
         else order[j] in blk && blk[order[j]] == Left(blk0, kids, counts, order, budget, j)
  }

  /** The first `i` positions have been visited; `marked` nodes are to be released at the end. */
  ghost predicate Visited(blk0: map<int, seq<int>>, kids: map<int, set<int>>, counts: multiset<int>, order: seq<int>,
                          budget: nat,
                          i: nat, marked: seq<int>, blk: map<int, seq<int>>) {
    && i <= |order| && NoDup(order)
    && (forall j {:trigger order[j]} :: 0 <= j < |order| ==>
          && order[j] in blk0 && order[j] in blk
          && (order[j] in marked <==> j < i && Whole(blk0, kids, counts, order, budget, j))
          && blk[order[j]] == if j >= i || order[j] in marked then blk0[order[j]]
            else Left(blk0, kids, counts, order, budget, j))
  }

  lemma VisitNext(blk0: map<int, seq<int>>, kids: map<int, set<int>>, counts: multiset<int>, order: seq<int>,
                  budget: nat,
                  i: nat, marked: seq<int>, blk: map<int, seq<int>>, taken: int, blk': map<int, seq<int>>)
    requires Visited(blk0, kids, counts, order, budget, i, marked, blk) && i < |order|
    requires taken == Share(blk0, kids, counts, order, budget, i) && 0 <= taken <= |blk0[order[i]]|
    requires if taken == 0 || taken == |blk0[order[i]]| then blk' == blk
      else blk' == blk[order[i] := blk0[order[i]][..|blk0[order[i]]| - taken]]
    ensures Visited(blk0, kids, counts, order, budget, i + 1, if 0 < taken == |blk0[order[i]]| then marked + [order[i]]
                    else marked, blk')
  {
    Apart(order);
    assert Left(blk0, kids, counts, order, budget, i) == blk0[order[i]][..|blk0[order[i]]| - taken];
  }

  /** Once the budget is used up the remaining positions have no share. */
  lemma VisitRest(blk0: map<int, seq<int>>, kids: map<int, set<int>>, counts: multiset<int>, order: seq<int>,
                  budget: nat,
                  i: nat, marked: seq<int>, blk: map<int, seq<int>>)
    requires Visited(blk0, kids, counts, order, budget, i, marked, blk)
    requires i == |order| || Offered(blk0, kids, counts, order[..i]) >= budget
    ensures Visited(blk0, kids, counts, order, budget, |order|, marked, blk)
    ensures Min(budget, Offered(blk0, kids, counts, order[..i])) == Min(budget, Offered(blk0, kids, counts, order))
  {
    assert order[..|order|] == order;
    OfferedGrows(blk0, kids, counts, order, i, |order|);
    forall j | i <= j < |order|
      ensures order[j] in blk0 && !Whole(blk0, kids, counts, order, budget, j)
      ensures Left(blk0, kids, counts, order, budget, j) == blk0[order[j]]
    {
      NoShare(blk0, kids, counts, order, budget, i, j);
    }
  }

  lemma NoShare(blk0: map<int, seq<int>>, kids: map<int, set<int>>, counts: multiset<int>, order: seq<int>,
                budget: nat, i: nat, j: nat)
    requires i <= j < |order| && order[j] in blk0 && Offered(blk0, kids, counts, order[..i]) >= budget
    ensures Share(blk0, kids, counts, order, budget, j) == 0
    ensures Left(blk0, kids, counts, order, budget, j) == blk0[order[j]]
  {
    OfferedGrows(blk0, kids, counts, order, i, j);
    OfferedGrows(blk0, kids, counts, order, i, j + 1);
  }

  /** The nodes marked for release are whole, unshared leaves. */
  ghost predicate Marked(marked: seq<int>, blk0: map<int, seq<int>>, blk: map<int, seq<int>>, kids: map<int, set<int>>,
                         counts0: multiset<int>) {
    NoDup(marked) && forall m :: m in marked ==>
      m != ROOT && m in blk && m in blk0 && m in kids && kids[m] == {} && blk[m] == blk0[m]
        && FirstUnshared(blk0[m], counts0) == 0
  }

  /** The effect of taking `taken` blocks from node `n`, unless it is left whole for later. */
  ghost predicate StripEffect(blk: map<int, seq<int>>, blk': map<int, seq<int>>, n: int, taken: int) {
    n in blk && 0 <= taken <= |blk[n]|
    && blk' == if taken == 0 || taken == |blk[n]| then blk else blk[n := blk[n][..|blk[n]| - taken]]
  }

  /** One node further in the scan of a pass. */
  lemma ScanNext(blk0: map<int, seq<int>>, kids: map<int, set<int>>, counts: multiset<int>, order: seq<int>,
                 budget: nat,
                 i: nat, total: int, marked: seq<int>, d: int, blk: map<int, seq<int>>, taken: int, whole: bool,
                 blk': map<int, seq<int>>)
    requires Visited(blk0, kids, counts, order, budget, i, marked, blk) && i < |order|
    requires total == Min(budget, Offered(blk0, kids, counts, order[..i])) && total == d + SumLen(blk0, marked)
    requires Marked(marked, blk0, blk, kids, counts)
    requires taken == Min(budget - total, Evictable(blk, kids, counts, order[i]))
      && StripEffect(blk, blk', order[i], taken)
    requires whole <==> 0 < taken == |blk[order[i]]|
    requires whole ==>
      order[i] != ROOT && order[i] in kids && kids[order[i]] == {} && FirstUnshared(blk[order[i]], counts) == 0
    ensures var marked' := if whole then marked + [order[i]] else marked;
      && Visited(blk0, kids, counts, order, budget, i + 1, marked', blk')
      && total + taken == Min(budget, Offered(blk0, kids, counts, order[..i + 1]))
      && total + taken == (if whole then d else d + taken) + SumLen(blk0, marked')
      && Marked(marked', blk0, blk', kids, counts)
  {
    assert blk[order[i]] == blk0[order[i]] && order[i] !in marked;
    OfferedStep(blk0, kids, counts, order, i);
    VisitNext(blk0, kids, counts, order, budget, i, marked, blk, taken, blk');
    SumLenAppend(blk0, marked, order[i]);
    if whole {
      NoDupAppend(marked, order[i]);
    }
  }

  /** The marked nodes from `rest` on are still to be released. */
  ghost predicate Releasing(blk0: map<int, seq<int>>, kids: map<int, set<int>>, counts: multiset<int>, order: seq<int>,
                            budget: nat,
                            rest: seq<int>, blk: map<int, seq<int>>) {
    forall j {:trigger order[j]} :: 0 <= j < |order| ==> ReleasingAt(blk0, kids, counts, order, budget, rest, blk, j)
  }

  ghost predicate ReleasingAt(blk0: map<int, seq<int>>, kids: map<int, set<int>>, counts: multiset<int>,
                              order: seq<int>, budget: nat,
                              rest: seq<int>, blk: map<int, seq<int>>, j: nat)
    requires j < |order|
  {
    && order[j] in blk0
    && if order[j] in rest then Whole(blk0, kids, counts, order, budget, j)
       else if Whole(blk0, kids, counts, order, budget, j) then order[j] !in blk
       else order[j] in blk && blk[order[j]] == Left(blk0, kids, counts, order, budget, j)
  }

  lemma ReleaseStart(blk0: map<int, seq<int>>, kids: map<int, set<int>>, counts: multiset<int>, order: seq<int>,
                     budget: nat, marked: seq<int>, blk: map<int, seq<int>>)
    requires Visited(blk0, kids, counts, order, budget, |order|, marked, blk)
    ensures Releasing(blk0, kids, counts, order, budget, marked, blk)
  {
    hide Whole, Left;
    forall j | 0 <= j < |order|
      ensures ReleasingAt(blk0, kids, counts, order, budget, marked, blk, j)
    {
      assert order[j] in blk0;
    }
  }

  /** The next marked node has been released. */
  lemma ReleaseNext(blk0: map<int, seq<int>>, kids0: map<int, set<int>>, counts: multiset<int>, order: seq<int>,
                    budget: nat,
                    marked: seq<int>, t: nat, blk: map<int, seq<int>>, kids: map<int, set<int>>,
                    blk': map<int, seq<int>>, kids': map<int, set<int>>)
    requires t < |marked| && NoDup(marked) && Releasing(blk0, kids0, counts, order, budget, marked[t..], blk)
    requires Marked(marked[t..], blk0, blk, kids, counts)
    requires blk' == blk - {marked[t]} && kids'.Keys == kids.Keys - {marked[t]}
    requires forall m :: m in kids' && kids[m] == {} ==> kids'[m] == {}
    ensures Releasing(blk0, kids0, counts, order, budget, marked[t + 1..], blk')
    ensures Marked(marked[t + 1..], blk0, blk', kids', counts)
  {
    hide Whole, Left, FirstUnshared;
    var n, rest := marked[t], marked[t + 1..];
    NoDupSlice(marked, t + 1, |marked|);
    assert rest == marked[t + 1..|marked|] && marked[t..] == [n] + rest;
    Apart(marked);
    assert n !in rest;
    forall j | 0 <= j < |order|
      ensures ReleasingAt(blk0, kids0, counts, order, budget, rest, blk', j)
    {
      assert ReleasingAt(blk0, kids0, counts, order, budget, marked[t..], blk, j);
      assert order[j] in marked[t..] <==> order[j] == n || order[j] in rest;
    }
    forall m | m in rest
      ensures m in marked[t..] && m in blk' && m in kids' && kids'[m] == {} && blk'[m] == blk[m]
    {
      assert m in marked[t..] && m != n;
      assert kids[m] == {} && m in kids;
    }
  }

  lemma ReleaseEnd(blk0: map<int, seq<int>>, kids: map<int, set<int>>, counts: multiset<int>, order: seq<int>,
                   budget: nat, blk: map<int, seq<int>>)
    requires Releasing(blk0, kids, counts, order, budget, [], blk)
    ensures PassLaw(blk0, kids, counts, order, budget, blk)
  {
    hide Whole, Left;
  }

  // ---------------------------------------------------------------- the order of a pass, on the nodes alone

  /** What is left of the blocks of a node; a released node has none. */
  ghost function Kept(blk: map<int, seq<int>>, n: int): seq<int> {
    if n in blk then blk[n] else []
  }

  /** Somebody besides the cache holds each of the blocks. */
  ghost predicate AllShared(blocks: seq<int>, counts: multiset<int>) {
    forall x :: 0 <= x < |blocks| ==> counts[blocks[x]] > 1
  }

  ghost predicate LeafAt(blk: map<int, seq<int>>, kids: map<int, set<int>>, order: seq<int>, j: int) {
    0 <= j < |order| && order[j] in blk && order[j] in kids && kids[order[j]] == {}
  }

  ghost predicate Lost(blk0: map<int, seq<int>>, blk: map<int, seq<int>>, order: seq<int>, j: int) {
    0 <= j < |order| && order[j] in blk0 && |Kept(blk, order[j])| < |blk0[order[j]]|
  }

  /** What a pass may do to position `j`: a leaf keeps a front part of its blocks, with at least those before
      the first one that only the cache holds; any other node keeps all. */
  ghost predicate StrippedAt(blk0: map<int, seq<int>>, kids: map<int, set<int>>, counts: multiset<int>, order: seq<int>,
                             blk: map<int, seq<int>>, j: int) {
    0 <= j < |order| ==>
      && order[j] in blk0 && Kept(blk, order[j]) <= blk0[order[j]]
      && (Lost(blk0, blk, order, j) ==>
            && LeafAt(blk0, kids, order, j)
            && exists x :: 0 <= x <= |Kept(blk, order[j])| && counts[blk0[order[j]][x]] <= 1)
      && (order[j] !in blk ==> Lost(blk0, blk, order, j))
      && (order[j] in blk && Lost(blk0, blk, order, j) ==> blk[order[j]] != [])
  }

  /** An older leaf is stripped of every block from the first that only the cache holds on before a newer
      leaf loses any. */
  ghost predicate OlderFirst(blk0: map<int, seq<int>>, kids: map<int, set<int>>, counts: multiset<int>, order: seq<int>,
                             blk: map<int, seq<int>>, i: int, j: int) {
    0 <= i < j && LeafAt(blk0, kids, order, i) && Lost(blk0, blk, order, j) ==> AllShared(Kept(blk, order[i]), counts)
  }

  /** The effect of a pass in LRU order; it falls short of its budget only if every leaf is stripped. */
  ghost predicate StrippedInOrder(blk0: map<int, seq<int>>, kids: map<int, set<int>>, counts: multiset<int>,
                                  order: seq<int>, budget: nat, total: int, blk: map<int, seq<int>>) {
    && total <= budget
    && (forall j :: StrippedAt(blk0, kids, counts, order, blk, j))
    && (forall i, j :: OlderFirst(blk0, kids, counts, order, blk, i, j))
    && (total < budget ==> forall i :: LeafAt(blk0, kids, order, i) ==> AllShared(Kept(blk, order[i]), counts))
  }

  lemma ShareFacts(blk: map<int, seq<int>>, kids: map<int, set<int>>, counts: multiset<int>, order: seq<int>,
                   budget: nat, j: nat)
    requires j < |order|
    ensures 0 <= Share(blk, kids, counts, order, budget, j) <= Evictable(blk, kids, counts, order[j])
    ensures Share(blk, kids, counts, order, budget, j) > 0 ==> Offered(blk, kids, counts, order[..j]) < budget
    ensures Offered(blk, kids, counts, order[..j + 1]) <= budget ==>
      Share(blk, kids, counts, order, budget, j) == Evictable(blk, kids, counts, order[j])
  {
    OfferedStep(blk, kids, counts, order, j);
  }

  lemma EvictableIs(blk: map<int, seq<int>>, kids: map<int, set<int>>, counts: multiset<int>, n: int)
    ensures n in blk && n in kids && kids[n] == {} ==>
      Evictable(blk, kids, counts, n) == |blk[n]| - FirstUnshared(blk[n], counts)
    ensures !(n in blk && n in kids && kids[n] == {}) ==> Evictable(blk, kids, counts, n) == 0
  {
  }

  lemma KeptIs(blk0: map<int, seq<int>>, kids: map<int, set<int>>, counts: multiset<int>, order: seq<int>,
               budget: nat, blk: map<int, seq<int>>, j: nat)
    requires PassLaw(blk0, kids, counts, order, budget, blk) && j < |order|
    ensures order[j] in blk0
    ensures var s := Share(blk0, kids, counts, order, budget, j);
      && 0 <= s <= |blk0[order[j]]| && Kept(blk, order[j]) == blk0[order[j]][..|blk0[order[j]]| - s]
      && (order[j] !in blk <==> 0 < s == |blk0[order[j]]|)
  {
    assert order[j] in blk0;
    ShareFacts(blk0, kids, counts, order, budget, j);
    EvictableIs(blk0, kids, counts, order[j]);
  }

  lemma StrippedHere(blk0: map<int, seq<int>>, kids: map<int, set<int>>, counts: multiset<int>, order: seq<int>,
                     budget: nat, blk: map<int, seq<int>>, j: int)
    requires PassLaw(blk0, kids, counts, order, budget, blk)
    ensures StrippedAt(blk0, kids, counts, order, blk, j)
  {
    if 0 <= j < |order| {
      KeptIs(blk0, kids, counts, order, budget, blk, j);
      ShareFacts(blk0, kids, counts, order, budget, j);
      EvictableIs(blk0, kids, counts, order[j]);
      hide PassLaw, Share, Evictable;
      var blocks := blk0[order[j]];
      if Lost(blk0, blk, order, j) {
        assert counts[blocks[FirstUnshared(blocks, counts)]] <= 1;
      }
    }
  }

  lemma AllTaken(blk0: map<int, seq<int>>, kids: map<int, set<int>>, counts: multiset<int>, order: seq<int>,
                 budget: nat, blk: map<int, seq<int>>, i: nat)
    requires PassLaw(blk0, kids, counts, order, budget, blk) && LeafAt(blk0, kids, order, i)
    requires Offered(blk0, kids, counts, order[..i + 1]) <= budget
    ensures AllShared(Kept(blk, order[i]), counts)
  {
    KeptIs(blk0, kids, counts, order, budget, blk, i);
    ShareFacts(blk0, kids, counts, order, budget, i);
    EvictableIs(blk0, kids, counts, order[i]);
  }

  /** A pass strips the leaves in LRU order. */
  lemma PassInOrder(blk0: map<int, seq<int>>, kids: map<int, set<int>>, counts: multiset<int>, order: seq<int>,
                    budget: nat, total: int, blk: map<int, seq<int>>)
    requires PassLaw(blk0, kids, counts, order, budget, blk)
    requires total == Min(budget, Offered(blk0, kids, counts, order))
    ensures StrippedInOrder(blk0, kids, counts, order, budget, total, blk)
  {
    hide PassLaw, AllShared, StrippedAt;
    forall j ensures StrippedAt(blk0, kids, counts, order, blk, j) {
      StrippedHere(blk0, kids, counts, order, budget, blk, j);
    }
    forall i, j
      ensures OlderFirst(blk0, kids, counts, order, blk, i, j)
    {
      if 0 <= i < j && LeafAt(blk0, kids, order, i) && Lost(blk0, blk, order, j) {
        KeptIs(blk0, kids, counts, order, budget, blk, j);
        ShareFacts(blk0, kids, counts, order, budget, j);
        OfferedGrows(blk0, kids, counts, order, i + 1, j);
        AllTaken(blk0, kids, counts, order, budget, blk, i);
      }
    }
    if total < budget {
      forall i | LeafAt(blk0, kids, order, i)
        ensures AllShared(Kept(blk, order[i]), counts)
      {
        assert order[..|order|] == order;
        OfferedGrows(blk0, kids, counts, order, i + 1, |order|);
        AllTaken(blk0, kids, counts, order, budget, blk, i);
      }
    }
  }

  /** Two runs of cuts make one. */
  lemma DroppingTwice(M0: Content, counts0: multiset<int>, free0: int, M1: Content, counts1: multiset<int>, free1: int,
                      d1: int,
                      M2: Content, counts2: multiset<int>, free2: int, d2: int, d: int)
    requires Dropping(M0, counts0, free0, M1, counts1, free1, d1)
      && Dropping(M1, counts1, free1, M2, counts2, free2, d2) && d == d1 + d2
    ensures Dropping(M0, counts0, free0, M2, counts2, free2, d)
  {
    assert Unfold(true);
    forall b
      ensures counts2[b] + (if Holds(M0, b) && !Holds(M2, b) then 1 else 0) == counts0[b]
    {
      HoldsSub(M0, M1, b);
      HoldsSub(M1, M2, b);
    }
    assert DroppingInv(M0, counts0, free0, M2, counts2, free2, d);
  }

  lemma HoldsSub(M0: Content, M: Content, b: int)
    requires M.Keys <= M0.Keys && forall k :: k in M ==> M[k] == M0[k]
    ensures Holds(M, b) ==> Holds(M0, b)
  {
    if Holds(M, b) {
      var key :| key in M && M[key] == b;
      assert M0[key] == b;
    }
  }

  /** When a pass is offered nothing and the path closure holds, nothing is unshared. */
  lemma NothingLeft(r: Radix, order: seq<int>, counts: multiset<int>)
    requires Shape(r) && PathClosed(ContentOf(r), counts) && (forall n :: n in r.nodes && n != ROOT ==> n in order)
    requires Offered(map n | n in r.nodes :: r.nodes[n].blocks, map n | n in r.nodes :: r.nodes[n].children, counts,
                     order) == 0
    ensures Unshared(ContentOf(r), counts) == {}
  {
    var blk, kids := map n | n in r.nodes :: r.nodes[n].blocks, map n | n in r.nodes :: r.nodes[n].children;
    forall n | n in r.nodes && n != ROOT && r.nodes[n].children == {}
      ensures FirstUnshared(r.nodes[n].blocks, counts) == |r.nodes[n].blocks|
    {
      NothingOffered(blk, kids, counts, order, n);
    }
    NothingUnshared(r, counts);
  }

  ghost function SumLen(blk: map<int, seq<int>>, s: seq<int>): nat {
    if s == [] then 0 else (if s[0] in blk then |blk[s[0]]| else 0) + SumLen(blk, s[1..])
  }

  lemma {:induction false} SumLenAppend(blk: map<int, seq<int>>, s: seq<int>, n: int)
    requires n in blk
    ensures SumLen(blk, s + [n]) == SumLen(blk, s) + |blk[n]|
  {
    if s != [] {
      assert (s + [n])[1..] == s[1..] + [n];
      SumLenAppend(blk, s[1..], n);
    }
  }

  /** A pass that is offered something takes something. */
  lemma {:induction false} NothingOffered(blk: map<int, seq<int>>, kids: map<int, set<int>>, counts: multiset<int>,
                                          order: seq<int>, n: int)
    requires Offered(blk, kids, counts, order) == 0 && n in order
    ensures Evictable(blk, kids, counts, n) == 0
  {
    var last := |order| - 1;
    if order[last] != n {
      NothingOffered(blk, kids, counts, order[..last], n);
    }
  }
}
