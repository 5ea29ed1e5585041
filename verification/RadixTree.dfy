/** The block-aligned radix tree of src/memory/prefix_cache.cpp, seen one block of tokens at a time.

    A `Chunk` is the tokens of one block and a `Key` a block-aligned token prefix.  A node carries,
    besides what the source stores, the key at which it starts; the token vectors themselves are in
    module PrefixCaching.  `home` records which node stores which key, so that the tree stands for
    a map from keys to blocks, `ContentOf`. */
module RadixTree {
  import opened Collections

  type Chunk = seq<int>
  type Key = seq<Chunk>
  type Content = map<Key, int>

  datatype RNode = RNode(start: Key, edge: Key, blocks: seq<int>,
                         children: set<int>, parent: int, time: int)
  {
    ghost function End(): Key {
      start + edge
    }
  }

  datatype Radix = Radix(nodes: map<int, RNode>, home: map<Key, int>)

  const ROOT := 0

  /** The node stores the block of key `k`. */
  ghost predicate Covers(n: RNode, k: Key) {
    |n.start| < |k| && k <= n.start + n.edge
  }

  ghost function BlockAt(n: RNode, k: Key): int
    requires |n.start| < |k| <= |n.start| + |n.blocks|
  {
    n.blocks[|k| - |n.start| - 1]
  }

  ghost predicate NodeOk(t: map<int, RNode>, n: int)
    requires n in t
  {
    && |t[n].edge| == |t[n].blocks| > 0
    && t[n].parent in t
    && n in t[t[n].parent].children
    && t[n].start == t[t[n].parent].End()
  }

  /** Nonempty nodes with as many blocks as chunks, and agreeing parent and child links. */
  ghost predicate Links(t: map<int, RNode>) {
    && ROOT in t && t[ROOT].start == [] && t[ROOT].edge == [] && t[ROOT].blocks == []
    && (forall n {:trigger NodeOk(t, n)} :: n in t && n != ROOT ==> NodeOk(t, n))
    && (forall n, c {:trigger c in t[n].children} :: n in t && c in t[n].children ==>
        c in t && c != ROOT && t[c].parent == n)
  }

  /** Every key is stored in exactly one node, so siblings differ in their first chunk. */
  ghost predicate Homes(t: map<int, RNode>, home: map<Key, int>) {
    && (forall n, k {:trigger Covers(t[n], k)} :: n in t && Covers(t[n], k) ==> k in home && home[k] == n)
    && (forall k {:trigger home[k]} {:trigger k in home} :: k in home ==> home[k] in t && Covers(t[home[k]], k))
  }

  ghost predicate Shape(r: Radix) {
    Links(r.nodes) && Homes(r.nodes, r.home)
  }

  /** The home of a key has a block for it. */
  ghost predicate Located(r: Radix, k: Key) {
    k in r.home && r.home[k] in r.nodes
    && |r.nodes[r.home[k]].start| < |k| <= |r.nodes[r.home[k]].start| + |r.nodes[r.home[k]].blocks|
  }

  ghost function StoredAt(r: Radix, k: Key): int {
    if Located(r, k) then BlockAt(r.nodes[r.home[k]], k) else 0
  }

  ghost function ContentOf(r: Radix): Content {
    map k | k in r.home :: StoredAt(r, k)
  }

  // ---------------------------------------------------------------- walking the tree

  /** Every shorter nonempty prefix of a stored key is stored too. */
  lemma {:induction false} ShorterStored(r: Radix, n: int, k: Key, j: nat)
    requires Shape(r) && n in r.nodes && Covers(r.nodes[n], k) && 0 < j <= |k|
    ensures k[..j] in r.home
    decreases |r.nodes[n].start|
  {
    var t := r.nodes;
    if j > |t[n].start| {
      assert Covers(t[n], k[..j]);
    } else {
      var p := t[n].parent;
      assert NodeOk(t, n);
      assert p != ROOT;
      assert NodeOk(t, p);
      ShorterStored(r, p, t[n].start, j);
      assert t[n].start[..j] == k[..j];
    }
  }

  ghost predicate PrefixClosed<T>(M: map<Key, T>) {
    forall k, j :: k in M && 0 < j <= |k| ==> k[..j] in M
  }

  lemma ContentPrefixClosed(r: Radix)
    requires Shape(r)
    ensures PrefixClosed(r.home)
  {
    forall k, j | k in r.home && 0 < j <= |k|
      ensures k[..j] in r.home
    {
      ShorterStored(r, r.home[k], k, j);
    }
  }

  /** Siblings differ in their first chunk, so the order in which children are tried does not matter. */
  lemma SiblingsDiffer(r: Radix, p: int, a: int, b: int)
    requires Shape(r) && p in r.nodes && a in r.nodes[p].children && b in r.nodes[p].children && a != b
    ensures a in r.nodes && b in r.nodes && r.nodes[a].edge != [] && r.nodes[b].edge != []
      && r.nodes[a].edge[0] != r.nodes[b].edge[0]
  {
    var t := r.nodes;
    assert NodeOk(t, a) && NodeOk(t, b);
    var k := t[p].End() + [t[a].edge[0]];
    assert t[a].start + t[a].edge == k + t[a].edge[1..] && Covers(t[a], k);
    if t[a].edge[0] == t[b].edge[0] {
      assert t[b].start + t[b].edge == k + t[b].edge[1..];
      assert Covers(t[b], k);
    }
  }

  /** `End` identifies a node. */
  lemma EndUnique(r: Radix, p: int, q: int)
    requires Shape(r) && p in r.nodes && q in r.nodes && r.nodes[p].End() == r.nodes[q].End()
    ensures p == q
  {
    var t := r.nodes;
    assert p != ROOT ==> NodeOk(t, p) && Covers(t[p], t[p].End());
    assert q != ROOT ==> NodeOk(t, q) && Covers(t[q], t[q].End());
  }

  /** A stored key that continues past the end of `p` continues through a child of `p`. */
  lemma {:induction false} Descend(r: Radix, p: int, m: int, k: Key) returns (c: int)
    requires Shape(r) && p in r.nodes && m in r.nodes && Covers(r.nodes[m], k)
    requires r.nodes[p].End() < k
    ensures c in r.nodes[p].children && c in r.nodes && |r.nodes[c].edge| > 0
    ensures r.nodes[c].edge[0] == k[|r.nodes[p].End()|]
    decreases |r.nodes[m].start|
  {
    var t := r.nodes;
    var e := t[p].End();
    assert NodeOk(t, m);
    var q := t[m].parent;
    NotAbove(r, p, m, k);
    if |t[m].start| > |e| {
      assert q != ROOT;
      assert NodeOk(t, q);
      assert Covers(t[q], t[m].start);
      assert e == k[..|e|] == t[m].start[..|e|];
      c := Descend(r, p, q, t[m].start);
    } else {
      assert t[m].start == e;
      EndUnique(r, p, q);
      c := m;
    }
  }

  /** A node whose keys continue past the end of `p` does not start before that end. */
  lemma NotAbove(r: Radix, p: int, m: int, k: Key)
    requires Shape(r) && p in r.nodes && m in r.nodes && Covers(r.nodes[m], k)
    requires r.nodes[p].End() < k
    ensures |r.nodes[m].start| >= |r.nodes[p].End()|
  {
    var t, e := r.nodes, r.nodes[p].End();
    assert |t[m].start| < |e| ==> Covers(t[m], e);
    assert p != ROOT ==> NodeOk(t, p) && Covers(t[p], e);
  }

  /** When no child of `p` continues key `k`, neither `k` nor its first chunk past `p` is stored. */
  lemma NextKeyMissing(r: Radix, p: int, k: Key)
    requires Shape(r) && p in r.nodes && r.nodes[p].End() < k
    requires forall c :: c in r.nodes[p].children ==>
      |r.nodes[c].edge| > 0 && r.nodes[c].edge[0] != k[|r.nodes[p].End()|]
    ensures k !in r.home
    ensures k[..|r.nodes[p].End()| + 1] !in r.home
  {
    var e := |r.nodes[p].End()|;
    if k in r.home {
      var c := Descend(r, p, r.home[k], k);
    }
    var k' := k[..e + 1];
    if k' in r.home {
      var c := Descend(r, p, r.home[k'], k');
    }
  }

  // ---------------------------------------------------------------- splitting a node

  function SplitNodes(t: map<int, RNode>, n: int, k: nat, id: int): map<int, RNode>
    requires n in t && k <= |t[n].edge| && k <= |t[n].blocks|
  {
    map m | m in t.Keys + {id} ::
      if m == id then
        RNode(t[n].start + t[n].edge[..k], t[n].edge[k..], t[n].blocks[k..], t[n].children, n, t[n].time)
      else if m == n then
        t[n].(edge := t[n].edge[..k], blocks := t[n].blocks[..k], children := {id})
      else if m in t[n].children then
        t[m].(parent := id)
      else
        t[m]
  }

  function Split(r: Radix, n: int, k: nat, id: int): Radix
    requires n in r.nodes && k <= |r.nodes[n].edge| && k <= |r.nodes[n].blocks|
  {
    Radix(SplitNodes(r.nodes, n, k, id),
          map key | key in r.home ::
            if r.home[key] == n && |key| > |r.nodes[n].start| + k then id else r.home[key])
  }

  ghost predicate CanSplit(r: Radix, n: int, k: nat, id: int) {
    Shape(r) && n in r.nodes && n != ROOT && id !in r.nodes && 0 < k < |r.nodes[n].edge| == |r.nodes[n].blocks|
  }

  /** A split divides the keys of the node between its two halves. */
  lemma SplitCovers(r: Radix, n: int, k: nat, id: int, key: Key)
    requires CanSplit(r, n, k, id)
    ensures var t, t' := r.nodes, SplitNodes(r.nodes, n, k, id);
      && (Covers(t'[n], key) <==> Covers(t[n], key) && |key| <= |t[n].start| + k)
      && (Covers(t'[id], key) <==> Covers(t[n], key) && |key| > |t[n].start| + k)
  {
    var t := r.nodes;
    assert t[n].start + t[n].edge[..k] + t[n].edge[k..] == t[n].start + t[n].edge;
    assert t[n].start + t[n].edge[..k] == (t[n].start + t[n].edge)[..|t[n].start| + k];
  }

  lemma SplitLinks(r: Radix, n: int, k: nat, id: int)
    requires CanSplit(r, n, k, id)
    ensures Links(SplitNodes(r.nodes, n, k, id))
  {
    hide Homes, NodeOk;
    var t, t' := r.nodes, SplitNodes(r.nodes, n, k, id);
    forall m | m in t' && m != ROOT
      ensures NodeOk(t', m)
    {
      SplitNodeOk(r, n, k, id, m);
    }
    assert n !in t[n].children by { NotOwnChild(r, n); }
  }

  lemma NotOwnChild(r: Radix, n: int)
    requires Shape(r) && n in r.nodes && n != ROOT
    ensures n !in r.nodes[n].children
  {
    assert NodeOk(r.nodes, n);
  }

  lemma SplitNodeOk(r: Radix, n: int, k: nat, id: int, m: int)
    requires CanSplit(r, n, k, id) && m in SplitNodes(r.nodes, n, k, id) && m != ROOT
    ensures NodeOk(SplitNodes(r.nodes, n, k, id), m)
  {
    hide Homes;
    var t, t' := r.nodes, SplitNodes(r.nodes, n, k, id);
    assert t'[id].End() == t[n].End() by {
      assert t[n].start + t[n].edge[..k] + t[n].edge[k..] == t[n].start + t[n].edge;
    }
    assert NodeOk(t, if m == id then n else m);
    assert t'[n].children == {id} && t'[id].children == t[n].children;
  }

  lemma SplitHomes(r: Radix, n: int, k: nat, id: int)
    requires CanSplit(r, n, k, id)
    ensures var r' := Split(r, n, k, id); Homes(r'.nodes, r'.home)
  {
    var r' := Split(r, n, k, id);
    forall m, key | m in r'.nodes && Covers(r'.nodes[m], key)
      ensures key in r'.home && r'.home[key] == m
    {
      SplitCovers(r, n, k, id, key);
      assert m != n && m != id ==> Covers(r.nodes[m], key);
    }
    forall key | key in r'.home
      ensures r'.home[key] in r'.nodes && Covers(r'.nodes[r'.home[key]], key)
    {
      SplitCovers(r, n, k, id, key);
      assert Covers(r.nodes[r.home[key]], key);
    }
  }

  /** A split keeps the structure and the map the tree stands for. */
  lemma SplitKeeps(r: Radix, n: int, k: nat, id: int)
    requires CanSplit(r, n, k, id)
    ensures Shape(Split(r, n, k, id))
    ensures ContentOf(Split(r, n, k, id)) == ContentOf(r)
  {
    SplitLinks(r, n, k, id);
    SplitHomes(r, n, k, id);
    var r' := Split(r, n, k, id);
    forall key | key in r.home
      ensures StoredAt(r', key) == StoredAt(r, key)
    {
      assert Covers(r.nodes[r.home[key]], key);
    }
  }

  // ---------------------------------------------------------------- adding a leaf

  ghost function AddNode(t: map<int, RNode>, p: int, edge: Key, blocks: seq<int>, now: int, id: int): map<int, RNode>
    requires p in t
  {
    t[p := t[p].(children := t[p].children + {id})]
     [id := RNode(t[p].End(), edge, blocks, {}, p, now)]
  }

  /** The keys a new leaf brings. */
  ghost function NewKeys(e: Key, edge: Key): set<Key> {
    set j | 0 < j <= |edge| :: e + edge[..j]
  }

  ghost function AddChild(r: Radix, p: int, edge: Key, blocks: seq<int>, now: int, id: int): Radix
    requires p in r.nodes
  {
    Radix(AddNode(r.nodes, p, edge, blocks, now, id),
          map key | key in r.home.Keys + NewKeys(r.nodes[p].End(), edge) ::
            if key in NewKeys(r.nodes[p].End(), edge) then id else r.home[key])
  }

  ghost predicate CanAdd(r: Radix, p: int, edge: Key, blocks: seq<int>, id: int) {
    Shape(r) && AddSite(r, p, edge, blocks, id)
  }

  ghost predicate AddSite(r: Radix, p: int, edge: Key, blocks: seq<int>, id: int) {
    && p in r.nodes && id !in r.nodes && |edge| == |blocks| > 0
    && (forall c :: c in r.nodes[p].children ==> c in r.nodes && |r.nodes[c].edge| > 0 && r.nodes[c].edge[0] != edge[0])
  }

  /** The map after an insertion: only keys that were missing are added. */
  ghost function AddContent(M: Content, e: Key, edge: Key, blocks: seq<int>): Content
    requires |edge| <= |blocks|
  {
    map k | k in M.Keys + NewKeys(e, edge) :: if k in M then M[k] else blocks[|k| - |e| - 1]
  }

  lemma NewKeysCovered(n: RNode, key: Key)
    ensures Covers(n, key) <==> key in NewKeys(n.start, n.edge)
  {
    if Covers(n, key) {
      assert key == n.start + n.edge[..|key| - |n.start|];
    }
  }

  lemma NewKeysMissing(r: Radix, p: int, edge: Key, blocks: seq<int>, id: int, key: Key)
    requires CanAdd(r, p, edge, blocks, id) && key in NewKeys(r.nodes[p].End(), edge)
    ensures key !in r.home
  {
    NextKeyMissing(r, p, key);
  }

  lemma AddLinks(r: Radix, p: int, edge: Key, blocks: seq<int>, now: int, id: int)
    requires CanAdd(r, p, edge, blocks, id)
    ensures Links(AddNode(r.nodes, p, edge, blocks, now, id))
  {
    var t, t' := r.nodes, AddNode(r.nodes, p, edge, blocks, now, id);
    forall m | m in t' && m != ROOT
      ensures NodeOk(t', m)
    {
      assert m != id ==> NodeOk(t, m);
    }
  }

  lemma AddHomes(r: Radix, p: int, edge: Key, blocks: seq<int>, now: int, id: int)
    requires CanAdd(r, p, edge, blocks, id)
    ensures var r' := AddChild(r, p, edge, blocks, now, id); Homes(r'.nodes, r'.home)
  {
    var r' := AddChild(r, p, edge, blocks, now, id);
    var e := r.nodes[p].End();
    forall m, key | m in r'.nodes && Covers(r'.nodes[m], key)
      ensures key in r'.home && r'.home[key] == m
    {
      if m == id {
        NewKeysCovered(r'.nodes[id], key);
      } else {
        assert Covers(r.nodes[m], key);
        if key in NewKeys(e, edge) {
          NewKeysMissing(r, p, edge, blocks, id, key);
        }
      }
    }
    forall key | key in r'.home
      ensures r'.home[key] in r'.nodes && Covers(r'.nodes[r'.home[key]], key)
    {
      NewKeysCovered(r'.nodes[id], key);
      assert key in r.home ==> Covers(r.nodes[r.home[key]], key);
    }
  }

  lemma AddStored(r: Radix, p: int, edge: Key, blocks: seq<int>, now: int, id: int, key: Key)
    requires CanAdd(r, p, edge, blocks, id) && Shape(AddChild(r, p, edge, blocks, now, id))
    ensures key in r.home ==>
      key in AddChild(r, p, edge, blocks, now, id).home
      && StoredAt(AddChild(r, p, edge, blocks, now, id), key) == StoredAt(r, key)
    ensures key in NewKeys(r.nodes[p].End(), edge) ==>
      && key !in r.home && |r.nodes[p].End()| < |key| <= |r.nodes[p].End()| + |blocks|
      && StoredAt(AddChild(r, p, edge, blocks, now, id), key) == blocks[|key| - |r.nodes[p].End()| - 1]
  {
    var e := r.nodes[p].End();
    if key in NewKeys(e, edge) {
      NewKeysMissing(r, p, edge, blocks, id, key);
    }
    if key in r.home {
      assert Covers(r.nodes[r.home[key]], key);
    }
  }

  lemma AddContentExt(M: Content, M': Content, e: Key, edge: Key, blocks: seq<int>)
    requires |edge| <= |blocks| && M'.Keys == M.Keys + NewKeys(e, edge)
    requires forall key :: key in M ==> M'[key] == M[key]
    requires forall key :: key in NewKeys(e, edge) && key !in M ==> M'[key] == blocks[|key| - |e| - 1]
    ensures M' == AddContent(M, e, edge, blocks)
  {
  }

  lemma AddContentIs(r: Radix, p: int, edge: Key, blocks: seq<int>, now: int, id: int)
    requires CanAdd(r, p, edge, blocks, id) && Shape(AddChild(r, p, edge, blocks, now, id))
    ensures ContentOf(AddChild(r, p, edge, blocks, now, id))
         == AddContent(ContentOf(r), r.nodes[p].End(), edge, blocks)
  {
    var r', e := AddChild(r, p, edge, blocks, now, id), r.nodes[p].End();
    var M, M' := ContentOf(r), ContentOf(r');
    assert M'.Keys == r'.home.Keys == M.Keys + NewKeys(e, edge);
    forall key | key in M
      ensures M'[key] == M[key]
    {
      AddStored(r, p, edge, blocks, now, id, key);
    }
    forall key | key in NewKeys(e, edge)
      ensures |e| < |key| <= |e| + |blocks| && M'[key] == blocks[|key| - |e| - 1]
    {
      AddStored(r, p, edge, blocks, now, id, key);
    }
    AddContentExt(M, M', e, edge, blocks);
  }

  /** A new leaf keeps the structure, overwrites nothing and adds exactly its own keys. */
  lemma AddKeeps(r: Radix, p: int, edge: Key, blocks: seq<int>, now: int, id: int)
    requires CanAdd(r, p, edge, blocks, id)
    ensures Shape(AddChild(r, p, edge, blocks, now, id))
    ensures ContentOf(AddChild(r, p, edge, blocks, now, id))
         == AddContent(ContentOf(r), r.nodes[p].End(), edge, blocks)
    ensures NewKeys(r.nodes[p].End(), edge) !! r.home.Keys
  {
    AddLinks(r, p, edge, blocks, now, id);
    AddHomes(r, p, edge, blocks, now, id);
    AddContentIs(r, p, edge, blocks, now, id);
    forall key | key in NewKeys(r.nodes[p].End(), edge) { NewKeysMissing(r, p, edge, blocks, id, key); }
  }

  /** A leaf with `|edge|` chunks brings `|edge|` entries. */
  lemma {:induction false} NewKeysSize(e: Key, edge: Key)
    ensures |NewKeys(e, edge)| == |edge|
  {
    if edge == [] {
      assert NewKeys(e, edge) == {};
    } else {
      var shorter := edge[..|edge| - 1];
      NewKeysSize(e, shorter);
      assert forall j :: 0 < j <= |shorter| ==> shorter[..j] == edge[..j];
      assert edge[..|edge|] == edge;
      assert NewKeys(e, edge) == NewKeys(e, shorter) + {e + edge};
      assert forall k :: k in NewKeys(e, shorter) ==> |k| < |e + edge|;
    }
  }

  // ---------------------------------------------------------------- cutting blocks off a leaf

  /** Cuts the leaf back to its first `k` chunks; a leaf cut to nothing is unlinked. */
  function CutNodes(t: map<int, RNode>, n: int, k: nat): map<int, RNode>
    requires n in t && k <= |t[n].edge| && k <= |t[n].blocks| && t[n].parent in t
  {
    if k == 0 then
      var p := t[n].parent;
      t[p := t[p].(children := t[p].children - {n})] - {n}
    else
      t[n := t[n].(edge := t[n].edge[..k], blocks := t[n].blocks[..k])]
  }

  function Cut(r: Radix, n: int, k: nat): Radix
    requires n in r.nodes && k <= |r.nodes[n].edge| && k <= |r.nodes[n].blocks| && r.nodes[n].parent in r.nodes
  {
    Radix(CutNodes(r.nodes, n, k),
          map key | key in r.home && !(r.home[key] == n && |key| > |r.nodes[n].start| + k) :: r.home[key])
  }

  ghost predicate CanCut(r: Radix, n: int, k: nat) {
    && Shape(r) && n in r.nodes && n != ROOT && r.nodes[n].children == {}
    && k <= |r.nodes[n].edge| == |r.nodes[n].blocks| && r.nodes[n].parent in r.nodes
  }

  lemma CutLinks(r: Radix, n: int, k: nat)
    requires CanCut(r, n, k)
    ensures Links(CutNodes(r.nodes, n, k))
  {
    var t, t' := r.nodes, CutNodes(r.nodes, n, k);
    assert NodeOk(t, n);
    forall m | m in t' && m != ROOT
      ensures NodeOk(t', m)
    {
      assert NodeOk(t, m);
    }
  }

  lemma CutHomes(r: Radix, n: int, k: nat)
    requires CanCut(r, n, k)
    ensures var r' := Cut(r, n, k); Homes(r'.nodes, r'.home)
  {
    var t, r' := r.nodes, Cut(r, n, k);
    assert NodeOk(t, n);
    assert t[n].start + t[n].edge[..k] == (t[n].start + t[n].edge)[..|t[n].start| + k];
    forall m, key | m in r'.nodes && Covers(r'.nodes[m], key)
      ensures key in r'.home && r'.home[key] == m
    {
      assert Covers(t[m], key);
    }
    forall key | key in r'.home
      ensures r'.home[key] in r'.nodes && Covers(r'.nodes[r'.home[key]], key)
    {
      assert Covers(t[r.home[key]], key);
    }
  }

  /** The entries that a cut removes. */
  ghost function CutKeys(n: RNode, k: nat): set<Key>
    requires k <= |n.edge|
  {
    NewKeys(n.start + n.edge[..k], n.edge[k..])
  }

  lemma CutKeysAre(n: RNode, k: nat, key: Key)
    requires k <= |n.edge|
    ensures key in CutKeys(n, k) <==> Covers(n, key) && |key| > |n.start| + k
  {
    var low := n.(start := n.start + n.edge[..k], edge := n.edge[k..]);
    NewKeysCovered(low, key);
    assert low.start + low.edge == n.start + n.edge;
  }

  lemma CutKeysStored(r: Radix, n: int, k: nat, key: Key)
    requires CanCut(r, n, k)
    ensures key in CutKeys(r.nodes[n], k) <==> key in r.home && r.home[key] == n && |key| > |r.nodes[n].start| + k
  {
    CutKeysAre(r.nodes[n], k, key);
    assert key in r.home ==> Covers(r.nodes[r.home[key]], key);
  }

  lemma CutStored(r: Radix, n: int, k: nat, key: Key)
    requires CanCut(r, n, k) && Shape(Cut(r, n, k)) && key in Cut(r, n, k).home
    ensures StoredAt(Cut(r, n, k), key) == StoredAt(r, key)
  {
    assert Covers(r.nodes[r.home[key]], key);
    assert NodeOk(r.nodes, r.home[key]);
  }

  /** A cut removes exactly the entries of the cut blocks, one per block. */
  lemma CutKeeps(r: Radix, n: int, k: nat)
    requires CanCut(r, n, k)
    ensures Shape(Cut(r, n, k))
    ensures ContentOf(Cut(r, n, k)) == ContentOf(r) - CutKeys(r.nodes[n], k)
    ensures CutKeys(r.nodes[n], k) <= r.home.Keys
    ensures |CutKeys(r.nodes[n], k)| == |r.nodes[n].blocks| - k
  {
    hide Links, Homes;
    CutLinks(r, n, k);
    CutHomes(r, n, k);
    NewKeysSize(r.nodes[n].start + r.nodes[n].edge[..k], r.nodes[n].edge[k..]);
    forall key { CutKeysStored(r, n, k, key); }
    forall key | key in Cut(r, n, k).home { CutStored(r, n, k, key); }
  }

  // ---------------------------------------------------------------- touching a node

  function Touch(r: Radix, n: int, now: int): Radix
    requires n in r.nodes
  {
    r.(nodes := r.nodes[n := r.nodes[n].(time := now)])
  }

  lemma TouchLinks(r: Radix, n: int, now: int)
    requires Shape(r) && n in r.nodes
    ensures Links(Touch(r, n, now).nodes)
  {
    var t, t' := r.nodes, Touch(r, n, now).nodes;
    forall m | m in t' && m != ROOT
      ensures NodeOk(t', m)
    {
      assert NodeOk(t, m);
    }
  }

  lemma TouchHomes(r: Radix, n: int, now: int)
    requires Shape(r) && n in r.nodes
    ensures Homes(Touch(r, n, now).nodes, r.home)
  {
    var t, t' := r.nodes, Touch(r, n, now).nodes;
    forall m, key | m in t'
      ensures Covers(t'[m], key) == Covers(t[m], key)
    {
    }
  }

  /** Recording an access changes neither the structure nor the map. */
  lemma TouchKeeps(r: Radix, n: int, now: int)
    requires Shape(r) && n in r.nodes
    ensures Shape(Touch(r, n, now))
    ensures ContentOf(Touch(r, n, now)) == ContentOf(r)
  {
    TouchLinks(r, n, now);
    TouchHomes(r, n, now);
    forall key | key in r.home
      ensures StoredAt(Touch(r, n, now), key) == StoredAt(r, key)
    {
    }
  }

  // ---------------------------------------------------------------- access times, node by node

  /** The shortest key of a node, and when the node was last accessed. */
  datatype Stamp = Stamp(first: Key, time: int)

  ghost function StampOf(n: RNode): Stamp {
    Stamp(n.start + if n.edge == [] then [] else [n.edge[0]], n.time)
  }

  ghost function Stamps(r: Radix): map<int, Stamp> {
    map n | n in r.nodes && n != ROOT :: StampOf(r.nodes[n])
  }

  /** Nodes may have been added; those that were there are as before. */
  ghost predicate StampsKept(a: map<int, Stamp>, b: map<int, Stamp>) {
    forall m :: m in a ==> m in b && b[m] == a[m]
  }

  /** Node `n` was accessed, and no other. */
  ghost predicate StampSet(a: map<int, Stamp>, b: map<int, Stamp>, n: int, now: int) {
    forall m :: m in a ==> m in b && b[m] == if m == n then a[m].(time := now) else a[m]
  }

  /** The nodes whose first key is among the first `n` keys of `q` were accessed, and no others. */
  ghost predicate Accessed(a: map<int, Stamp>, b: map<int, Stamp>, q: Key, n: nat, now: int) {
    n <= |q| && forall m :: m in a ==> m in b && b[m] == if a[m].first <= q[..n] then a[m].(time := now) else a[m]
  }

  lemma TouchStamps(r: Radix, n: int, now: int)
    requires n in r.nodes
    ensures StampSet(Stamps(r), Stamps(Touch(r, n, now)), n, now)
  {
  }

  lemma SplitStamps(r: Radix, n: int, k: nat, id: int)
    requires CanSplit(r, n, k, id)
    ensures StampsKept(Stamps(r), Stamps(Split(r, n, k, id)))
  {
    var t, t' := r.nodes, SplitNodes(r.nodes, n, k, id);
    forall m | m in t && m != ROOT
      ensures m in t' && StampOf(t'[m]) == StampOf(t[m])
    {
    }
  }

  lemma AddStamps(r: Radix, p: int, edge: Key, blocks: seq<int>, now: int, id: int)
    requires p in r.nodes && id !in r.nodes
    ensures StampsKept(Stamps(r), Stamps(AddChild(r, p, edge, blocks, now, id)))
  {
  }

  lemma SetThenKept(a: map<int, Stamp>, b: map<int, Stamp>, c: map<int, Stamp>, n: int, now: int)
    requires StampSet(a, b, n, now) && StampsKept(b, c)
    ensures StampSet(a, c, n, now)
  {
  }

  lemma AccessedKept(a: map<int, Stamp>, b: map<int, Stamp>, c: map<int, Stamp>, q: Key, n: nat, now: int)
    requires Accessed(a, b, q, n, now) && StampsKept(b, c)
    ensures Accessed(a, c, q, n, now)
  {
  }

  lemma AccessedNone(r: Radix, q: Key, now: int)
    requires Shape(r)
    ensures Accessed(Stamps(r), Stamps(r), q, 0, now)
  {
    forall m | m in Stamps(r)
      ensures !(Stamps(r)[m].first <= q[..0])
    {
      assert NodeOk(r.nodes, m);
    }
  }

  /** The nodes whose first key is the next one on the path of `q`, up to `k` chunks further: only the child. */
  ghost predicate OnlyNext(a: map<int, Stamp>, q: Key, done: nat, k: nat, child: int) {
    done + k <= |q| && forall m :: m in a ==>
      (a[m].first <= q[..done + k] && !(a[m].first <= q[..done]) <==> m == child)
  }

  lemma ChildIsNext(r: Radix, p: int, child: int, q: Key, done: nat, k: nat)
    requires Shape(r) && p in r.nodes && child in r.nodes[p].children && child in r.nodes
    requires 0 < k <= |r.nodes[child].edge| && done + k <= |q| && r.nodes[p].End() == q[..done]
    requires r.nodes[child].start + r.nodes[child].edge[..k] == q[..done + k]
    ensures OnlyNext(Stamps(r), q, done, k, child)
  {
    var t := r.nodes;
    assert NodeOk(t, child);
    forall m | m in Stamps(r)
      ensures Stamps(r)[m].first <= q[..done + k] && !(Stamps(r)[m].first <= q[..done]) <==> m == child
    {
      var first := Stamps(r)[m].first;
      if first <= q[..done + k] && !(first <= q[..done]) {
        FirstOnPath(r, child, q, done, k, m);
      }
      if m == child {
        assert first == q[..done + 1];
      }
    }
  }

  lemma FirstCovered(r: Radix, m: int)
    requires Shape(r) && m in r.nodes && m != ROOT
    ensures var first := Stamps(r)[m].first; Covers(r.nodes[m], first) && first in r.home && r.home[first] == m
  {
    var first := Stamps(r)[m].first;
    assert NodeOk(r.nodes, m);
    assert r.nodes[m].start + r.nodes[m].edge == first + r.nodes[m].edge[1..];
    assert Covers(r.nodes[m], first);
  }

  lemma FirstOnPath(r: Radix, child: int, q: Key, done: nat, k: nat, m: int)
    requires Shape(r) && child in r.nodes && child != ROOT && m in r.nodes && m != ROOT
    requires 0 < k <= |r.nodes[child].edge| && done + k <= |q| && |r.nodes[child].start| == done
    requires r.nodes[child].start + r.nodes[child].edge[..k] == q[..done + k]
    requires Stamps(r)[m].first <= q[..done + k] && |Stamps(r)[m].first| > done
    ensures m == child
  {
    var t, first := r.nodes, Stamps(r)[m].first;
    FirstCovered(r, m);
    assert t[child].start + t[child].edge == q[..done + k] + t[child].edge[k..];
    assert Covers(t[child], first);
  }

  lemma AccessedNext(a: map<int, Stamp>, b: map<int, Stamp>, c: map<int, Stamp>, q: Key, done: nat, k: nat, child: int,
                     now: int)
    requires Accessed(a, b, q, done, now) && OnlyNext(b, q, done, k, child) && StampSet(b, c, child, now)
    ensures Accessed(a, c, q, done + k, now)
  {
    forall m | m in a
      ensures m in c && c[m] == if a[m].first <= q[..done + k] then a[m].(time := now) else a[m]
    {
      assert m in b && b[m].first == a[m].first;
      assert a[m].first <= q[..done] ==> a[m].first <= q[..done + k];
    }
  }

  /** When the walk stops because the next key of `q` is not stored, no node further along `q` exists. */
  lemma AccessedAll(r: Radix, b: map<int, Stamp>, q: Key, n: nat, now: int)
    requires Shape(r) && Accessed(Stamps(r), b, q, n, now) && (n < |q| ==> q[..n + 1] !in r.home)
    ensures Accessed(Stamps(r), b, q, |q|, now)
  {
    assert q[..|q|] == q;
    forall m | m in Stamps(r) && Stamps(r)[m].first <= q
      ensures Stamps(r)[m].first <= q[..n]
    {
      FirstWithin(r, q, n, m);
    }
  }

  lemma FirstWithin(r: Radix, q: Key, n: nat, m: int)
    requires Shape(r) && m in r.nodes && m != ROOT && Stamps(r)[m].first <= q && n <= |q|
      && (n < |q| ==> q[..n + 1] !in r.home)
    ensures |Stamps(r)[m].first| <= n
  {
    var first := Stamps(r)[m].first;
    FirstCovered(r, m);
    if |first| > n {
      assert first[..n + 1] == q[..n + 1];
      ShorterStored(r, m, first, n + 1);
    }
  }
}
