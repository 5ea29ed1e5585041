/** Access times and the LRU order of the tree nodes (src/memory/prefix_cache.cpp). */
module Recency {
  import opened Collections
  import opened RadixTree
  import opened LruLists

  /** The list holds exactly the tree nodes, oldest access first. */
  ghost predicate Ordered(t: map<int, RNode>, order: seq<int>) {
    && NoDup(order)
    && (forall i :: 0 <= i < |order| ==> order[i] in t && order[i] != ROOT)
    && (forall n {:trigger n in order} :: n in t && n != ROOT ==> n in order)
    && (forall i, j :: NotLater(t, order, i, j))
  }

  ghost predicate NotLater(t: map<int, RNode>, order: seq<int>, i: int, j: int) {
    0 <= i < j < |order| && order[i] in t && order[j] in t ==> t[order[i]].time <= t[order[j]].time
  }

  /** A node is at least as recent as its child `n`. */
  ghost predicate ParentFresher(t: map<int, RNode>, n: int) {
    n in t && n != ROOT && t[n].parent in t && t[n].parent != ROOT ==> t[n].time <= t[t[n].parent].time
  }

  ghost predicate Recent(t: map<int, RNode>, order: seq<int>, now: int) {
    && Ordered(t, order)
    && (forall n {:trigger ParentFresher(t, n)} :: n in t ==> ParentFresher(t, n))
    && (forall n {:trigger t[n].time} :: n in t && n != ROOT ==> 0 <= t[n].time <= now)
  }

  lemma WithoutElements(order: seq<int>, n: int)
    requires NoDup(order) && n in order
    ensures NoDup(Without(order, n))
    ensures forall m :: m in Without(order, n) <==> m in order && m != n
  {
    var i := IndexOf(order, n);
    WithoutAt(order, i);
    forall m
      ensures m in Without(order, n) <==> m in order && m != n
    {
      assert order == order[..i] + [n] + order[i + 1..];
    }
  }

  lemma WithoutSorted(t: map<int, RNode>, order: seq<int>, n: int)
    requires Ordered(t, order) && n in order
    ensures var rest := Without(order, n);
            && (forall m :: m in rest ==> m in t)
            && (forall i, j :: NotLater(t, rest, i, j))
  {
    var k, rest := IndexOf(order, n), Without(order, n);
    WithoutAt(order, k);
    WithoutElements(order, n);
    forall i, j
      ensures NotLater(t, rest, i, j)
    {
      var i', j' := if i < k then i else i + 1, if j < k then j else j + 1;
      assert NotLater(t, order, i', j');
      if 0 <= i < j < |rest| {
        assert rest[i] == order[i'] && rest[j] == order[j'];
      }
    }
  }

  lemma TouchRecent(r: Radix, order: seq<int>, before: int, n: int, now: int)
    requires Shape(r) && Recent(r.nodes, order, before) && before <= now
    requires n in r.nodes && n != ROOT && 0 <= now
    requires r.nodes[n].parent == ROOT || (r.nodes[n].parent in r.nodes && r.nodes[r.nodes[n].parent].time == now)
    ensures Recent(Touch(r, n, now).nodes, Without(order, n) + [n], now)
  {
    WithoutElements(order, n);
    WithoutSorted(r.nodes, order, n);
    var t, t', rest := r.nodes, Touch(r, n, now).nodes, Without(order, n);
    var order' := rest + [n];
    NoDupAppend(rest, n);
    forall i, j
      ensures NotLater(t', order', i, j)
    {
      assert NotLater(t, rest, i, j);
      assert 0 <= i < |rest| ==> rest[i] in rest;
      assert 0 <= j < |rest| ==> rest[j] in rest;
    }
    forall m | m in t'
      ensures ParentFresher(t', m)
    {
      assert ParentFresher(t, m);
    }
  }

  lemma SplitRecent(r: Radix, order: seq<int>, n: int, k: nat, id: int, now: int)
    requires CanSplit(r, n, k, id) && Recent(r.nodes, order, now)
    requires r.nodes[n].time == now && id != ROOT
    ensures Recent(SplitNodes(r.nodes, n, k, id), order + [id], now)
  {
    var t, t', order' := r.nodes, SplitNodes(r.nodes, n, k, id), order + [id];
    NoDupAppend(order, id);
    forall i, j
      ensures NotLater(t', order', i, j)
    {
      assert NotLater(t, order, i, j);
    }
    forall m | m in t'
      ensures ParentFresher(t', m)
    {
      assert m != id ==> ParentFresher(t, m);
    }
  }

  lemma AddRecent(r: Radix, order: seq<int>, before: int, p: int, edge: Key, blocks: seq<int>, now: int, id: int)
    requires CanAdd(r, p, edge, blocks, id) && Recent(r.nodes, order, before) && 0 <= now && before <= now
    requires (p == ROOT || r.nodes[p].time == now) && id != ROOT
    ensures Recent(AddNode(r.nodes, p, edge, blocks, now, id), order + [id], now)
  {
    var t, t', order' := r.nodes, AddNode(r.nodes, p, edge, blocks, now, id), order + [id];
    NoDupAppend(order, id);
    forall i, j
      ensures NotLater(t', order', i, j)
    {
      assert NotLater(t, order, i, j);
    }
    forall m | m in t'
      ensures ParentFresher(t', m)
    {
      assert m != id ==> ParentFresher(t, m);
    }
  }

  lemma TrimRecent(r: Radix, order: seq<int>, n: int, k: nat, now: int)
    requires CanCut(r, n, k) && Recent(r.nodes, order, now) && k > 0
    ensures Recent(CutNodes(r.nodes, n, k), order, now)
  {
    var t, t' := r.nodes, CutNodes(r.nodes, n, k);
    forall i, j
      ensures NotLater(t', order, i, j)
    {
      assert NotLater(t, order, i, j);
    }
    forall m | m in t'
      ensures ParentFresher(t', m)
    {
      assert ParentFresher(t, m);
    }
  }

  lemma RemoveRecent(r: Radix, order: seq<int>, n: int, now: int)
    requires CanCut(r, n, 0) && Recent(r.nodes, order, now)
    ensures Recent(CutNodes(r.nodes, n, 0), Without(order, n), now)
  {
    WithoutElements(order, n);
    WithoutSorted(r.nodes, order, n);
    var t, t', rest := r.nodes, CutNodes(r.nodes, n, 0), Without(order, n);
    forall i, j
      ensures NotLater(t', rest, i, j)
    {
      assert NotLater(t, rest, i, j);
    }
    assert NodeOk(t, n);
    forall m | m in t'
      ensures ParentFresher(t', m)
    {
      assert ParentFresher(t, m);
      assert m != ROOT ==> NodeOk(t, m);
    }
  }
}
