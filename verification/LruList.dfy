/** The intrusive list that orders the tree nodes by last access
    (src/memory/prefix_cache.cpp, `add_node_to_lru_back`, `remove_node_from_lru`,
    `move_node_to_lru_back`).  Nodes are named by their ids; `next` and `prev` are the two pointer
    fields, and FRONT and BACK the two sentinels. */
module LruLists {
  import opened Collections

  const FRONT := -1
  const BACK := -2

  /** Positions `i` and `i + 1` of `s` point at each other. */
  ghost predicate LinkAt(next: map<int, int>, prev: map<int, int>, s: seq<int>, i: int) {
    0 <= i < |s| - 1 ==>
      s[i] in next && next[s[i]] == s[i + 1] && s[i + 1] in prev && prev[s[i + 1]] == s[i]
  }

  /** The sequence `s` is chained forward by `next` and backward by `prev`. */
  ghost predicate Chained(next: map<int, int>, prev: map<int, int>, s: seq<int>) {
    NoDup(s) && forall i :: LinkAt(next, prev, s, i)
  }

  lemma ChainAppend(next: map<int, int>, prev: map<int, int>, s: seq<int>, n: int)
    requires Chained(next, prev, s) && |s| >= 2 && n !in s
    ensures var last, back := s[|s| - 2], s[|s| - 1];
            Chained(next[n := back][last := n], prev[n := last][back := n], s[..|s| - 1] + [n, back])
  {
    Apart(s);
    var last, back := s[|s| - 2], s[|s| - 1];
    var next', prev', s' := next[n := back][last := n], prev[n := last][back := n], s[..|s| - 1] + [n, back];
    forall i
      ensures LinkAt(next', prev', s', i)
    {
      assert LinkAt(next, prev, s, i);
    }
  }

  lemma ChainRemove(next: map<int, int>, prev: map<int, int>, s: seq<int>, k: nat)
    requires Chained(next, prev, s) && 0 < k < |s| - 1
    ensures Chained(next[s[k - 1] := s[k + 1]], prev[s[k + 1] := s[k - 1]], s[..k] + s[k + 1..])
  {
    Apart(s);
    var next', prev', s' := next[s[k - 1] := s[k + 1]], prev[s[k + 1] := s[k - 1]], s[..k] + s[k + 1..];
    forall i
      ensures LinkAt(next', prev', s', i)
    {
      assert LinkAt(next, prev, s, i);
      assert LinkAt(next, prev, s, i + 1);
    }
  }

  ghost function Full(order: seq<int>): seq<int> {
    [FRONT] + order + [BACK]
  }

  ghost function IndexOf(order: seq<int>, n: int): (i: nat)
    requires n in order
    ensures i < |order| && order[i] == n
  {
    if order[0] == n then 0 else 1 + IndexOf(order[1..], n)
  }

  ghost function Without(order: seq<int>, n: int): seq<int> {
    if n in order then order[..IndexOf(order, n)] + order[IndexOf(order, n) + 1..] else order
  }

  /** Removing a node takes out its one occurrence. */
  lemma WithoutAt(order: seq<int>, i: nat)
    requires NoDup(order) && i < |order|
    ensures Without(order, order[i]) == order[..i] + order[i + 1..]
    ensures NoDup(Without(order, order[i])) && order[i] !in Without(order, order[i])
    ensures forall m :: m in Without(order, order[i]) ==> m in order
  {
    Apart(order);
    assert IndexOf(order, order[i]) == i;
  }

  lemma Bracket(front: seq<int>, a: seq<int>, n: int, b: seq<int>, back: seq<int>)
    ensures var s := front + (a + [n] + b) + back;
      s[..|front| + |a|] == front + a && s[|front| + |a| + 1..] == b + back
  {
    var s := front + (a + [n] + b) + back;
    assert s == (front + a) + ([n] + (b + back));
  }

  lemma FullWithout(order: seq<int>, i: nat)
    requires NoDup(order) && i < |order|
    ensures Full(Without(order, order[i])) == Full(order)[..i + 1] + Full(order)[i + 2..]
  {
    WithoutAt(order, i);
    var a, b := order[..i], order[i + 1..];
    assert order == a + [order[i]] + b;
    Bracket([FRONT], a, order[i], b, [BACK]);
    assert [FRONT] + (a + b) + [BACK] == ([FRONT] + a) + (b + [BACK]);
  }

  class LruList {
    var next: map<int, int>
    var prev: map<int, int>
    ghost var order: seq<int>

    ghost predicate Valid()
      reads this
    {
      NoDup(order) && (forall n :: n in order ==> n >= 0) && Chained(next, prev, Full(order))
    }

    constructor ()
      ensures Valid() && order == []
    {
      next := map[FRONT := BACK];
      prev := map[BACK := FRONT];
      order := [];
    }

    /** The successor of position `i` of the list; past the last node it is BACK. */
    method Next(node: int, ghost i: nat) returns (n: int)
      requires Valid() && i <= |order| && node == Full(order)[i]
      ensures n == Full(order)[i + 1]
      ensures n == BACK <==> i == |order|
    {
      assert LinkAt(next, prev, Full(order), i);
      n := next[node];
      assert i < |order| ==> Full(order)[i + 1] == order[i] && order[i] in order;
    }

    method AddBack(n: int)
      requires Valid() && n !in order && n >= 0
      modifies this
      ensures Valid() && order == old(order) + [n]
    {
      ghost var s := Full(order);
      assert LinkAt(next, prev, s, |order|);
      ChainAppend(next, prev, s, n);
      NoDupAppend(order, n);
      var last := prev[BACK];
      prev := prev[n := last];
      next := next[n := BACK];
      next := next[last := n];
      prev := prev[BACK := n];
      order := order + [n];
      assert Full(order) == s[..|s| - 1] + [n, BACK];
    }

    method Remove(n: int)
      requires Valid() && n in order
      modifies this
      ensures Valid() && order == Without(old(order), n)
    {
      ghost var s := Full(order);
      ghost var i := IndexOf(order, n);
      WithoutAt(order, i);
      FullWithout(order, i);
      assert LinkAt(next, prev, s, i) && LinkAt(next, prev, s, i + 1);
      ChainRemove(next, prev, s, i + 1);
      var p, q := prev[n], next[n];
      next := next[p := q];
      prev := prev[q := p];
      order := Without(order, n);
    }

    method MoveToBack(n: int)
      requires Valid() && n in order
      modifies this
      ensures Valid() && order == Without(old(order), n) + [n]
    {
      WithoutAt(order, IndexOf(order, n));
      Remove(n);
      AddBack(n);
    }
  }
}
