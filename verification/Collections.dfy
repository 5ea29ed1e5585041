/** Small facts about sequences, sets and multisets that the other modules share. */
module Collections {

  /** The large invariants are stated as `forall u :: Unfold(u) ==> ...`, so that a proof looks inside
      one of them only after it says `assert Unfold(true)`. */
  ghost predicate Unfold(u: bool) {
    true
  }

  /** The same for one of several invariants that a proof has at hand, by number. */
  ghost predicate UnfoldPart(part: nat, u: bool) {
    true
  }

  datatype Option<T> = None | Some(value: T)

  function Min(a: int, b: int): int {
    if a < b then a else b
  }

  function Max(a: int, b: int): int {
    if a < b then b else a
  }

  ghost predicate Differ<T>(s: seq<T>, i: int, j: int) {
    0 <= i < j < |s| ==> s[i] != s[j]
  }

  /** No element occurs twice. */
  ghost predicate NoDup<T>(s: seq<T>) {
    forall i, j :: Differ(s, i, j)
  }

  lemma Apart<T>(s: seq<T>)
    requires NoDup(s)
    ensures forall i, j :: 0 <= i < j < |s| ==> s[i] != s[j]
  {
    forall i, j | 0 <= i < j < |s|
      ensures s[i] != s[j]
    {
      assert Differ(s, i, j);
    }
  }

  lemma NoDupSlice<T>(s: seq<T>, lo: nat, hi: nat)
    requires NoDup(s) && lo <= hi <= |s|
    ensures NoDup(s[lo..hi])
  {
    forall i, j
      ensures Differ(s[lo..hi], i, j)
    {
      assert Differ(s, lo + i, lo + j);
    }
  }

  lemma NoDupLast<T>(s: seq<T>)
    requires NoDup(s) && |s| > 0
    ensures NoDup(s[..|s| - 1]) && s[|s| - 1] !in s[..|s| - 1] && s == s[..|s| - 1] + [s[|s| - 1]]
  {
    NoDupSlice(s, 0, |s| - 1);
    var last := |s| - 1;
    forall i | 0 <= i < last
      ensures s[i] != s[last]
    {
      assert Differ(s, i, last);
    }
  }

  lemma NoDupAppend<T>(s: seq<T>, x: T)
    requires NoDup(s) && x !in s
    ensures NoDup(s + [x])
  {
    forall i, j
      ensures Differ(s + [x], i, j)
    {
      assert Differ(s, i, j);
    }
  }

  ghost function Elements<T>(s: seq<T>): set<T> {
    set x | x in s
  }

  /** Any element of a nonempty set, as an iteration over an unordered set yields one. */
  method Pick<T(==)>(s: set<T>) returns (x: T)
    requires s != {}
    ensures x in s
  {
    x :| x in s;
  }

  lemma AnyOf<T>(s: set<T>) returns (x: T)
    requires s != {}
    ensures x in s
  {
    x :| x in s;
  }

  /** The ids 0..n-1. */
  ghost function Range(n: nat): (r: set<int>)
    ensures |r| == n
    ensures forall i :: i in r <==> 0 <= i < n
  {
    if n == 0 then {} else Range(n - 1) + {n - 1}
  }

  lemma TwoParts<T>(whole: set<T>, a: set<T>, b: set<T>)
    requires forall x :: x in whole <==> x in a || x in b
    requires forall x :: x in a ==> x !in b
    ensures |whole| == |a| + |b|
  {
    assert whole == a + b && a !! b;
  }

  lemma {:induction false} SubsetSize<T>(a: set<T>, b: set<T>)
    requires a <= b
    ensures |a| <= |b|
    ensures |a| == |b| ==> a == b
  {
    assert b == a + (b - a);
  }

  lemma {:induction false} NoDupSize<T>(s: seq<T>)
    requires NoDup(s)
    ensures |Elements(s)| == |s|
  {
    if |s| == 0 {
      assert Elements(s) == {};
    } else {
      var init, last := s[..|s| - 1], s[|s| - 1];
      NoDupLast(s);
      NoDupSize(init);
      assert Elements(s) == Elements(init) + {last};
    }
  }

  /** A sequence without repetition counts each of its elements once. */
  lemma {:induction false} NoDupCount<T>(s: seq<T>, x: T)
    requires NoDup(s)
    ensures multiset(s)[x] == if x in s then 1 else 0
  {
    if |s| > 0 {
      var init, last := s[..|s| - 1], s[|s| - 1];
      NoDupLast(s);
      assert multiset(s) == multiset(init) + multiset{last};
      NoDupCount(init, x);
    }
  }

  lemma NoDupPrefix<T>(s: seq<T>, i: nat)
    requires NoDup(s) && i < |s|
    ensures multiset(s[..i])[s[i]] == 0 && multiset(s[..i + 1]) == multiset(s[..i]) + multiset{s[i]}
  {
    NoDupSlice(s, 0, i + 1);
    NoDupLast(s[..i + 1]);
    assert s[..i + 1][..i] == s[..i] && s[..i + 1] == s[..i] + [s[i]];
    assert s[i] in multiset(s[..i]) <==> s[i] in s[..i];
  }
}
