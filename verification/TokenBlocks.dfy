/** Token vectors cut into blocks of `bs` tokens. */
module TokenBlocks {
  import opened RadixTree

  ghost predicate Sized(k: Key, bs: nat) {
    forall i :: 0 <= i < |k| ==> |k[i]| == bs
  }

  ghost function Flatten(k: Key): seq<int> {
    if k == [] then [] else k[0] + Flatten(k[1..])
  }

  /** The whole blocks of `t`, in order. */
  ghost function Chunks(t: seq<int>, bs: nat): Key
    requires bs > 0
  {
    if |t| < bs then [] else [t[..bs]] + Chunks(t[bs..], bs)
  }

  lemma DivStep(r: int, bs: nat)
    requires bs > 0 && r >= bs
    ensures r / bs == (r - bs) / bs + 1
  {
    var q := (r - bs) / bs;
    assert r - bs == q * bs + (r - bs) % bs;
    DivUnique(r, bs, q + 1, (r - bs) % bs);
  }

  lemma MulAtLeast(a: int, bs: nat)
    requires a >= 1
    ensures a * bs >= bs
  {
    assert a * bs == (a - 1) * bs + bs;
  }

  lemma DivUnique(r: int, bs: nat, q: int, m: int)
    requires bs > 0 && r == q * bs + m && 0 <= m < bs
    ensures r / bs == q && r % bs == m
  {
    var q', m' := r / bs, r % bs;
    assert r == q' * bs + m';
    assert (q - q') * bs == q * bs - q' * bs && (q' - q) * bs == q' * bs - q * bs;
    if q > q' {
      MulAtLeast(q - q', bs);
    } else if q < q' {
      MulAtLeast(q' - q, bs);
    }
  }

  lemma DivSmall(r: nat, bs: nat)
    requires r < bs
    ensures r / bs == 0
  {
    DivUnique(r, bs, 0, r);
  }

  lemma DivExact(n: nat, bs: nat)
    requires bs > 0
    ensures n * bs / bs == n && (n * bs) % bs == 0
  {
    DivUnique(n * bs, bs, n, 0);
  }

  lemma {:induction false} FlattenSize(k: Key, bs: nat)
    requires Sized(k, bs)
    ensures |Flatten(k)| == |k| * bs
  {
    if k != [] {
      FlattenSize(k[1..], bs);
      assert |k| * bs == (|k| - 1) * bs + bs;
    }
  }

  lemma FlattenEmpty(k: Key, bs: nat)
    requires Sized(k, bs) && bs > 0
    ensures Flatten(k) == [] <==> k == []
  {
  }

  lemma {:induction false} FlattenAppend(a: Key, b: Key)
    ensures Flatten(a + b) == Flatten(a) + Flatten(b)
  {
    if a == [] {
      assert a + b == b;
    } else {
      FlattenAppend(a[1..], b);
      assert (a + b)[0] == a[0] && (a + b)[1..] == a[1..] + b;
    }
  }

  /** Cutting a token vector at a block boundary cuts its key. */
  lemma FlattenCut(k: Key, n: nat, bs: nat)
    requires Sized(k, bs) && n <= |k|
    ensures 0 <= n * bs <= |Flatten(k)|
    ensures Flatten(k)[..n * bs] == Flatten(k[..n])
    ensures Flatten(k)[n * bs..] == Flatten(k[n..])
  {
    assert k == k[..n] + k[n..];
    FlattenAppend(k[..n], k[n..]);
    FlattenSize(k[..n], bs);
  }

  lemma {:induction false} ChunksCount(t: seq<int>, bs: nat)
    requires bs > 0
    ensures Sized(Chunks(t, bs), bs) && |Chunks(t, bs)| == |t| / bs
  {
    if |t| < bs {
      DivSmall(|t|, bs);
    } else {
      ChunksCount(t[bs..], bs);
      DivStep(|t|, bs);
    }
  }

  lemma {:induction false} ChunksFlatten(t: seq<int>, bs: nat)
    requires bs > 0
    ensures Flatten(Chunks(t, bs)) <= t
  {
    if |t| >= bs {
      ChunksFlatten(t[bs..], bs);
      assert t == t[..bs] + t[bs..];
      assert Flatten(Chunks(t, bs)) == t[..bs] + Flatten(Chunks(t[bs..], bs));
    }
  }

  lemma ChunksAre(t: seq<int>, bs: nat)
    requires bs > 0
    ensures Sized(Chunks(t, bs), bs) && |Chunks(t, bs)| == |t| / bs
    ensures 0 <= |t| / bs * bs <= |t| && Flatten(Chunks(t, bs)) == t[..|t| / bs * bs]
  {
    ChunksCount(t, bs);
    ChunksFlatten(t, bs);
    FlattenSize(Chunks(t, bs), bs);
  }

  lemma {:induction false} ChunksOfFlatten(k: Key, bs: nat)
    requires Sized(k, bs) && bs > 0
    ensures Chunks(Flatten(k), bs) == k
  {
    if k != [] {
      ChunksOfFlatten(k[1..], bs);
      var t := Flatten(k);
      assert t[..bs] == k[0];
      assert t[bs..] == Flatten(k[1..]);
    }
  }

  /** The blocks of a shorter prefix are a prefix of the blocks. */
  lemma {:induction false} ChunksOfPrefix(t: seq<int>, n: nat, bs: nat)
    requires bs > 0 && n <= |t|
    ensures n / bs <= |Chunks(t, bs)|
    ensures Chunks(t[..n], bs) == Chunks(t, bs)[..n / bs]
  {
    if n < bs {
      DivSmall(n, bs);
    } else {
      ChunksOfPrefix(t[bs..], n - bs, bs);
      DivStep(n, bs);
      var head, rest, m := t[..bs], Chunks(t[bs..], bs), (n - bs) / bs;
      assert t[..n][bs..] == t[bs..][..n - bs] && t[..n][..bs] == head;
      assert Chunks(t[..n], bs) == [head] + rest[..m];
      assert ([head] + rest)[..m + 1] == [head] + rest[..m];
    }
  }

  /** `r` is the length of the longest common prefix of `a` and `b`. */
  ghost predicate IsCommon<T>(a: seq<T>, b: seq<T>, r: nat) {
    && r <= |a| && r <= |b| && a[..r] == b[..r]
    && (r == |a| || r == |b| || a[r] != b[r])
  }

  lemma CommonAfter<T>(p: seq<T>, x: seq<T>, y: seq<T>, r: nat)
    requires IsCommon(p + x, p + y, r)
    ensures r >= |p| && IsCommon(x, y, r - |p|)
  {
    assert forall i :: 0 <= i < |p| ==> (p + x)[i] == p[i] == (p + y)[i];
    var n := r - |p|;
    assert (p + x)[..r][|p|..] == x[..n] && (p + y)[..r][|p|..] == y[..n];
  }

  lemma CommonBefore<T>(p: seq<T>, q: seq<T>, x: seq<T>, y: seq<T>, r: nat)
    requires |p| == |q| && p != q && IsCommon(p + x, q + y, r)
    ensures r < |p|
  {
    var i :| 0 <= i < |p| && p[i] != q[i];
    assert (p + x)[i] == p[i] && (q + y)[i] == q[i];
    assert i < r ==> (p + x)[..r][i] == (p + x)[i] && (q + y)[..r][i] == (q + y)[i];
  }

  /** Rounding the common prefix of two block-aligned token vectors down to a block boundary gives
      the common prefix of their keys. */
  lemma {:induction false} RoundedCommon(a: Key, b: Key, r: nat, bs: nat)
    requires bs > 0 && Sized(a, bs) && Sized(b, bs)
    requires IsCommon(Flatten(a), Flatten(b), r)
    ensures IsCommon(a, b, r / bs)
  {
    if a == [] || b == [] {
      DivSmall(0, bs);
    } else if a[0] == b[0] {
      CommonAfter(a[0], Flatten(a[1..]), Flatten(b[1..]), r);
      RoundedCommon(a[1..], b[1..], r - bs, bs);
      DivStep(r, bs);
      var n := r / bs;
      assert a[..n] == [a[0]] + a[1..][..n - 1];
      assert b[..n] == [b[0]] + b[1..][..n - 1];
    } else {
      CommonBefore(a[0], b[0], Flatten(a[1..]), Flatten(b[1..]), r);
      DivSmall(r, bs);
    }
  }

  /** The number of whole blocks in `n` tokens. */
  ghost function BlocksIn(n: nat, bs: nat): nat
    requires bs > 0
  {
    if n < bs then 0 else 1 + BlocksIn(n - bs, bs)
  }

  lemma {:induction false} BlocksInIs(n: nat, bs: nat)
    requires bs > 0
    ensures BlocksIn(n, bs) == n / bs
  {
    if n < bs {
      DivSmall(n, bs);
    } else {
      BlocksInIs(n - bs, bs);
      DivStep(n, bs);
    }
  }

  lemma {:induction false} BlocksInMono(a: nat, b: nat, bs: nat)
    requires a <= b && bs > 0
    ensures BlocksIn(a, bs) <= BlocksIn(b, bs)
  {
    if a >= bs {
      BlocksInMono(a - bs, b - bs, bs);
    }
  }

  lemma {:induction false} BlocksInExact(n: nat, bs: nat)
    requires bs > 0
    ensures n * bs >= 0 && BlocksIn(n * bs, bs) == n
  {
    DivExact(n, bs);
    BlocksInIs(n * bs, bs);
  }
}
