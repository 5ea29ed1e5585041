/** Loading sharded and fused weights from a sequence of state dicts (src/layers/weight_utils.cpp,
    src/model_loader/state_dict.cpp). */
module WeightLoading {
  import opened Collections
  import opened TensorParallel
  import TokenBlocks

  /** A two-dimensional tensor as its rows, or a one-dimensional one. */
  datatype Tensor = Matrix(rows: seq<Vector>, cols: nat) | Flat(values: Vector)

  type StateDict = map<string, Tensor>

  /** The result of a lookup: an undefined tensor, a tensor, or a failed check that ends the program. */
  datatype Lookup = Undefined | Defined(tensor: Tensor) | CheckFailed

  function GetTensor(dict: StateDict, name: string): Lookup {
    if name in dict then Defined(dict[name]) else Undefined
  }

  function Slice<T>(s: seq<T>, c: nat, rank: nat): seq<T> {
    if (rank + 1) * c <= |s| then Part(s, c, rank) else []
  }

  /** The chunk of rank `rank` when dimension `dim` is cut into chunks of size `c`. */
  function Chunk(t: Tensor, dim: nat, c: nat, rank: nat): Tensor {
    match t
    case Flat(values) => Flat(Slice(values, c, rank))
    case Matrix(rows, cols) =>
      if dim == 0 then Matrix(Slice(rows, c, rank), cols)
      else Matrix(seq(|rows|, j requires 0 <= j < |rows| => Slice(rows[j], c, rank)), c)
  }

  /** The extent of a dimension; a one-dimensional tensor has only dimension 0. */
  function Extent(t: Tensor, dim: nat): nat {
    match t
    case Flat(values) => |values|
    case Matrix(rows, cols) => if dim == 0 then |rows| else cols
  }

  /** A tensor smaller than the number of ranks is returned whole. */
  function GetShardedTensor(dict: StateDict, name: string, dim: nat, rank: nat, world: nat): Lookup {
    if dim > 1 || rank >= world then CheckFailed
    else
      match GetTensor(dict, name)
      case Defined(t) =>
        if t.Flat? && dim == 1 then CheckFailed
        else if Extent(t, dim) < world then Defined(t)
        else if Extent(t, dim) % world != 0 then CheckFailed
        else Defined(Chunk(t, dim, Extent(t, dim) / world, rank))
      case other => other
  }

  /** `n` rows, columns or values can be divided evenly over the ranks, or are too few to divide. */
  predicate Shardable(n: nat, world: nat) {
    world > 0 && (n < world || exists c :: 0 <= c <= n && n == world * c)
  }

  lemma ShardableIff(n: nat, world: nat)
    requires world > 0
    ensures Shardable(n, world) <==> n < world || n % world == 0
  {
    if n >= world && n % world == 0 {
      assert n == world * (n / world) + n % world;
      var c := n / world;
      assert c <= n by {
        if c > n {
          TokenBlocks.MulAtLeast(c - n, world);
          assert (c - n) * world == world * c - n * world;
          TokenBlocks.MulAtLeast(world, n);
        }
      }
      assert 0 <= c <= n && n == world * c;
    }
    if c :| 0 <= c <= n && n == world * c {
      TokenBlocks.DivUnique(n, world, c, 0);
    }
  }

  /** When a lookup ends the program: the dimension or the rank is out of range, or the tensor is there and
      its extent in that dimension can be neither divided evenly nor left whole.  A missing name is no
      failure. */
  lemma LookupFails(dict: StateDict, name: string, dim: nat, rank: nat, world: nat)
    ensures var found := GetShardedTensor(dict, name, dim, rank, world);
      && (dim > 1 || rank >= world ==> found == CheckFailed)
      && (dim <= 1 && rank < world && name !in dict ==> found == Undefined)
      && (dim <= 1 && rank < world && name in dict ==>
            match dict[name]
            case Flat(values) => found == CheckFailed <==> dim == 1 || !Shardable(|values|, world)
            case Matrix(rows, cols) => found == CheckFailed <==> !Shardable(if dim == 0 then |rows| else cols, world))
      && (dim <= 1 && rank < world && name in dict ==> found != Undefined)
  {
    if dim <= 1 && rank < world && name in dict {
      ShardableIff(Extent(dict[name], dim), world);
    }
  }

  /** A tensor with fewer rows, columns or values than ranks is returned whole, and any other one as its
      rank-th even part. */
  lemma LookupGives(dict: StateDict, name: string, dim: nat, rank: nat, world: nat)
    requires dim <= 1 && rank < world && name in dict && GetShardedTensor(dict, name, dim, rank, world).Defined?
    ensures var t, t' := dict[name], GetShardedTensor(dict, name, dim, rank, world).tensor;
      match t
      case Flat(values) =>
        if |values| < world then t' == t else t'.Flat? && |t'.values| * world == |values|
      case Matrix(rows, cols) =>
        var n := if dim == 0 then |rows| else cols;
        if n < world then t' == t
        else t'.Matrix? && (if dim == 0 then |t'.rows| * world == |rows| && t'.cols == cols
                            else |t'.rows| == |rows| && t'.cols * world == cols)
  {
    var t := dict[name];
    var n := Extent(t, dim);
    if n >= world {
      EvenShare(n, world);
      PartFits(n, world, n / world, rank);
    }
  }

  lemma EvenShare(n: nat, world: nat)
    requires world > 0 && n % world == 0
    ensures Divides(n, world, n / world)
  {
    assert n == world * (n / world) + n % world;
  }

  /** Sharding loses nothing: the rows of all ranks, put together again, are the rows of the tensor. */
  lemma RowShardsRebuild(dict: StateDict, name: string, world: nat)
    requires world > 0 && name in dict && dict[name].Matrix? && |dict[name].rows| >= world
      && |dict[name].rows| % world == 0
    ensures forall rank :: 0 <= rank < world ==>
      GetShardedTensor(dict, name, 0, rank, world).Defined?
      && ShardRows(dict, name, world, rank) == Slice(dict[name].rows, |dict[name].rows| / world, rank)
    ensures Concat(seq(world, rank requires 0 <= rank < world => ShardRows(dict, name, world, rank))) == dict[name].rows
  {
    var rows := dict[name].rows;
    var c := |rows| / world;
    EvenShare(|rows|, world);
    var shards := seq(world, rank requires 0 <= rank < world => ShardRows(dict, name, world, rank));
    JoinParts(rows, c, world);
    forall rank | 0 <= rank < world
      ensures shards[rank] == Parts(rows, c, world)[rank]
    {
      PartFits(|rows|, world, c, rank);
      PartsAt(rows, c, world, rank);
    }
    assert shards == Parts(rows, c, world);
  }

  ghost function ShardRows(dict: StateDict, name: string, world: nat, rank: nat): seq<Vector> {
    match GetShardedTensor(dict, name, 0, rank, world)
    case Defined(Matrix(rows, _)) => rows
    case _ => []
  }

  lemma {:induction false} PartsAt<T>(s: seq<T>, c: nat, k: nat, rank: nat)
    requires k * c <= |s| && rank < k
    ensures (rank + 1) * c <= |s| && |Parts(s, c, k)| == k && Parts(s, c, k)[rank] == Part(s, c, rank)
  {
    PartBounds(c, k - 1);
    JoinParts(s, c, k);
    JoinParts(s, c, k - 1);
    if rank < k - 1 {
      PartsAt(s, c, k - 1, rank);
    }
  }

  // ---------------------------------------------------------------- fused weights

  /** Concatenation on dimension 0; the tensors must agree in the other dimension. */
  function Cat(ts: seq<Tensor>): Option<Tensor> {
    if ts == [] then None
    else if forall i :: 0 <= i < |ts| ==> ts[i].Flat? then Some(Flat(Concat(AllValues(ts))))
    else if forall i :: 0 <= i < |ts| ==> ts[i].Matrix? && ts[i].cols == Columns(ts[0])
      then Some(Matrix(Concat(AllRows(ts)), Columns(ts[0])))
    else None
  }

  function Columns(t: Tensor): nat {
    if t.Matrix? then t.cols else 0
  }

  function AllValues(ts: seq<Tensor>): seq<Vector> {
    seq(|ts|, i requires 0 <= i < |ts| => if ts[i].Flat? then ts[i].values else [])
  }

  function AllRows(ts: seq<Tensor>): seq<seq<Vector>> {
    seq(|ts|, i requires 0 <= i < |ts| => if ts[i].Matrix? then ts[i].rows else [])
  }

  predicate SameSizes(a: Tensor, b: Tensor) {
    match a
    case Flat(values) => b.Flat? && |b.values| == |values|
    case Matrix(rows, cols) => b.Matrix? && |b.rows| == |rows| && b.cols == cols
  }

  /** A loaded tensor is refused exactly when it has another number of dimensions than the weight or another
      extent in one of them. */
  lemma SizesRefused(weight: Tensor, t: Tensor)
    ensures weight.Flat? && t.Flat? ==> (SameSizes(weight, t) <==> |t.values| == |weight.values|)
    ensures weight.Matrix? && t.Matrix? ==>
      (SameSizes(weight, t) <==> |t.rows| == |weight.rows| && t.cols == weight.cols)
    ensures weight.Flat? != t.Flat? ==> !SameSizes(weight, t)
  {
  }

  /** A weight that is fused from one tensor for each prefix. */
  class FusedWeight {
    const prefixes: seq<string>
    const name: string
    const rank: nat
    const world: nat
    var accumulated: seq<Lookup>
    var weight: Tensor
    var loaded: bool

    /** All tensors of the state dicts loaded so far. */
    ghost var union: StateDict

    constructor (prefixes: seq<string>, name: string, rank: nat, world: nat, weight: Tensor)
      requires prefixes != [] && rank < world
      ensures Valid() && !loaded && union == map[] && this.weight == weight
      ensures this.prefixes == prefixes && this.name == name && this.rank == rank && this.world == world
    {
      this.prefixes, this.name, this.rank, this.world := prefixes, name, rank, world;
      this.weight, loaded, accumulated, union := weight, false, [], map[];
      new;
      assert Shard(map[], 0) == Undefined;
    }

    /** This rank's shard of the tensor with the i-th prefix. */
    function Shard(dict: StateDict, i: nat): Lookup
      requires i < |prefixes|
    {
      GetShardedTensor(dict, prefixes[i] + name, 0, rank, world)
    }

    function Accumulated(i: nat): Lookup
      reads this
    {
      if i < |accumulated| then accumulated[i] else Undefined
    }

    ghost predicate AllDefined(dict: StateDict) {
      forall i :: 0 <= i < |prefixes| ==> Shard(dict, i).Defined?
    }

    /** This rank's shards in prefix order. */
    ghost function Shards(dict: StateDict): seq<Tensor>
      requires AllDefined(dict)
    {
      seq(|prefixes|, i requires 0 <= i < |prefixes| => Shard(dict, i).tensor)
    }

    /** The weight is loaded exactly when every prefix has been seen, and is then the shards of this rank
        concatenated in prefix order. */
    ghost predicate Valid()
      reads this
    {
      && prefixes != [] && rank < world
      && (loaded <==> AllDefined(union))
      && (loaded ==> Cat(Shards(union)) == Some(weight))
      && (!loaded ==> |accumulated| <= |prefixes| && forall i :: 0 <= i < |prefixes| ==>
          Accumulated(i) == Shard(union, i) && !Accumulated(i).CheckFailed?)
    }

    /** The names of `dict` that this weight uses are new. */
    ghost predicate Fresh(dict: StateDict)
      reads this
    {
      forall i :: 0 <= i < |prefixes| ==> prefixes[i] + name in dict ==> prefixes[i] + name !in union
    }

    lemma ShardOfUnion(dict: StateDict, i: nat)
      requires i < |prefixes| && (prefixes[i] + name in dict ==> prefixes[i] + name !in union)
      ensures Shard(union + dict, i) == if Shard(dict, i).Undefined? then Shard(union, i) else Shard(dict, i)
      ensures !Shard(union, i).Undefined? ==> Shard(union + dict, i) == Shard(union, i)
    {
    }

    /** Looks every prefix up, and falls back to what earlier state dicts gave. */
    method Collect(dict: StateDict) returns (tensors: seq<Lookup>)
      ensures |tensors| == |prefixes|
      ensures forall i :: 0 <= i < |prefixes| ==> tensors[i] == if Shard(dict, i).Undefined? then Accumulated(i)
        else Shard(dict, i)
    {
      tensors := [];
      for i := 0 to |prefixes|
        invariant |tensors| == i
        invariant forall j :: 0 <= j < i ==> tensors[j] == if Shard(dict, j).Undefined? then Accumulated(j)
          else Shard(dict, j)
      {
        var tensor := Shard(dict, i);
        tensors := tensors + [if tensor.Undefined? then Accumulated(i) else tensor];
      }
    }

    /** The tensors of `all` do not concatenate to the size of the weight. */
    ghost predicate Misfit(all: StateDict)
      reads this
    {
      MisfitOf(weight, all)
    }

    ghost predicate SomeCheckFails(dict: StateDict) {
      exists i :: 0 <= i < |prefixes| && Shard(dict, i).CheckFailed?
    }

    /** Loads one state dict.  It fails exactly when the weight is not loaded yet and a shard check
        fails, or all tensors are there and do not concatenate to the size of the weight. */
    method Load(dict: StateDict) returns (ok: bool)
      requires Valid() && Fresh(dict)
      modifies this
      ensures ok ==> Valid() && union == old(union) + dict
      ensures ok <==> old(loaded) || (!SomeCheckFails(dict) && !old(Misfit(union + dict)))
      ensures !loaded ==> !old(loaded) && weight == old(weight)
      ensures loaded ==> if old(loaded) then weight == old(weight) else SameSizes(old(weight), weight)
    {
      hide GetShardedTensor, Cat, SameSizes;
      ghost var all := union + dict;
      forall i: nat | i < |prefixes| { ShardOfUnion(dict, i); }
      if loaded {
        union := all;
        assert Shards(all) == Shards(old(union));
        return true;
      }
      var tensors := Collect(dict);
      assert forall i :: 0 <= i < |prefixes| ==> tensors[i] == Shard(all, i);
      if exists i :: 0 <= i < |tensors| && tensors[i].CheckFailed? {
        return false;
      }
      assert !SomeCheckFails(dict);
      if forall i :: 0 <= i < |tensors| ==> tensors[i].Defined? {
        ok := Merge(tensors, all);
      } else {
        accumulated := Keep(tensors);
        ok := true;
      }
      union := all;
    }

    /** All tensors are there: they are concatenated into the weight. */
    method Merge(tensors: seq<Lookup>, ghost all: StateDict) returns (ok: bool)
      requires |tensors| == |prefixes| && forall i :: 0 <= i < |prefixes| ==>
        tensors[i] == Shard(all, i) && tensors[i].Defined?
      modifies this`weight, this`accumulated, this`loaded
      ensures AllDefined(all) && (ok <==> !old(Misfit(all)))
      ensures ok ==> loaded && Cat(Shards(all)) == Some(weight) && SameSizes(old(weight), weight)
      ensures !ok ==> loaded == old(loaded) && weight == old(weight)
    {
      var merged := Cat(seq(|tensors|, i requires 0 <= i < |tensors| && tensors[i].Defined? => tensors[i].tensor));
      assert Shards(all) == seq(|tensors|, i requires 0 <= i < |tensors| && tensors[i].Defined? => tensors[i].tensor);
      if merged.None? || !SameSizes(weight, merged.value) {
        return false;
      }
      weight, accumulated, loaded := merged.value, [], true;
      ok := true;
    }

    /** Adds what is new to the accumulated tensors; what was there stays. */
    method Keep(tensors: seq<Lookup>) returns (kept: seq<Lookup>)
      requires |tensors| == |prefixes| && |accumulated| <= |prefixes|
      requires forall i :: 0 <= i < |prefixes| && !Accumulated(i).Undefined? ==> tensors[i] == Accumulated(i)
      ensures kept == tensors
    {
      kept := [];
      for i := 0 to |tensors|
        invariant kept == tensors[..i]
      {
        kept := kept + [if Accumulated(i).Undefined? then tensors[i] else Accumulated(i)];
      }
    }

    /** Loads any sequence of state dicts in which no name occurs twice.  Whether the checks pass, whether
        the weight is then loaded, and its value depend only on the tensors, not on their order or on how
        they are split over the state dicts: it is loaded exactly when every prefix occurs somewhere. */
    method LoadAll(dicts: seq<StateDict>) returns (ok: bool)
      requires Valid() && union == map[] && Disjoint(dicts)
      modifies this
      ensures ok <==> !SomeCheckFails(Union(dicts)) && !old(Misfit(Union(dicts)))
      ensures ok ==> Valid() && union == Union(dicts)
      ensures ok ==> (loaded <==> AllDefined(Union(dicts))) && (loaded ==> Cat(Shards(Union(dicts))) == Some(weight))
      ensures ok && !loaded ==> weight == old(weight)
    {
      ghost var before := weight;
      assert !loaded by { assert Shard(map[], 0) == Undefined; }
      for k := 0 to |dicts|
        invariant Valid() && union == Union(dicts[..k])
        invariant !loaded ==> weight == before
        invariant loaded ==> SameSizes(before, weight)
      {
        assert dicts[..k + 1][..k] == dicts[..k];
        assert Union(dicts[..k + 1]) == Union(dicts[..k]) + dicts[k];
        forall i | 0 <= i < |prefixes| && prefixes[i] + name in dicts[k]
          ensures prefixes[i] + name !in union
        {
          UnionApart(dicts, k, prefixes[i] + name);
        }
        var loadedOne := Load(dicts[k]);
        if !loadedOne {
          FailureStays(dicts, k, before);
          return false;
        }
      }
      assert dicts[..|dicts|] == dicts;
      ok := true;
    }

    /** A failed check is a failed check of all tensors together. */
    lemma FailureStays(dicts: seq<StateDict>, k: nat, before: Tensor)
      requires Disjoint(dicts) && k < |dicts| && rank < world
      requires SomeCheckFails(dicts[k]) || MisfitOf(before, Union(dicts[..k + 1]))
      ensures SomeCheckFails(Union(dicts)) || MisfitOf(before, Union(dicts))
    {
      hide GetShardedTensor, Cat, SameSizes, Union;
      if SomeCheckFails(dicts[k]) {
        var i :| 0 <= i < |prefixes| && Shard(dicts[k], i).CheckFailed?;
        ShardNamed(dicts[k], i);
        UnionHas(dicts, prefixes[i] + name);
        ShardSame(dicts[k], Union(dicts), i);
      } else {
        forall i | 0 <= i < |prefixes|
          ensures Shard(Union(dicts), i) == Shard(Union(dicts[..k + 1]), i)
        {
          ShardNamed(Union(dicts[..k + 1]), i);
          UnionPrefix(dicts, k + 1, prefixes[i] + name);
          ShardSame(Union(dicts[..k + 1]), Union(dicts), i);
        }
        assert Shards(Union(dicts)) == Shards(Union(dicts[..k + 1]));
      }
    }

    lemma ShardNamed(dict: StateDict, i: nat)
      requires i < |prefixes| && rank < world
      ensures !Shard(dict, i).Undefined? ==> prefixes[i] + name in dict
    {
    }

    lemma ShardSame(dict: StateDict, dict': StateDict, i: nat)
      requires i < |prefixes| && prefixes[i] + name in dict && prefixes[i] + name in dict'
        && dict'[prefixes[i] + name] == dict[prefixes[i] + name]
      ensures Shard(dict', i) == Shard(dict, i)
    {
    }

    ghost predicate MisfitOf(before: Tensor, all: StateDict) {
      AllDefined(all) && (Cat(Shards(all)).None? || !SameSizes(before, Cat(Shards(all)).value))
    }
  }

  ghost predicate Apart(a: StateDict, b: StateDict) {
    a.Keys !! b.Keys
  }

  /** Every name is in one state dict only. */
  ghost predicate Disjoint(dicts: seq<StateDict>) {
    forall i, j :: 0 <= i < j < |dicts| ==> Apart(dicts[i], dicts[j])
  }

  ghost function Union(dicts: seq<StateDict>): StateDict {
    if dicts == [] then map[] else Union(dicts[..|dicts| - 1]) + dicts[|dicts| - 1]
  }

  ghost predicate Occurs(dicts: seq<StateDict>, name: string) {
    exists i :: 0 <= i < |dicts| && name in dicts[i]
  }

  lemma {:induction false} UnionHas(dicts: seq<StateDict>, name: string)
    ensures name in Union(dicts) <==> Occurs(dicts, name)
    ensures Disjoint(dicts) ==> forall i :: 0 <= i < |dicts| && name in dicts[i] ==>
      Union(dicts)[name] == dicts[i][name]
  {
    if dicts != [] {
      var n := |dicts| - 1;
      UnionHas(dicts[..n], name);
      forall i | 0 <= i < n && name in dicts[i] && Disjoint(dicts)
        ensures name !in dicts[n]
      {
        assert Apart(dicts[i], dicts[n]);
      }
      assert Occurs(dicts, name) <==> name in dicts[n] || Occurs(dicts[..n], name) by {
        if i :| 0 <= i < |dicts| && name in dicts[i] {
          assert i < n ==> dicts[..n][i] == dicts[i];
        }
      }
    }
  }

  /** A tensor that has been seen stays as it is. */
  lemma UnionPrefix(dicts: seq<StateDict>, k: nat, name: string)
    requires Disjoint(dicts) && k <= |dicts| && name in Union(dicts[..k])
    ensures name in Union(dicts) && Union(dicts)[name] == Union(dicts[..k])[name]
  {
    UnionHas(dicts[..k], name);
    UnionHas(dicts, name);
    var i :| 0 <= i < |dicts[..k]| && name in dicts[..k][i];
    assert dicts[i] == dicts[..k][i];
    assert Disjoint(dicts[..k]) by {
      forall x, y | 0 <= x < y < k ensures Apart(dicts[..k][x], dicts[..k][y]) { assert Apart(dicts[x], dicts[y]); }
    }
  }

  lemma UnionApart(dicts: seq<StateDict>, k: nat, name: string)
    requires Disjoint(dicts) && k < |dicts| && name in dicts[k]
    ensures name !in Union(dicts[..k])
  {
    UnionHas(dicts[..k], name);
    forall i | 0 <= i < k
      ensures name !in dicts[..k][i]
    {
      assert Apart(dicts[i], dicts[k]);
    }
  }

  /** Two ways of distributing the same tensors over state dicts give the same union. */
  lemma SameUnion(dicts: seq<StateDict>, dicts': seq<StateDict>)
    requires Disjoint(dicts) && Disjoint(dicts')
    requires forall name :: Occurs(dicts, name) <==> Occurs(dicts', name)
    requires forall name, i, j :: 0 <= i < |dicts| && 0 <= j < |dicts'| && name in dicts[i] && name in dicts'[j] ==>
      dicts[i][name] == dicts'[j][name]
    ensures Union(dicts) == Union(dicts')
  {
    forall name
      ensures name in Union(dicts) <==> name in Union(dicts')
      ensures name in Union(dicts) ==> Union(dicts)[name] == Union(dicts')[name]
    {
      UnionHas(dicts, name);
      UnionHas(dicts', name);
    }
  }

  /** Neither the order of the files nor the split of the tensors over them matters: two loads of the same
      weight pass the same checks, are complete or not alike, and give the same weight. */
  method OrderDoesNotMatter(prefixes: seq<string>, name: string, rank: nat, world: nat, weight: Tensor,
                            dicts: seq<StateDict>, dicts': seq<StateDict>)
                              returns (w: FusedWeight, w': FusedWeight, ok: bool, ok': bool)
    requires prefixes != [] && rank < world && Disjoint(dicts) && Disjoint(dicts')
    requires forall name :: Occurs(dicts, name) <==> Occurs(dicts', name)
    requires forall name, i, j :: 0 <= i < |dicts| && 0 <= j < |dicts'| && name in dicts[i] && name in dicts'[j] ==>
      dicts[i][name] == dicts'[j][name]
    ensures fresh(w) && w.prefixes == prefixes && w.name == name && w.rank == rank && w.world == world
      && (ok ==> w.union == Union(dicts))
    ensures fresh(w') && w'.prefixes == prefixes && w'.name == name && w'.rank == rank && w'.world == world
      && (ok' ==> w'.union == Union(dicts'))
    ensures (ok <==> ok') && (ok ==> w.Valid() && w'.Valid() && (w.loaded <==> w'.loaded) && w.weight == w'.weight)
  {
    SameUnion(dicts, dicts');
    w := new FusedWeight(prefixes, name, rank, world, weight);
    w' := new FusedWeight(prefixes, name, rank, world, weight);
    SameShards(w, w', Union(dicts), weight);
    ok := w.LoadAll(dicts);
    ok' := w'.LoadAll(dicts');
  }

  lemma SameShards(w: FusedWeight, w': FusedWeight, all: StateDict, before: Tensor)
    requires w.prefixes == w'.prefixes && w.name == w'.name && w.rank == w'.rank && w.world == w'.world
    ensures w.AllDefined(all) <==> w'.AllDefined(all)
    ensures w.AllDefined(all) ==> w.Shards(all) == w'.Shards(all)
    ensures w.SomeCheckFails(all) <==> w'.SomeCheckFails(all)
    ensures w.MisfitOf(before, all) <==> w'.MisfitOf(before, all)
  {
    forall i: nat | i < |w.prefixes| ensures w.Shard(all, i) == w'.Shard(all, i) { }
    if w.AllDefined(all) {
      assert w.Shards(all) == w'.Shards(all);
    }
  }

  // ---------------------------------------------------------------- sharded and full weights

  /** A lookup depends only on whether the name is there and on its tensor. */
  lemma LookupInUnion(dicts: seq<StateDict>, k: nat, name: string, dim: nat, rank: nat, world: nat)
    requires Disjoint(dicts) && k < |dicts| && dim <= 1 && rank < world
    ensures name in dicts[k] ==>
      GetShardedTensor(dicts[k], name, dim, rank, world) == GetShardedTensor(Union(dicts), name, dim, rank, world)
    ensures name in dicts[k] ==> GetTensor(dicts[k], name) == GetTensor(Union(dicts), name)
    ensures name !in dicts[k] ==>
      GetShardedTensor(dicts[k], name, dim, rank, world) == Undefined == GetTensor(dicts[k], name)
  {
    UnionHas(dicts, name);
  }

  lemma LookupNowhere(dicts: seq<StateDict>, name: string, dim: nat, rank: nat, world: nat)
    requires !Occurs(dicts, name) && dim <= 1 && rank < world
    ensures GetShardedTensor(Union(dicts), name, dim, rank, world) == Undefined == GetTensor(Union(dicts), name)
  {
    UnionHas(dicts, name);
  }

  /** Loads a sharded weight that is in at most one of the files. */
  method LoadSharded(files: seq<StateDict>, name: string, dim: nat, rank: nat, world: nat, before: Tensor)
    returns (ok: bool, loaded: bool, weight: Tensor)
    requires Disjoint(files) && dim <= 1 && rank < world
    ensures var found := GetShardedTensor(Union(files), name, dim, rank, world);
      && (ok <==> !found.CheckFailed? && (found.Defined? ==> SameSizes(before, found.tensor)))
      && (ok ==> (loaded <==> found.Defined?) && weight == if loaded then found.tensor else before)
    ensures ok ==> weight.Flat? == before.Flat?
    ensures ok && weight.Flat? && before.Flat? ==> |weight.values| == |before.values|
    ensures ok && weight.Matrix? && before.Matrix? ==>
      |weight.rows| == |before.rows| && weight.cols == before.cols
  {
    hide GetShardedTensor, SameSizes;
    forall t { SizesRefused(before, t); }
    loaded, weight := false, before;
    ghost var found := GetShardedTensor(Union(files), name, dim, rank, world);
    for k := 0 to |files|
      invariant loaded <==> exists i :: 0 <= i < k && name in files[i]
      invariant loaded ==> found == Defined(weight) && SameSizes(before, weight)
      invariant !loaded ==> weight == before
    {
      LookupInUnion(files, k, name, dim, rank, world);
      assert forall i :: 0 <= i < k && name in files[i] ==> name !in files[k] by {
        forall i | 0 <= i < k && name in files[i] ensures name !in files[k] { assert Apart(files[i], files[k]); }
      }
      var tensor := GetShardedTensor(files[k], name, dim, rank, world);
      if tensor.CheckFailed? {
        return false, loaded, weight;
      }
      if tensor.Defined? {
        if !SameSizes(before, tensor.tensor) {
          return false, loaded, weight;
        }
        loaded, weight := true, tensor.tensor;
      } else {
        SomewhereDefined(files, k, name, dim, rank, world);
      }
    }
    if !loaded {
      LookupNowhere(files, name, dim, rank, world);
    }
    ok := true;
  }

  lemma SomewhereDefined(dicts: seq<StateDict>, k: nat, name: string, dim: nat, rank: nat, world: nat)
    requires k < |dicts| && dim <= 1 && rank < world && GetShardedTensor(dicts[k], name, dim, rank, world).Undefined?
    ensures name !in dicts[k]
  {
  }

  // ---------------------------------------------------------------- from the checkpoint to the output

  /** A checkpoint that holds the full weights and biases of a gated feed-forward block. */
  ghost predicate Checkpoint(all: StateDict, gate: Layer, up: Layer, down: Layer, n: nat) {
    && Holds(all, "gate.", gate, n) && Holds(all, "up.", up, n) && Holds(all, "down.", down, |gate.w|)
    && |gate.w| == |up.w|
  }

  ghost predicate Holds(all: StateDict, prefix: string, l: Layer, n: nat) {
    && Fits(l, n) && prefix + "weight" in all && prefix + "bias" in all
    && all[prefix + "weight"] == Matrix(l.w, n) && all[prefix + "bias"] == Flat(l.b)
  }

  /** This rank's share of the output, from the tensors that it loaded: the fused column layer, the
      split by the sizes of one rank, the activation and product, and the row layer before the reduce. */
  function RankOutput(x: Vector, weight: Tensor, bias: Tensor, down: Tensor, c: nat,
                      act: real -> real): Option<Vector> {
    if weight.Matrix? && bias.Flat? && down.Matrix? && |weight.rows| == |bias.values| == c + c && down.cols == c
       && (forall j :: 0 <= j < |weight.rows| ==> |weight.rows[j]| == |x|)
       && (forall j :: 0 <= j < |down.rows| ==> |down.rows[j]| == c)
    then
      var out := Affine(x, weight.rows, bias.values);
      Some(Linear(Times(Mapped(act, out[..c]), out[c..]), down.rows))
    else None
  }

  /** The tensors that a rank loads for the block. */
  ghost predicate LoadedOn(all: StateDict, rank: nat, world: nat, weight: Tensor, bias: Tensor, down: Tensor) {
    && GetShardedTensor(all, "gate.weight", 0, rank, world).Defined?
      && GetShardedTensor(all, "up.weight", 0, rank, world).Defined?
    && GetShardedTensor(all, "gate.bias", 0, rank, world).Defined?
      && GetShardedTensor(all, "up.bias", 0, rank, world).Defined?
    && Cat([GetShardedTensor(all, "gate.weight", 0, rank, world).tensor,
            GetShardedTensor(all, "up.weight", 0, rank, world).tensor]) == Some(weight)
    && Cat([GetShardedTensor(all, "gate.bias", 0, rank, world).tensor,
            GetShardedTensor(all, "up.bias", 0, rank, world).tensor]) == Some(bias)
    && GetShardedTensor(all, "down.weight", 1, rank, world) == Defined(down)
  }

  /** What a rank looks up is its part of the full layer. */
  lemma ShardLoaded(all: StateDict, prefix: string, l: Layer, n: nat, world: nat, c: nat, rank: nat)
    requires Holds(all, prefix, l, n) && Divides(|l.w|, world, c) && c > 0 && rank < world
    ensures (rank + 1) * c <= |l.w|
    ensures GetShardedTensor(all, prefix + "weight", 0, rank, world) == Defined(Matrix(Part(l.w, c, rank), n))
    ensures GetShardedTensor(all, prefix + "bias", 0, rank, world) == Defined(Flat(Part(l.b, c, rank)))
  {
    ShareIs(|l.w|, world, c);
    PartFits(|l.w|, world, c, rank);
  }

  lemma ShareIs(n: nat, world: nat, c: nat)
    requires Divides(n, world, c) && c > 0
    ensures n >= world && n % world == 0 && n / world == c
  {
    assert n == c * world + 0;
    TokenBlocks.DivUnique(n, world, c, 0);
    TokenBlocks.MulAtLeast(c, world);
  }

  lemma ColumnsLoaded(all: StateDict, prefix: string, l: Layer, n: nat, world: nat, c: nat, rank: nat)
    requires Holds(all, prefix, l, n) && Divides(n, world, c) && c > 0 && rank < world
    ensures (rank + 1) * c <= n
    ensures GetShardedTensor(all, prefix + "weight", 1, rank, world) == Defined(Matrix(PartColumns(l.w, n, c, rank), c))
  {
    ShareIs(n, world, c);
    PartFits(n, world, c, rank);
    assert Chunk(Matrix(l.w, n), 1, c, rank).rows == PartColumns(l.w, n, c, rank);
  }

  lemma CatTwo(a: seq<Vector>, b: seq<Vector>, n: nat, p: Vector, q: Vector)
    ensures Cat([Matrix(a, n), Matrix(b, n)]) == Some(Matrix(a + b, n)) && Cat([Flat(p), Flat(q)]) == Some(Flat(p + q))
  {
    ConcatTwo(a, b);
    ConcatTwo(p, q);
    assert AllRows([Matrix(a, n), Matrix(b, n)]) == [a, b] && AllValues([Flat(p), Flat(q)]) == [p, q];
    assert [Matrix(a, n), Matrix(b, n)][0].Matrix?;
  }

  lemma ConcatTwo<T>(a: seq<T>, b: seq<T>)
    ensures Concat([a, b]) == a + b
  {
    assert [a, b][..1] == [a] && [a][..0] == [];
    assert Concat([a]) == a;
  }

  /** A rank's output from its loaded tensors is its summand of the row parallel layer. */
  lemma RankOutputIs(x: Vector, all: StateDict, gate: Layer, up: Layer, down: Layer, world: nat, c: nat, rank: nat,
                     weight: Tensor, bias: Tensor, shard: Tensor, act: real -> real)
    requires Checkpoint(all, gate, up, down, |x|) && Divides(|gate.w|, world, c) && c > 0 && rank < world
    requires LoadedOn(all, rank, world, weight, bias, shard)
    ensures (rank + 1) * c <= |gate.w|
    ensures RankOutput(x, weight, bias, shard, c,
                       act) == Some(Linear(HiddenOn(x, gate, up, c, rank, act), PartColumns(down.w, |gate.w|, c, rank)))
  {
    PartFits(|gate.w|, world, c, rank);
    var g, u := ShardOf(gate, |x|, c, rank), ShardOf(up, |x|, c, rank);
    LoadedAre(all, gate, up, down, |x|, world, c, rank, weight, bias, shard, g, u);
    hide GetShardedTensor, Cat, Part, ShardOf, LoadedOn, Checkpoint;
    HalvesAre(x, g, u, c);
  }

  lemma LoadedAre(all: StateDict, gate: Layer, up: Layer, down: Layer, n: nat, world: nat, c: nat, rank: nat,
                  weight: Tensor, bias: Tensor, shard: Tensor, g: Layer, u: Layer)
    requires Checkpoint(all, gate, up, down, n) && Divides(|gate.w|, world, c) && c > 0 && rank < world
      && (rank + 1) * c <= |gate.w|
    requires LoadedOn(all, rank, world, weight, bias, shard) && g == ShardOf(gate, n, c, rank)
      && u == ShardOf(up, n, c, rank)
    ensures weight == Matrix(g.w + u.w, n) && bias == Flat(g.b + u.b)
    ensures shard == Matrix(PartColumns(down.w, |gate.w|, c, rank), c)
  {
    hide GetShardedTensor, Cat;
    assert "gate." + "weight" == "gate.weight" && "up." + "weight" == "up.weight"
      && "down." + "weight" == "down.weight";
    assert "gate." + "bias" == "gate.bias" && "up." + "bias" == "up.bias";
    ShardLoaded(all, "gate.", gate, n, world, c, rank);
    ShardLoaded(all, "up.", up, n, world, c, rank);
    ColumnsLoaded(all, "down.", down, |gate.w|, world, c, rank);
    CatTwo(g.w, u.w, n, g.b, u.b);
  }

  lemma HalvesAre(x: Vector, g: Layer, u: Layer, c: nat)
    requires Fits(g, |x|) && Fits(u, |x|) && |g.w| == |u.w| == c
    ensures Shaped(g.w + u.w, |x|)
    ensures var out := Affine(x, g.w + u.w, g.b + u.b);
      out[..c] == AffineAll(x, [g.w, u.w], [g.b, u.b])[0] && out[c..] == AffineAll(x, [g.w, u.w], [g.b, u.b])[1]
  {
    var out := Affine(x, g.w + u.w, g.b + u.b);
    assert out[..c] == Affine(x, g.w, g.b) && out[c..] == Affine(x, u.w, u.b);
  }

  lemma {:induction false} DownAt(x: Vector, gate: Layer, up: Layer, down: seq<Vector>, c: nat, k: nat,
                                  act: real -> real, rank: nat)
    requires Fits(gate, |x|) && Fits(up, |x|) && |gate.w| == |up.w| && Shaped(down, |gate.w|) && k * c <= |gate.w|
      && rank < k
    ensures (rank + 1) * c <= |gate.w|
    ensures DownOutputs(x, gate, up, down, c, k, act)[rank] == Linear(HiddenOn(x, gate, up, c, rank, act),
                                                                      PartColumns(down, |gate.w|, c, rank))
  {
    hide Linear, HiddenOn, PartColumns;
    PartBounds(c, k - 1);
    if rank < k - 1 {
      DownAt(x, gate, up, down, c, k - 1, act, rank);
    }
  }

  /** The whole way: every rank loads its fused column shards and its row shard from the checkpoint,
      runs the block on them, the results are summed up, and the bias is added once.  The result is
      that of the full weights, for every world size that divides the hidden dimension. */
  lemma ShardedCheckpoint(x: Vector, all: StateDict, gate: Layer, up: Layer, down: Layer, world: nat, c: nat,
                          act: real -> real,
                          weights: seq<Tensor>, biases: seq<Tensor>, shards: seq<Tensor>, outputs: seq<Vector>)
    requires Checkpoint(all, gate, up, down, |x|) && Divides(|gate.w|, world, c) && c > 0
    requires |weights| == |biases| == |shards| == |outputs| == world
    requires forall r :: 0 <= r < world ==> LoadedOn(all, r, world, weights[r], biases[r], shards[r])
    requires forall r :: 0 <= r < world ==> RankOutput(x, weights[r], biases[r], shards[r], c, act) == Some(outputs[r])
    ensures forall r :: 0 <= r < world ==> |outputs[r]| == |down.w|
    ensures Plus(AllReduce(outputs, |down.w|), down.b) == Forward(Hidden(x, gate, up, act), down)
  {
    hide RankOutput, LoadedOn, AllReduce, HiddenOn, Hidden;
    var expected := DownOutputs(x, gate, up, down.w, c, world, act);
    forall r | 0 <= r < world
      ensures outputs[r] == expected[r]
    {
      RankOutputIs(x, all, gate, up, down, world, c, r, weights[r], biases[r], shards[r], act);
      DownAt(x, gate, up, down.w, c, world, act, r);
    }
    assert outputs == expected;
    ShardedIsUnsharded(x, gate, up, down, act, world, c);
  }

  /** What the two fused weights and the row shard of a rank hold after loading is what `LoadedOn` says. */
  lemma FusedLoadedOn(all: StateDict, rank: nat, world: nat, w: FusedWeight, b: FusedWeight, down: Tensor)
    requires w.prefixes == b.prefixes == ["gate.", "up."] && w.name == "weight" && b.name == "bias"
    requires w.rank == b.rank == rank && w.world == b.world == world
    requires w.AllDefined(all) && Cat(w.Shards(all)) == Some(w.weight) && b.AllDefined(all)
      && Cat(b.Shards(all)) == Some(b.weight)
    requires GetShardedTensor(all, "down.weight", 1, rank, world) == Defined(down)
    ensures LoadedOn(all, rank, world, w.weight, b.weight, down)
  {
    hide GetShardedTensor, Cat;
    assert "gate." + "weight" == "gate.weight" && "up." + "weight" == "up.weight";
    assert "gate." + "bias" == "gate.bias" && "up." + "bias" == "up.bias";
    assert w.Shard(all, 0).Defined? && w.Shard(all, 1).Defined? && b.Shard(all, 0).Defined? && b.Shard(all, 1).Defined?;
    assert w.Shards(all) == [w.Shard(all, 0).tensor, w.Shard(all, 1).tensor];
    assert b.Shards(all) == [b.Shard(all, 0).tensor, b.Shard(all, 1).tensor];
  }

  /** No check fails on a checkpoint whose hidden dimension the world size divides. */
  lemma CheckpointFits(all: StateDict, gate: Layer, up: Layer, down: Layer, n: nat, world: nat, c: nat, rank: nat,
                       w: FusedWeight, b: FusedWeight, weight: Tensor, bias: Tensor, shard: Tensor)
    requires Checkpoint(all, gate, up, down, n) && Divides(|gate.w|, world, c) && c > 0 && rank < world
    requires w.prefixes == b.prefixes == ["gate.", "up."] && w.name == "weight" && b.name == "bias"
    requires w.rank == b.rank == rank && w.world == b.world == world
    requires weight.Matrix? && |weight.rows| == c + c && weight.cols == n && bias.Flat? && |bias.values| == c + c
    requires shard.Matrix? && |shard.rows| == |down.w| && shard.cols == c
    ensures w.AllDefined(all) && !w.SomeCheckFails(all) && !w.MisfitOf(weight, all)
    ensures b.AllDefined(all) && !b.SomeCheckFails(all) && !b.MisfitOf(bias, all)
    ensures var found := GetShardedTensor(all, "down.weight", 1, rank, world);
      found.Defined? && SameSizes(shard, found.tensor)
  {
    ShardLoaded(all, "gate.", gate, n, world, c, rank);
    ShardLoaded(all, "up.", up, n, world, c, rank);
    assert "down." + "weight" == "down.weight";
    ColumnsLoaded(all, "down.", down, |gate.w|, world, c, rank);
    hide GetShardedTensor, Cat;
    var g, u := ShardOf(gate, n, c, rank), ShardOf(up, n, c, rank);
    CatTwo(g.w, u.w, n, g.b, u.b);
    assert forall i :: 0 <= i < 2 ==> w.Shard(all, i).Defined? && b.Shard(all, i).Defined?;
    assert w.Shards(all) == [Matrix(g.w, n), Matrix(u.w, n)] && b.Shards(all) == [Flat(g.b), Flat(u.b)];
  }

  function ZeroMatrix(rows: nat, cols: nat): Tensor {
    Matrix(seq(rows, i => seq(cols, j => 0.0)), cols)
  }

  /** One rank loads its part of the block from the files, in whatever order and split they come. */
  method LoadRank(files: seq<StateDict>, rank: nat, world: nat, n: nat, c: nat, out: nat, ghost gate: Layer,
                  ghost up: Layer, ghost down: Layer)
    returns (ok: bool, weight: Tensor, bias: Tensor, shard: Tensor)
    requires Disjoint(files) && Checkpoint(Union(files), gate, up, down, n) && Divides(|gate.w|, world, c) && c > 0
    requires rank < world && out == |down.w|
    ensures ok && LoadedOn(Union(files), rank, world, weight, bias, shard)
  {
    hide GetShardedTensor, Cat, SameSizes, LoadedOn, Checkpoint, Union, Disjoint, ZeroMatrix, Divides;
    var w0, b0, d0 := ZeroMatrix(c + c, n), Flat(seq(c + c, j => 0.0)), ZeroMatrix(out, c);
    ZeroSizes(c + c, n);
    ZeroSizes(out, c);
    var w := new FusedWeight(["gate.", "up."], "weight", rank, world, w0);
    var b := new FusedWeight(["gate.", "up."], "bias", rank, world, b0);
    CheckpointFits(Union(files), gate, up, down, n, world, c, rank, w, b, w0, b0, d0);
    var okWeight := w.LoadAll(files);
    var okBias := b.LoadAll(files);
    var okShard, loaded;
    okShard, loaded, shard := LoadSharded(files, "down.weight", 1, rank, world, d0);
    ok, weight, bias := okWeight && okBias && okShard, w.weight, b.weight;
    FusedLoadedOn(Union(files), rank, world, w, b, shard);
  }

  lemma ZeroSizes(rows: nat, cols: nat)
    ensures var t := ZeroMatrix(rows, cols); t.Matrix? && |t.rows| == rows && t.cols == cols
  {
  }

  /** The whole way from the files: every rank loads its shards, runs the block on them, the results are
      summed up, and the bias is added once.  The output is that of the full weights, whatever the order
      and the split of the files, for every world size that divides the hidden dimension. */
  method ShardedForward(x: Vector, files: seq<StateDict>, world: nat, c: nat, out: nat, bias: Vector, act: real -> real,
                        ghost gate: Layer, ghost up: Layer, ghost down: Layer) returns (y: Vector)
    requires Disjoint(files) && Checkpoint(Union(files), gate, up, down, |x|) && Divides(|gate.w|, world, c) && c > 0
    requires out == |down.w| && bias == down.b
    ensures y == Forward(Hidden(x, gate, up, act), down)
  {
    hide LoadedOn, RankOutput, AllReduce, Forward, Hidden, HiddenOn, Linear, GetShardedTensor, Union;
    var outputs: seq<Vector> := [];
    ghost var all, weights, biases, shards := Union(files), [], [], [];
    for r := 0 to world
      invariant |weights| == |biases| == |shards| == |outputs| == r
      invariant forall k :: 0 <= k < r ==> LoadedOn(all, k, world, weights[k], biases[k], shards[k])
      invariant forall k :: 0 <= k < r ==> RankOutput(x, weights[k], biases[k], shards[k], c, act) == Some(outputs[k])
    {
      var ok, w, b, d := LoadRank(files, r, world, |x|, c, out, gate, up, down);
      RankOutputIs(x, all, gate, up, down, world, c, r, w, b, d, act);
      var output := RankOutput(x, w, b, d, c, act);
      outputs := outputs + [output.value];
      weights, biases, shards := weights + [w], biases + [b], shards + [d];
    }
    ShardedCheckpoint(x, all, gate, up, down, world, c, act, weights, biases, shards, outputs);
    y := Plus(AllReduce(outputs, out), bias);
  }
}
