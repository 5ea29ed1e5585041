/** Tensor-parallel linear layers over exact arithmetic (src/layers/linear_impl.cpp,
    src/layers/fused_linear.cpp, src/model_parallel/model_parallel.cpp, src/model_loader/state_dict.cpp).

    Activations are treated row by row: a layer maps the vector of one token to the vector of one
    token.  A weight is the sequence of its rows, one for each output feature. */
module TensorParallel {

  type Vector = seq<real>

  /** A weight with `n` input features. */
  ghost predicate Shaped(w: seq<Vector>, n: nat) {
    forall j :: 0 <= j < |w| ==> |w[j]| == n
  }

  function Dot(x: Vector, y: Vector): real
    requires |x| == |y|
  {
    if x == [] then 0.0 else Dot(x[..|x| - 1], y[..|y| - 1]) + x[|x| - 1] * y[|y| - 1]
  }

  /** The product of a vector with the transposed weight. */
  function Linear(x: Vector, w: seq<Vector>): (r: Vector)
    requires Shaped(w, |x|)
    ensures |r| == |w|
  {
    seq(|w|, j requires 0 <= j < |w| => Dot(x, w[j]))
  }

  function Plus(a: Vector, b: Vector): (r: Vector)
    requires |a| == |b|
    ensures |r| == |a|
  {
    seq(|a|, j requires 0 <= j < |a| => a[j] + b[j])
  }

  function Times(a: Vector, b: Vector): (r: Vector)
    requires |a| == |b|
    ensures |r| == |a|
  {
    seq(|a|, j requires 0 <= j < |a| => a[j] * b[j])
  }

  function Mapped(f: real -> real, a: Vector): (r: Vector)
    ensures |r| == |a|
  {
    seq(|a|, j requires 0 <= j < |a| => f(a[j]))
  }

  // ---------------------------------------------------------------- what a product computes

  function Scaled(a: real, x: Vector): (r: Vector)
    ensures |r| == |x|
  {
    seq(|x|, j requires 0 <= j < |x| => a * x[j])
  }

  lemma ScaledPrefix(a: real, x: Vector, n: nat)
    requires n <= |x|
    ensures Scaled(a, x)[..n] == Scaled(a, x[..n])
  {
    forall j | 0 <= j < n
      ensures Scaled(a, x)[..n][j] == Scaled(a, x[..n])[j]
    {
      assert x[..n][j] == x[j];
    }
  }

  /** The vector with 1 at position `i` and 0 elsewhere. */
  function Unit(n: nat, i: nat): (r: Vector)
    ensures |r| == n
  {
    seq(n, j => if j == i then 1.0 else 0.0)
  }

  lemma DotSingle(a: real, b: real)
    ensures Dot([a], [b]) == a * b
  {
    assert [a][..0] == [] && [b][..0] == [];
  }

  lemma {:induction false} DotSwap(x: Vector, y: Vector)
    requires |x| == |y|
    ensures Dot(x, y) == Dot(y, x)
  {
    if x != [] {
      DotSwap(x[..|x| - 1], y[..|y| - 1]);
    }
  }

  /** The product is linear in the weight, and by `DotSwap` in the input. */
  lemma {:induction false} DotPlus(x: Vector, y: Vector, z: Vector)
    requires |x| == |y| == |z|
    ensures Dot(x, Plus(y, z)) == Dot(x, y) + Dot(x, z)
  {
    if x != [] {
      var n := |x| - 1;
      DotPlus(x[..n], y[..n], z[..n]);
      assert Plus(y, z)[..n] == Plus(y[..n], z[..n]);
    }
  }

  lemma {:induction false} DotScaled(x: Vector, a: real, y: Vector)
    requires |x| == |y|
    ensures Dot(x, Scaled(a, y)) == a * Dot(x, y)
  {
    if x != [] {
      var n := |x| - 1;
      DotScaled(x[..n], a, y[..n]);
      ScaledPrefix(a, y, n);
      Distribute(a, Dot(x[..n], y[..n]), x[n], y[n]);
    }
  }

  lemma Distribute(a: real, d: real, x: real, y: real)
    ensures a * d + x * (a * y) == a * (d + x * y)
  {
    assert x * (a * y) == a * (x * y);
  }

  /** A unit weight picks one input feature. */
  lemma {:induction false} DotUnit(x: Vector, i: nat)
    ensures Dot(x, Unit(|x|, i)) == if i < |x| then x[i] else 0.0
  {
    if x != [] {
      var n := |x| - 1;
      DotUnit(x[..n], i);
      assert Unit(|x|, i)[..n] == Unit(n, i);
    }
  }

  function Identity(n: nat): (w: seq<Vector>)
    ensures |w| == n && Shaped(w, n)
  {
    seq(n, j requires 0 <= j => Unit(n, j))
  }

  /** The identity weight returns the input; the product with a sum of weights is the sum of the products,
      and the product with a scaled weight is the scaled product. */
  lemma LinearIdentity(x: Vector)
    ensures Linear(x, Identity(|x|)) == x
  {
    forall j | 0 <= j < |x|
      ensures Linear(x, Identity(|x|))[j] == x[j]
    {
      DotUnit(x, j);
    }
  }

  lemma LinearSum(x: Vector, w: seq<Vector>, v: seq<Vector>, u: seq<Vector>)
    requires Shaped(w, |x|) && Shaped(v, |x|) && |w| == |v| == |u|
    requires forall j :: 0 <= j < |u| ==> u[j] == Plus(w[j], v[j])
    ensures Shaped(u, |x|) && Linear(x, u) == Plus(Linear(x, w), Linear(x, v))
  {
    hide Dot;
    forall j | 0 <= j < |u|
      ensures |u[j]| == |x| && Dot(x, u[j]) == Dot(x, w[j]) + Dot(x, v[j])
    {
      DotPlus(x, w[j], v[j]);
    }
  }

  lemma LinearScaled(x: Vector, a: real, w: seq<Vector>, u: seq<Vector>)
    requires Shaped(w, |x|) && |w| == |u| && forall j :: 0 <= j < |u| ==> u[j] == Scaled(a, w[j])
    ensures Shaped(u, |x|) && Linear(x, u) == Scaled(a, Linear(x, w))
  {
    hide Dot, Scaled;
    forall j | 0 <= j < |u|
      ensures |u[j]| == |x| && Dot(x, u[j]) == Scaled(a, Linear(x, w))[j]
    {
      DotScaled(x, a, w[j]);
      ScaledAt(a, Linear(x, w), j, Dot(x, w[j]));
    }
  }

  lemma ScaledAt(a: real, x: Vector, j: nat, p: real)
    requires j < |x| && x[j] == p
    ensures Scaled(a, x)[j] == a * p
  {
  }

  // ---------------------------------------------------------------- shards

  /** `n` elements can be divided evenly over `world` ranks, `c` for each. */
  ghost predicate Divides(n: nat, world: nat, c: nat) {
    world > 0 && n == world * c
  }

  /** The part of rank `rank` when each rank gets `c` elements. */
  function Part<T>(s: seq<T>, c: nat, rank: nat): (r: seq<T>)
    requires (rank + 1) * c <= |s|
    ensures |r| == c
  {
    PartBounds(c, rank);
    s[rank * c..rank * c + c]
  }

  lemma PartBounds(c: nat, rank: nat)
    ensures 0 <= rank * c && (rank + 1) * c == rank * c + c
  {
  }

  lemma PartFits(n: nat, world: nat, c: nat, rank: nat)
    requires Divides(n, world, c) && rank < world
    ensures (rank + 1) * c <= n
  {
    assert (world - (rank + 1)) * c == world * c - (rank + 1) * c;
    assert (world - (rank + 1)) * c >= 0;
  }

  /** The columns of rank `rank` of every row. */
  function PartColumns(w: seq<Vector>, n: nat, c: nat, rank: nat): (r: seq<Vector>)
    requires Shaped(w, n) && (rank + 1) * c <= n
    ensures |r| == |w| && Shaped(r, c)
  {
    seq(|w|, j requires 0 <= j < |w| => Part(w[j], c, rank))
  }

  /** All parts one after the other, as the gather returns them. */
  function Concat<T>(parts: seq<seq<T>>): seq<T> {
    if parts == [] then [] else Concat(parts[..|parts| - 1]) + parts[|parts| - 1]
  }

  /** The parts of the first `k` ranks. */
  function Parts<T>(s: seq<T>, c: nat, k: nat): seq<seq<T>>
    requires k * c <= |s|
  {
    if k == 0 then [] else
      PartBounds(c, k - 1);
      Parts(s, c, k - 1) + [Part(s, c, k - 1)]
  }

  lemma {:induction false} JoinParts<T>(s: seq<T>, c: nat, k: nat)
    requires k * c <= |s|
    ensures |Parts(s, c, k)| == k && k * c >= 0 && Concat(Parts(s, c, k)) == s[..k * c]
  {
    if k > 0 {
      PartBounds(c, k - 1);
      JoinParts(s, c, k - 1);
      assert Parts(s, c, k)[..k - 1] == Parts(s, c, k - 1);
      assert s[..k * c] == s[..(k - 1) * c] + s[(k - 1) * c..(k - 1) * c + c];
    }
  }

  // ---------------------------------------------------------------- column parallel layers

  /** A rank's rows of the weight give that rank's part of the output. */
  lemma LinearOfPart(x: Vector, w: seq<Vector>, b: Vector, c: nat, rank: nat)
    requires Shaped(w, |x|) && |b| == |w| && (rank + 1) * c <= |w|
    ensures Shaped(Part(w, c, rank), |x|)
    ensures Plus(Linear(x, Part(w, c, rank)), Part(b, c, rank)) == Part(Plus(Linear(x, w), b), c, rank)
  {
    PartBounds(c, rank);
    var shard := Part(w, c, rank);
    assert forall j :: 0 <= j < c ==> shard[j] == w[rank * c + j];
  }

  /** The outputs of the first `k` ranks of a column parallel layer. */
  function ColumnOutputs(x: Vector, w: seq<Vector>, b: Vector, c: nat, k: nat): (r: seq<Vector>)
    requires Shaped(w, |x|) && |b| == |w| && k * c <= |w|
    ensures |r| == k
  {
    if k == 0 then [] else
      PartBounds(c, k - 1);
      LinearOfPart(x, w, b, c, k - 1);
      ColumnOutputs(x, w, b, c, k - 1) + [Plus(Linear(x, Part(w, c, k - 1)), Part(b, c, k - 1))]
  }

  lemma {:induction false} ColumnOutputsAre(x: Vector, w: seq<Vector>, b: Vector, c: nat, k: nat)
    requires Shaped(w, |x|) && |b| == |w| && k * c <= |w|
    ensures ColumnOutputs(x, w, b, c, k) == Parts(Plus(Linear(x, w), b), c, k)
  {
    if k > 0 {
      PartBounds(c, k - 1);
      ColumnOutputsAre(x, w, b, c, k - 1);
      LinearOfPart(x, w, b, c, k - 1);
    }
  }

  /** The gather: one tensor for each rank is filled in and all are concatenated.  `inputs` holds what
      each rank passes to the collective call. */
  method Gather(inputs: seq<Vector>) returns (r: Vector)
    ensures r == Concat(inputs)
  {
    r := [];
    for rank := 0 to |inputs|
      invariant r == Concat(inputs[..rank])
    {
      assert inputs[..rank + 1][..rank] == inputs[..rank];
      r := r + inputs[rank];
    }
    assert inputs[..|inputs|] == inputs;
  }

  /** Column parallel with gathered output equals the layer with the full weight. */
  lemma ColumnParallelIsLinear(x: Vector, w: seq<Vector>, b: Vector, world: nat, c: nat)
    requires Shaped(w, |x|) && |b| == |w| && Divides(|w|, world, c)
    ensures Concat(ColumnOutputs(x, w, b, c, world)) == Plus(Linear(x, w), b)
  {
    ColumnOutputsAre(x, w, b, c, world);
    JoinParts(Plus(Linear(x, w), b), c, world);
  }

  // ---------------------------------------------------------------- row parallel layers

  lemma {:induction false} DotAppend(x: Vector, x': Vector, y: Vector, y': Vector)
    requires |x| == |y| && |x'| == |y'|
    ensures Dot(x + x', y + y') == Dot(x, y) + Dot(x', y')
  {
    if x' == [] {
      assert x + x' == x && y + y' == y;
    } else {
      var n := |x'| - 1;
      DotAppend(x, x'[..n], y, y'[..n]);
      assert (x + x')[..|x| + n] == x + x'[..n] && (y + y')[..|y| + n] == y + y'[..n];
    }
  }

  /** The sum over all ranks that the all-reduce leaves in every rank's tensor. */
  function AllReduce(parts: seq<Vector>, n: nat): (r: Vector)
    requires forall i :: 0 <= i < |parts| ==> |parts[i]| == n
    ensures |r| == n
  {
    if parts == [] then seq(n, j => 0.0) else Plus(AllReduce(parts[..|parts| - 1], n), parts[|parts| - 1])
  }

  /** The products of the first `k` ranks: each has its part of the input and its columns. */
  function RowOutputs(x: Vector, w: seq<Vector>, c: nat, k: nat): (r: seq<Vector>)
    requires Shaped(w, |x|) && k * c <= |x|
    ensures |r| == k && forall i :: 0 <= i < k ==> |r[i]| == |w|
  {
    if k == 0 then [] else
      PartBounds(c, k - 1);
      RowOutputs(x, w, c, k - 1) + [Linear(Part(x, c, k - 1), PartColumns(w, |x|, c, k - 1))]
  }

  lemma RowSumNext(x: Vector, w: seq<Vector>, c: nat, k: nat, j: nat, at: nat)
    requires Shaped(w, |x|) && 0 < k && at == (k - 1) * c && k * c == at + c <= |x| && j < |w|
    ensures AllReduce(RowOutputs(x, w, c, k), |w|)[j]
         == AllReduce(RowOutputs(x, w, c, k - 1), |w|)[j] + Dot(x[at..at + c], w[j][at..at + c])
  {
    var outputs := RowOutputs(x, w, c, k);
    assert outputs[..k - 1] == RowOutputs(x, w, c, k - 1);
  }

  /** The first `k` ranks sum up to the product over the first `k * c` features. */
  lemma {:induction false} RowSum(x: Vector, w: seq<Vector>, c: nat, k: nat, j: nat)
    requires Shaped(w, |x|) && k * c <= |x| && j < |w|
    ensures k * c >= 0 && AllReduce(RowOutputs(x, w, c, k), |w|)[j] == Dot(x[..k * c], w[j][..k * c])
  {
    hide Dot, AllReduce, RowOutputs;
    if k == 0 {
      RowSumNone(x, w, c, j);
    } else {
      PartBounds(c, k - 1);
      RowSum(x, w, c, k - 1, j);
      var at, to := (k - 1) * c, k * c;
      RowSumNext(x, w, c, k, j, at);
      DotAppend(x[..at], x[at..to], w[j][..at], w[j][at..to]);
      assert x[..at] + x[at..to] == x[..to] && w[j][..at] + w[j][at..to] == w[j][..to];
    }
  }

  lemma RowSumNone(x: Vector, w: seq<Vector>, c: nat, j: nat)
    requires Shaped(w, |x|) && j < |w|
    ensures 0 * c == 0 && AllReduce(RowOutputs(x, w, c, 0), |w|)[j] == 0.0 == Dot(x[..0], w[j][..0])
  {
  }

  /** Row parallel with all-reduce equals the product with the full weight; the bias comes after. */
  lemma RowParallelIsLinear(x: Vector, w: seq<Vector>, world: nat, c: nat)
    requires Shaped(w, |x|) && Divides(|x|, world, c)
    ensures AllReduce(RowOutputs(x, w, c, world), |w|) == Linear(x, w)
  {
    forall j | 0 <= j < |w|
      ensures AllReduce(RowOutputs(x, w, c, world), |w|)[j] == Linear(x, w)[j]
    {
      RowSum(x, w, c, world, j);
      assert x[..|x|] == x && w[j][..|x|] == w[j];
    }
  }

  // ---------------------------------------------------------------- fused column layers

  ghost predicate AllShaped(ws: seq<seq<Vector>>, n: nat) {
    forall i :: 0 <= i < |ws| ==> Shaped(ws[i], n)
  }

  /** Cutting a vector into pieces of the given sizes. */
  function Split<T>(s: seq<T>, sizes: seq<nat>): seq<seq<T>>
    requires |s| == Total(sizes)
    decreases |sizes|
  {
    if sizes == [] then [] else
      var n := |sizes| - 1;
      Split(s[..Total(sizes[..n])], sizes[..n]) + [s[Total(sizes[..n])..]]
  }

  function Total(sizes: seq<nat>): nat {
    if sizes == [] then 0 else Total(sizes[..|sizes| - 1]) + sizes[|sizes| - 1]
  }

  function Sizes<T>(parts: seq<seq<T>>): seq<nat> {
    seq(|parts|, i requires 0 <= i < |parts| => |parts[i]|)
  }

  /** Splitting undoes the concatenation. */
  lemma {:induction false} SplitConcat<T>(parts: seq<seq<T>>)
    ensures |Concat(parts)| == Total(Sizes(parts)) && Split(Concat(parts), Sizes(parts)) == parts
  {
    if parts != [] {
      var n := |parts| - 1;
      SplitConcat(parts[..n]);
      assert Sizes(parts)[..n] == Sizes(parts[..n]);
    }
  }

  /** `F::linear` with a bias. */
  function Affine(x: Vector, w: seq<Vector>, b: Vector): (r: Vector)
    requires Shaped(w, |x|) && |b| == |w|
    ensures |r| == |w|
  {
    Plus(Linear(x, w), b)
  }

  ghost predicate Biases(bs: seq<Vector>, ws: seq<seq<Vector>>) {
    |bs| == |ws| && forall i :: 0 <= i < |ws| ==> |bs[i]| == |ws[i]|
  }

  /** The layer with each of several weights. */
  function AffineAll(x: Vector, ws: seq<seq<Vector>>, bs: seq<Vector>): (r: seq<Vector>)
    requires AllShaped(ws, |x|) && Biases(bs, ws)
    ensures |r| == |ws| && forall i :: 0 <= i < |ws| ==> |r[i]| == |ws[i]|
  {
    seq(|ws|, i requires 0 <= i < |ws| => Affine(x, ws[i], bs[i]))
  }

  lemma {:induction false} ConcatShaped(ws: seq<seq<Vector>>, bs: seq<Vector>, n: nat)
    requires AllShaped(ws, n) && Biases(bs, ws)
    ensures Shaped(Concat(ws), n) && |Concat(bs)| == |Concat(ws)|
  {
    if ws != [] {
      ConcatShaped(ws[..|ws| - 1], bs[..|ws| - 1], n);
    }
  }

  lemma {:induction false} AffineConcat(x: Vector, ws: seq<seq<Vector>>, bs: seq<Vector>)
    requires AllShaped(ws, |x|) && Biases(bs, ws)
    ensures Shaped(Concat(ws), |x|) && |Concat(bs)| == |Concat(ws)|
    ensures Affine(x, Concat(ws), Concat(bs)) == Concat(AffineAll(x, ws, bs))
  {
    ConcatShaped(ws, bs, |x|);
    if ws != [] {
      var n := |ws| - 1;
      ConcatShaped(ws[..n], bs[..n], |x|);
      AffineConcat(x, ws[..n], bs[..n]);
      assert AffineAll(x, ws, bs)[..n] == AffineAll(x, ws[..n], bs[..n]);
    }
  }

  /** One product with the fused weight, split by the sizes of the single weights, equals the single
      products: the fused and the unfused path of the layer agree. */
  lemma FusedIsUnfused(x: Vector, ws: seq<seq<Vector>>, bs: seq<Vector>)
    requires AllShaped(ws, |x|) && Biases(bs, ws)
    ensures Shaped(Concat(ws), |x|) && |Concat(bs)| == |Concat(ws)| == Total(Sizes(ws))
    ensures Split(Affine(x, Concat(ws), Concat(bs)), Sizes(ws)) == AffineAll(x, ws, bs)
  {
    AffineConcat(x, ws, bs);
    SplitConcat(AffineAll(x, ws, bs));
    assert Sizes(AffineAll(x, ws, bs)) == Sizes(ws);
  }

  // ---------------------------------------------------------------- the gated feed-forward block

  /** A weight with its bias. */
  datatype Layer = Layer(w: seq<Vector>, b: Vector)

  ghost predicate Fits(l: Layer, n: nat) {
    Shaped(l.w, n) && |l.b| == |l.w|
  }

  function Forward(x: Vector, l: Layer): (r: Vector)
    requires Fits(l, |x|)
    ensures |r| == |l.w|
  {
    Affine(x, l.w, l.b)
  }

  /** The activation of the gate times the up projection. */
  function Hidden(x: Vector, gate: Layer, up: Layer, act: real -> real): (r: Vector)
    requires Fits(gate, |x|) && Fits(up, |x|) && |gate.w| == |up.w|
    ensures |r| == |gate.w|
  {
    Times(Mapped(act, Forward(x, gate)), Forward(x, up))
  }

  /** Each output feature is the product of the input with its own row, plus its own bias; and each hidden
      feature is the activated gate feature times the up feature of the same row. */
  lemma FeaturesAre(x: Vector, gate: Layer, up: Layer, act: real -> real, j: nat, g: real, u: real)
    requires Fits(gate, |x|) && Fits(up, |x|) && |gate.w| == |up.w| && j < |gate.w|
    requires g == Dot(x, gate.w[j]) + gate.b[j] && u == Dot(x, up.w[j]) + up.b[j]
    ensures Forward(x, gate)[j] == g && Forward(x, up)[j] == u && Hidden(x, gate, up, act)[j] == act(g) * u
  {
    hide Hidden, Times, Dot;
    assert Forward(x, gate)[j] == g && Forward(x, up)[j] == u;
    HiddenIs(x, gate, up, act, j);
  }

  lemma HiddenIs(x: Vector, gate: Layer, up: Layer, act: real -> real, j: nat)
    requires Fits(gate, |x|) && Fits(up, |x|) && |gate.w| == |up.w| && j < |gate.w|
    ensures Hidden(x, gate, up, act)[j] == act(Forward(x, gate)[j]) * Forward(x, up)[j]
  {
    hide Forward;
    assert Mapped(act, Forward(x, gate))[j] == act(Forward(x, gate)[j]);
  }

  /** The shard of rank `rank` on dimension 0. */
  function ShardOf(l: Layer, n: nat, c: nat, rank: nat): (r: Layer)
    requires Fits(l, n) && (rank + 1) * c <= |l.w|
    ensures Fits(r, n) && |r.w| == c
  {
    PartBounds(c, rank);
    Layer(Part(l.w, c, rank), Part(l.b, c, rank))
  }

  /** The hidden vector on one rank: one fused product with the rank's rows of both weights, split again. */
  function HiddenOn(x: Vector, gate: Layer, up: Layer, c: nat, rank: nat, act: real -> real): (r: Vector)
    requires Fits(gate, |x|) && Fits(up, |x|) && |gate.w| == |up.w| && (rank + 1) * c <= |gate.w|
    ensures |r| == c
  {
    var g, u := ShardOf(gate, |x|, c, rank), ShardOf(up, |x|, c, rank);
    var outs := FusedForward(x, [g.w, u.w], [g.b, u.b]);
    Times(Mapped(act, outs[0]), outs[1])
  }

  function FusedForward(x: Vector, ws: seq<seq<Vector>>, bs: seq<Vector>): (r: seq<Vector>)
    requires AllShaped(ws, |x|) && Biases(bs, ws)
    ensures r == AffineAll(x, ws, bs)
  {
    FusedIsUnfused(x, ws, bs);
    Split(Affine(x, Concat(ws), Concat(bs)), Sizes(ws))
  }

  /** Each rank's hidden vector is its part of the full hidden vector. */
  lemma HiddenIsPart(x: Vector, gate: Layer, up: Layer, c: nat, rank: nat, act: real -> real)
    requires Fits(gate, |x|) && Fits(up, |x|) && |gate.w| == |up.w| && (rank + 1) * c <= |gate.w|
    ensures HiddenOn(x, gate, up, c, rank, act) == Part(Hidden(x, gate, up, act), c, rank)
  {
    LinearOfPart(x, gate.w, gate.b, c, rank);
    LinearOfPart(x, up.w, up.b, c, rank);
    TimesOfPart(Forward(x, gate), Forward(x, up), c, rank, act);
  }

  lemma TimesOfPart(g: Vector, u: Vector, c: nat, rank: nat, act: real -> real)
    requires |g| == |u| && (rank + 1) * c <= |g|
    ensures Times(Mapped(act, Part(g, c, rank)), Part(u, c, rank)) == Part(Times(Mapped(act, g), u), c, rank)
  {
    PartBounds(c, rank);
    MappedOfPart(act, g, c, rank);
    ProductOfPart(Mapped(act, g), u, c, rank);
  }

  lemma MappedOfPart(act: real -> real, g: Vector, c: nat, rank: nat)
    requires (rank + 1) * c <= |g|
    ensures Mapped(act, Part(g, c, rank)) == Part(Mapped(act, g), c, rank)
  {
    PartBounds(c, rank);
  }

  lemma ProductOfPart(a: Vector, b: Vector, c: nat, rank: nat)
    requires |a| == |b| && (rank + 1) * c <= |a|
    ensures Times(Part(a, c, rank), Part(b, c, rank)) == Part(Times(a, b), c, rank)
  {
    PartBounds(c, rank);
    var at, pa, pb := rank * c, Part(a, c, rank), Part(b, c, rank);
    forall j | 0 <= j < c
      ensures Times(pa, pb)[j] == Part(Times(a, b), c, rank)[j]
    {
      assert pa[j] == a[at + j] && pb[j] == b[at + j];
      assert Part(Times(a, b), c, rank)[j] == Times(a, b)[at + j];
    }
  }

  /** What the first `k` ranks put into the all-reduce of the down projection. */
  function DownOutputs(x: Vector, gate: Layer, up: Layer, down: seq<Vector>, c: nat, k: nat,
                       act: real -> real): (r: seq<Vector>)
    requires Fits(gate, |x|) && Fits(up, |x|) && |gate.w| == |up.w| && Shaped(down, |gate.w|) && k * c <= |gate.w|
    ensures |r| == k && forall i :: 0 <= i < k ==> |r[i]| == |down|
  {
    if k == 0 then [] else
      PartBounds(c, k - 1);
      DownOutputs(x, gate, up, down, c, k - 1,
                  act) + [Linear(HiddenOn(x, gate, up, c, k - 1, act), PartColumns(down, |gate.w|, c, k - 1))]
  }

  lemma {:induction false} DownIsRow(x: Vector, gate: Layer, up: Layer, down: seq<Vector>, c: nat, k: nat,
                                     act: real -> real)
    requires Fits(gate, |x|) && Fits(up, |x|) && |gate.w| == |up.w| && Shaped(down, |gate.w|) && k * c <= |gate.w|
    ensures DownOutputs(x, gate, up, down, c, k, act) == RowOutputs(Hidden(x, gate, up, act), down, c, k)
  {
    if k > 0 {
      PartBounds(c, k - 1);
      DownIsRow(x, gate, up, down, c, k - 1, act);
      HiddenIsPart(x, gate, up, c, k - 1, act);
    }
  }

  /** The sharded block equals the block with the full weights, for every world size that divides the
      hidden dimension: fused column shards, an elementwise activation and product, row shards, one
      all-reduce, and the bias added once after it. */
  lemma ShardedIsUnsharded(x: Vector, gate: Layer, up: Layer, down: Layer, act: real -> real, world: nat, c: nat)
    requires Fits(gate, |x|) && Fits(up, |x|) && |gate.w| == |up.w| && Fits(down, |gate.w|)
      && Divides(|gate.w|, world, c)
    ensures Plus(AllReduce(DownOutputs(x, gate, up, down.w, c, world, act), |down.w|),
                 down.b) == Forward(Hidden(x, gate, up, act), down)
    ensures forall j :: 0 <= j < |down.w| ==>
      Plus(AllReduce(DownOutputs(x, gate, up, down.w, c, world, act), |down.w|), down.b)[j]
      == Dot(Hidden(x, gate, up, act), down.w[j]) + down.b[j]
  {
    DownIsRow(x, gate, up, down.w, c, world, act);
    RowParallelIsLinear(Hidden(x, gate, up, act), down.w, world, c);
  }
}
