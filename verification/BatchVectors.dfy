/** The flattened input vectors of a batch (src/engine/batch.cpp): what one sequence adds to them, how
    they stay aligned, and padding. */
module BatchVectors {
  import opened Collections
  import TokenBlocks

  datatype Engine = LLM | SSM

  /** What the batch reads of a sequence (src/request/sequence.h).  The map from tokens to their counts
      is the multiset of `tokens`; `kv` is the KV position of the engine that the sequence is used for,
      `other` that of the other engine. */
  datatype View = View(tokens: seq<int>, prompt: nat, kv: nat, blocks: seq<int>, bs: nat, engine: Engine, other: nat)

  predicate Prefill(v: View) {
    v.kv < v.prompt
  }

  /** The vectors under construction. */
  datatype Inputs = Inputs(
    tokens: seq<int>,
    positions: seq<int>,
    selected: seq<int>,
    sampled: seq<int>,
    rowIds: seq<seq<int>>,
    rowCounts: seq<seq<int>>,
    rowLens: seq<int>,
    maxSeqLen: int,
    qMaxSeqLen: int,
    cuSeqLens: seq<int>,
    qCuSeqLens: seq<int>,
    slots: seq<int>,
    blockTables: seq<int>,
    cuBlockLens: seq<int>)

  const EMPTY := Inputs([], [], [], [], [], [], [], 0, 0, [0], [0], [], [], [0])

  // ---------------------------------------------------------------- token histograms

  /** `ids` and `counts` list every element of `m` once, with its multiplicity. */
  ghost predicate Histogram(ids: seq<int>, counts: seq<int>, m: multiset<int>) {
    && |ids| == |counts| && NoDup(ids)
    && (forall k :: 0 <= k < |ids| ==> counts[k] == m[ids[k]] > 0)
    && (forall t :: t in m ==> t in ids)
  }

  /** The first position of `lo..hi` whose token is selected: prompt tokens but the last are not. */
  function First(lo: nat, hi: nat, prompt: nat): nat {
    if prompt <= lo + 1 then Min(lo, hi) else Min(prompt - 1, hi)
  }

  ghost function Ahead(v: View, j: nat, hi: nat): multiset<int>
    requires j <= hi <= |v.tokens|
  {
    multiset(v.tokens[First(j, hi, v.prompt)..hi])
  }

  lemma SliceNext<T>(s: seq<T>, lo: nat, j: nat)
    requires lo <= j < |s|
    ensures s[lo..j + 1] == s[lo..j] + [s[j]]
  {
  }

  /** The counts of the selected tokens that are still ahead. */
  method CountAhead(v: View, hi: nat) returns (ahead: multiset<int>)
    requires v.kv <= hi <= |v.tokens|
    ensures ahead == Ahead(v, v.kv, hi)
  {
    ahead := multiset{};
    for j := v.kv to hi
      invariant ahead == multiset(v.tokens[First(v.kv, j, v.prompt)..j])
    {
      if j + 1 >= v.prompt {
        ghost var first := First(v.kv, j, v.prompt);
        assert First(v.kv, j + 1, v.prompt) == first <= j;
        OneMoreCounted(v.tokens, first, j);
        ahead := ahead[v.tokens[j] := ahead[v.tokens[j]] + 1];
      } else {
        assert v.tokens[j + 1..j + 1] == v.tokens[j..j] == [];
      }
    }
  }

  lemma OneMoreCounted(s: seq<int>, lo: nat, j: nat)
    requires lo <= j < |s|
    ensures var m := multiset(s[lo..j]); multiset(s[lo..j + 1]) == m[s[j] := m[s[j]] + 1]
  {
    SliceNext(s, lo, j);
  }

  /** The row of unique tokens and counts: all counts less those still ahead, where positive.  The
      tokens are visited in any order. */
  method BuildRow(all: multiset<int>, ahead: multiset<int>) returns (ids: seq<int>, counts: seq<int>)
    ensures Histogram(ids, counts, all - ahead)
  {
    ids, counts := [], [];
    var todo := set t | t in all;
    ghost var done: set<int> := {};
    while todo != {}
      invariant |ids| == |counts| && NoDup(ids) && todo !! done
      invariant forall t :: t in all <==> t in todo || t in done
      invariant forall k :: 0 <= k < |ids| ==> counts[k] == (all - ahead)[ids[k]] > 0
      invariant forall t :: t in ids ==> t in done
      invariant forall t :: t in done && t in all - ahead ==> t in ids
      decreases |todo|
    {
      var t := Collections.Pick(todo);
      todo, done := todo - {t}, done + {t};
      if all[t] > ahead[t] {
        NoDupAppend(ids, t);
        ids, counts := ids + [t], counts + [all[t] - ahead[t]];
      }
    }
  }

  // ---------------------------------------------------------------- the tokens of one sequence

  function Positions(lo: nat, hi: nat): seq<int>
    requires lo <= hi
  {
    seq(hi - lo, k => lo + k)
  }

  lemma PositionsNext(lo: nat, j: nat)
    requires lo <= j
    ensures Positions(lo, j + 1) == Positions(lo, j) + [j]
  {
  }

  /** The row for position `j` when the sequence is scheduled up to `hi`: the tokens up to `j` and
      those not scheduled. */
  ghost function RowOf(tokens: seq<int>, j: int, hi: int): multiset<int>
    requires 0 <= j < hi <= |tokens|
  {
    multiset(tokens[..j + 1]) + multiset(tokens[hi..])
  }

  /** If the whole remainder is scheduled, and only then, the row is the histogram of the tokens up to
      and including `j`. */
  lemma WholeRemainder(tokens: seq<int>, j: int, hi: int)
    requires 0 <= j < hi <= |tokens|
    ensures RowOf(tokens, j, hi) == multiset(tokens[..j + 1]) <==> hi == |tokens|
    ensures RowOf(tokens, j, hi) == multiset(tokens[..j + 1]) + multiset(tokens[hi..])
  {
    if hi < |tokens| {
      assert tokens[hi] in multiset(tokens[hi..]);
      assert RowOf(tokens, j, hi)[tokens[hi]] > multiset(tokens[..j + 1])[tokens[hi]];
    }
  }

  lemma AheadLeaves(tokens: seq<int>, j: nat, hi: nat)
    requires j < hi <= |tokens|
    ensures multiset(tokens) - multiset(tokens[j + 1..hi]) == RowOf(tokens, j, hi)
  {
    assert tokens == tokens[..j + 1] + tokens[j + 1..hi] + tokens[hi..];
  }

  /** What the token loop has added when it reaches position `j` of a sequence scheduled up to `hi`:
      flattened tokens and positions, the selected indices with their rows, and at the end the sample
      index of the last token. */
  ghost predicate Emitted(a: Inputs, b: Inputs, v: View, j: int, hi: int)
    requires v.kv <= j <= hi <= |v.tokens|
  {
    |a.rowIds| == |a.rowCounts| == |a.rowLens| && forall u {:trigger UnfoldPart(1, u)} :: UnfoldPart(1, u) ==>
      EmittedInv(a, b, v, j, hi)
  }

  ghost predicate EmittedInv(a: Inputs, b: Inputs, v: View, j: int, hi: int)
    requires v.kv <= j <= hi <= |v.tokens|
  {
    var first := First(v.kv, j, v.prompt);
    && b.tokens == a.tokens + v.tokens[v.kv..j]
    && b.positions == a.positions + Positions(v.kv, j)
    && b.selected == a.selected + Positions(|a.tokens| + (first - v.kv), |a.tokens| + (j - v.kv))
    && b.sampled == a.sampled + (if first < j == hi then [|a.selected| + (j - first) - 1] else [])
    && RowsAdded(a, b, v.tokens, first, j, hi) && SameLengths(a, b)
  }

  /** The vectors that the token loop does not touch. */
  ghost predicate SameLengths(a: Inputs, b: Inputs) {
    && b.cuSeqLens == a.cuSeqLens && b.qCuSeqLens == a.qCuSeqLens && b.cuBlockLens == a.cuBlockLens
    && b.slots == a.slots && b.blockTables == a.blockTables && b.maxSeqLen == a.maxSeqLen
      && b.qMaxSeqLen == a.qMaxSeqLen
  }

  /** One row for each position from `first` to `j`, after the rows of `a`. */
  ghost predicate RowsAdded(a: Inputs, b: Inputs, tokens: seq<int>, first: int, j: int, hi: int) {
    && |a.rowIds| == |a.rowCounts| == |a.rowLens|
    && |b.rowIds| == |b.rowCounts| == |b.rowLens| == |a.rowIds| + (j - first)
    && a.rowIds <= b.rowIds && a.rowCounts <= b.rowCounts && a.rowLens <= b.rowLens
    && (forall x :: |a.rowIds| <= x < |b.rowIds| ==> RowFor(b, x, tokens, first, |a.rowIds|, hi))
  }

  /** Row `x` belongs to the position that is as far from `first` as `x` is from `base`. */
  ghost predicate RowFor(b: Inputs, x: int, tokens: seq<int>, first: int, base: int, hi: int) {
    RowAt(b, x, tokens, first + (x - base), hi)
  }

  ghost predicate RowAt(b: Inputs, x: int, tokens: seq<int>, j: int, hi: int) {
    && 0 <= x < |b.rowIds| && x < |b.rowCounts| && x < |b.rowLens| && 0 <= j < hi <= |tokens|
    && Histogram(b.rowIds[x], b.rowCounts[x], RowOf(tokens, j, hi)) && b.rowLens[x] == |b.rowIds[x]|
  }

  lemma RowNext(a: Inputs, b: Inputs, c: Inputs, tokens: seq<int>, first: int, j: int, hi: int, ids: seq<int>,
                counts: seq<int>)
    requires RowsAdded(a, b, tokens, first, j, hi) && 0 <= first <= j < hi <= |tokens|
      && Histogram(ids, counts, RowOf(tokens, j, hi))
    requires c.rowIds == b.rowIds + [ids] && c.rowCounts == b.rowCounts + [counts] && c.rowLens == b.rowLens + [|ids|]
    ensures RowsAdded(a, c, tokens, first, j + 1, hi)
  {
    forall x | |a.rowIds| <= x < |c.rowIds|
      ensures RowFor(c, x, tokens, first, |a.rowIds|, hi)
    {
      if x < |b.rowIds| {
        assert RowFor(b, x, tokens, first, |a.rowIds|, hi);
        assert c.rowIds[x] == b.rowIds[x] && c.rowCounts[x] == b.rowCounts[x] && c.rowLens[x] == b.rowLens[x];
      } else {
        assert c.rowIds[x] == ids && c.rowCounts[x] == counts && c.rowLens[x] == |ids|;
      }
    }
  }

  lemma EmittedNothing(a: Inputs, v: View, hi: nat)
    requires v.kv < hi <= |v.tokens| && |a.rowIds| == |a.rowCounts| == |a.rowLens|
    ensures Emitted(a, a, v, v.kv, hi)
  {
    assert v.tokens[v.kv..v.kv] == [] && Positions(v.kv, v.kv) == [];
  }

  /** A prompt token before the last is emitted and not selected. */
  method EmitPrompt(a: Inputs, ghost start: Inputs, v: View, j: nat, hi: nat) returns (b: Inputs)
    requires v.kv <= j < hi <= |v.tokens| && j + 1 < v.prompt && Emitted(start, a, v, j, hi)
    ensures Emitted(start, b, v, j + 1, hi)
  {
    assert UnfoldPart(1, true);
    b := a.(tokens := a.tokens + [v.tokens[j]], positions := a.positions + [j]);
    PositionsNext(v.kv, j);
    SliceNext(v.tokens, v.kv, j);
  }

  /** Any other token is emitted and selected, with its row; the last one is sampled. */
  method EmitSelected(a: Inputs, ghost start: Inputs, v: View, j: nat, hi: nat, ids: seq<int>, counts: seq<int>)
    returns (b: Inputs)
    requires v.kv <= j < hi <= |v.tokens| && j + 1 >= v.prompt && Emitted(start, a, v, j, hi)
    requires Histogram(ids, counts, RowOf(v.tokens, j, hi))
    ensures Emitted(start, b, v, j + 1, hi)
  {
    hide Histogram, RowOf, RowAt, RowFor, RowsAdded;
    assert UnfoldPart(1, true);
    b := a.(tokens := a.tokens + [v.tokens[j]], positions := a.positions + [j]);
    b := b.(selected := b.selected + [|b.tokens| - 1],
            rowIds := b.rowIds + [ids], rowCounts := b.rowCounts + [counts], rowLens := b.rowLens + [|ids|]);
    if j == hi - 1 {
      b := b.(sampled := b.sampled + [|b.selected| - 1]);
    }
    PositionsNext(v.kv, j);
    PositionsNext(|start.tokens| + (First(v.kv, j, v.prompt) - v.kv), |start.tokens| + (j - v.kv));
    SliceNext(v.tokens, v.kv, j);
    RowNext(start, a, b, v.tokens, First(v.kv, j, v.prompt), j, hi, ids, counts);
  }

  /** Takes the token at `j` off the counts ahead and builds the row for `j`. */
  method NextRow(tokens: seq<int>, j: nat, hi: nat, ahead: multiset<int>)
    returns (ahead': multiset<int>, ids: seq<int>, counts: seq<int>)
    requires j < hi <= |tokens| && ahead == multiset(tokens[j..hi])
    ensures ahead' == multiset(tokens[j + 1..hi]) && Histogram(ids, counts, RowOf(tokens, j, hi))
  {
    assert tokens[j..hi] == [tokens[j]] + tokens[j + 1..hi];
    ahead' := ahead[tokens[j] := ahead[tokens[j]] - 1];
    AheadLeaves(tokens, j, hi);
    ids, counts := BuildRow(multiset(tokens), ahead');
  }

  /** One round of the token loop. */
  method EmitOne(b: Inputs, ghost a: Inputs, v: View, j: nat, hi: nat, ahead: multiset<int>)
    returns (c: Inputs, ahead': multiset<int>)
    requires v.kv <= j < hi <= |v.tokens| && Emitted(a, b, v, j, hi) && ahead == Ahead(v, j, hi)
    ensures Emitted(a, c, v, j + 1, hi) && ahead' == Ahead(v, j + 1, hi)
  {
    ahead' := ahead;
    if j + 1 < v.prompt {
      assert First(j + 1, hi, v.prompt) == First(j, hi, v.prompt);
      c := EmitPrompt(b, a, v, j, hi);
    } else {
      assert First(j, hi, v.prompt) == j && First(j + 1, hi, v.prompt) == j + 1;
      var ids, counts;
      ahead', ids, counts := NextRow(v.tokens, j, hi, ahead);
      c := EmitSelected(b, a, v, j, hi, ids, counts);
    }
  }

  method EmitTokens(a: Inputs, v: View, hi: nat) returns (b: Inputs)
    requires v.kv < hi <= |v.tokens| && |a.rowIds| == |a.rowCounts| == |a.rowLens|
    ensures Emitted(a, b, v, hi, hi)
  {
    hide *;
    var ahead := CountAhead(v, hi);
    b := a;
    EmittedNothing(a, v, hi);
    for j := v.kv to hi
      invariant Emitted(a, b, v, j, hi) && ahead == Ahead(v, j, hi)
    {
      b, ahead := EmitOne(b, a, v, j, hi, ahead);
    }
  }

  // ---------------------------------------------------------------- cache slots

  /** The slot of position `p`: its place inside the block that covers it. */
  function SlotOf(v: View, p: nat): int
    requires v.bs > 0 && p / v.bs < |v.blocks|
  {
    v.blocks[p / v.bs] * v.bs + p % v.bs
  }

  ghost predicate SlotsAre(slots: seq<int>, v: View, lo: nat, hi: nat) {
    && v.bs > 0 && lo <= hi && |slots| == hi - lo
    && (forall k :: 0 <= k < |slots| ==> SlotAt(slots, v, lo, k))
  }

  ghost predicate SlotAt(slots: seq<int>, v: View, lo: nat, k: nat) {
    v.bs > 0 && k < |slots| && (lo + k) / v.bs < |v.blocks| && slots[k] == SlotOf(v, lo + k)
  }

  lemma SlotsNext(slots: seq<int>, v: View, lo: nat, p: nat)
    requires SlotsAre(slots, v, lo, p) && p / v.bs < |v.blocks|
    ensures SlotsAre(slots + [SlotOf(v, p)], v, lo, p + 1)
  {
    var slots' := slots + [SlotOf(v, p)];
    forall k: nat | k < |slots'|
      ensures SlotAt(slots', v, lo, k)
    {
      assert k < |slots| ==> SlotAt(slots, v, lo, k);
      assert lo + |slots| == p;
    }
  }

  lemma InCapacity(v: View, p: nat)
    requires v.bs > 0 && p < |v.blocks| * v.bs
    ensures 0 <= p / v.bs < |v.blocks|
  {
    var q, n := p / v.bs, |v.blocks|;
    assert p == q * v.bs + p % v.bs;
    assert (q - n) * v.bs == q * v.bs - n * v.bs && (0 - q) * v.bs == -(q * v.bs);
    if q > n {
      TokenBlocks.MulAtLeast(q - n, v.bs);
    } else if q < 0 {
      TokenBlocks.MulAtLeast(0 - q, v.bs);
    }
  }

  /** A slot tells its block and its offset, so two positions share a slot only at the same offset of
      the same block; and no slot of a sequence without block 0 is below the block size. */
  lemma SlotDecodes(v: View, p: nat)
    requires v.bs > 0 && p < |v.blocks| * v.bs
    ensures p / v.bs < |v.blocks| && SlotOf(v, p) / v.bs == v.blocks[p / v.bs] && SlotOf(v, p) % v.bs == p % v.bs
    ensures (forall b :: b in v.blocks ==> b > 0) ==> SlotOf(v, p) >= v.bs
  {
    InCapacity(v, p);
    var b := v.blocks[p / v.bs];
    TokenBlocks.DivUnique(SlotOf(v, p), v.bs, b, p % v.bs);
    assert b in v.blocks;
    if b > 0 {
      TokenBlocks.MulAtLeast(b, v.bs);
    }
  }

  method KvCacheSlots(v: View, lo: nat, hi: nat) returns (slots: seq<int>)
    requires v.bs > 0 && lo <= hi <= |v.blocks| * v.bs
    ensures SlotsAre(slots, v, lo, hi)
  {
    slots := [];
    for p := lo to hi
      invariant SlotsAre(slots, v, lo, p)
    {
      InCapacity(v, p);
      SlotsNext(slots, v, lo, p);
      slots := slots + [SlotOf(v, p)];
    }
  }

  /** Entry `k` of the table is the slot of the first position in block `k`. */
  lemma TableIsSlots(v: View, k: nat)
    requires v.bs > 0 && k < |v.blocks|
    ensures k * v.bs >= 0 && k * v.bs / v.bs == k && Table(v)[k] == SlotOf(v, k * v.bs)
  {
    TokenBlocks.DivExact(k, v.bs);
    assert k * v.bs >= 0;
  }

  ghost function Table(v: View): seq<int> {
    seq(|v.blocks|, k requires 0 <= k < |v.blocks| => v.blocks[k] * v.bs)
  }

  /** The first slot of every block. */
  method BlockTable(v: View) returns (table: seq<int>)
    ensures table == Table(v)
  {
    table := [];
    for k := 0 to |v.blocks|
      invariant table == Table(v)[..k]
    {
      table := table + [v.blocks[k] * v.bs];
    }
  }

  // ---------------------------------------------------------------- the vectors of all sequences

  /** Sequence `i` of the batch is scheduled for its positions `lo` to `hi`. */
  datatype Entry = Entry(i: nat, lo: nat, hi: nat)

  ghost predicate EntryFits(views: seq<View>, e: Entry) {
    e.i < |views| && e.lo == views[e.i].kv < e.hi <= |views[e.i].tokens|
  }

  ghost predicate Aligned(a: Inputs, n: nat) {
    && |a.qCuSeqLens| == |a.cuSeqLens| == |a.cuBlockLens| == n + 1
    && a.qCuSeqLens[0] == 0 && a.cuSeqLens[0] == 0 && a.cuBlockLens[0] == 0
    && a.qCuSeqLens[n] == |a.tokens| == |a.positions| == |a.slots| && a.cuBlockLens[n] == |a.blockTables|
  }

  ghost predicate SliceOk(a: Inputs, v: View, e: Entry, from: int, to: int)
    requires e.lo == v.kv < e.hi <= |v.tokens|
  {
    && 0 <= from && to == from + (e.hi - e.lo) && to <= |a.tokens| && to <= |a.positions| && to <= |a.slots|
    && a.tokens[from..to] == v.tokens[e.lo..e.hi] && a.positions[from..to] == Positions(e.lo, e.hi)
    && SlotsAre(a.slots[from..to], v, e.lo, e.hi)
  }

  ghost predicate TableOk(a: Inputs, v: View, from: int, to: int) {
    0 <= from && to == from + |v.blocks| && to <= |a.blockTables| && a.blockTables[from..to] == Table(v)
  }

  /** The cumulative vectors delimit, at entry `k`, exactly the scheduled part of its sequence. */
  ghost predicate EntryOk(a: Inputs, views: seq<View>, e: Entry, k: nat) {
    && EntryFits(views, e)
    && k + 1 < |a.qCuSeqLens| && k + 1 < |a.cuSeqLens| && k + 1 < |a.cuBlockLens|
    && SliceOk(a, views[e.i], e, a.qCuSeqLens[k], a.qCuSeqLens[k + 1])
    && a.cuSeqLens[k + 1] == a.cuSeqLens[k] + e.hi
    && TableOk(a, views[e.i], a.cuBlockLens[k], a.cuBlockLens[k + 1])
    && e.hi - e.lo <= a.qMaxSeqLen && e.hi <= a.maxSeqLen
  }

  /** A selected position: position `j` of entry `k`. */
  datatype Choice = Choice(k: nat, j: nat)

  ghost function PicksOf(views: seq<View>, e: Entry, k: nat): seq<Choice> {
    if e.i >= |views| then [] else
      var first := First(e.lo, e.hi, views[e.i].prompt);
      if first >= e.hi then [] else seq(e.hi - first, x requires x >= 0 => Choice(k, first + x))
  }

  /** Every scheduled position from the last prompt token on, in order. */
  ghost function Picks(views: seq<View>, entries: seq<Entry>): seq<Choice> {
    if entries == [] then [] else
      var n := |entries| - 1;
      Picks(views, entries[..n]) + PicksOf(views, entries[n], n)
  }

  /** The entries that are scheduled past their prompt, in order. */
  ghost function Samples(views: seq<View>, entries: seq<Entry>): seq<nat> {
    if entries == [] then [] else
      var n := |entries| - 1;
      Samples(views, entries[..n]) + (if entries[n].i < |views| && views[entries[n].i].prompt <= entries[n].hi then [n]
                                      else [])
  }

  /** Selected index `x` is where the position was flattened to, and its row is the right histogram. */
  ghost predicate PickOk(a: Inputs, views: seq<View>, entries: seq<Entry>, x: int, pick: Choice) {
    && pick.k < |entries| && EntryFits(views, entries[pick.k]) && pick.k < |a.qCuSeqLens|
    && entries[pick.k].lo <= pick.j < entries[pick.k].hi
    && 0 <= x < |a.selected| && a.selected[x] == a.qCuSeqLens[pick.k] + (pick.j - entries[pick.k].lo)
    && RowAt(a, x, views[entries[pick.k].i].tokens, pick.j, entries[pick.k].hi)
  }

  ghost predicate PicksOk(a: Inputs, views: seq<View>, entries: seq<Entry>) {
    && |a.selected| == |a.rowIds| == |a.rowCounts| == |a.rowLens| == |Picks(views, entries)|
    && (forall x :: 0 <= x < |a.selected| ==> PickOk(a, views, entries, x, Picks(views, entries)[x]))
  }

  ghost predicate SampleOk(x: int, picks: seq<Choice>, entries: seq<Entry>, k: nat) {
    k < |entries| && 0 <= x < |picks| && entries[k].hi > 0 && picks[x] == Choice(k, entries[k].hi - 1)
  }

  /** The sample indices name the last scheduled position of each entry that is past its prompt. */
  ghost predicate SamplesOk(a: Inputs, views: seq<View>, entries: seq<Entry>) {
    && |a.sampled| == |Samples(views, entries)|
    && (forall y :: 0 <= y < |a.sampled| ==>
        SampleOk(a.sampled[y], Picks(views, entries), entries, Samples(views, entries)[y]))
  }

  ghost predicate MaxOk(a: Inputs, entries: seq<Entry>) {
    && (entries == [] ==> a.qMaxSeqLen == 0 && a.maxSeqLen == 0)
    && (entries != [] ==> exists k :: 0 <= k < |entries| && a.qMaxSeqLen == entries[k].hi - entries[k].lo)
    && (entries != [] ==> exists k :: 0 <= k < |entries| && a.maxSeqLen == entries[k].hi)
  }

  /** The vectors for exactly the given entries. */
  ghost predicate Built(a: Inputs, views: seq<View>, entries: seq<Entry>) {
    |a.rowIds| == |a.rowCounts| == |a.rowLens| && forall u {:trigger UnfoldPart(2, u)} :: UnfoldPart(2, u) ==>
      BuiltInv(a, views, entries)
  }

  ghost predicate BuiltInv(a: Inputs, views: seq<View>, entries: seq<Entry>) {
    && Aligned(a, |entries|) && (forall k :: 0 <= k < |entries| ==> EntryOk(a, views, entries[k], k))
    && PicksOk(a, views, entries) && SamplesOk(a, views, entries) && MaxOk(a, entries)
  }

  lemma BuiltEmpty(views: seq<View>)
    ensures Built(EMPTY, views, [])
  {
  }

  lemma BuiltSizes(a: Inputs, views: seq<View>, entries: seq<Entry>)
    requires Built(a, views, entries)
    ensures |a.qCuSeqLens| == |a.cuSeqLens| == |a.cuBlockLens| == |entries| + 1
    ensures a.qCuSeqLens[|entries|] == |a.tokens| == |a.positions| == |a.slots|
      && a.cuBlockLens[|entries|] == |a.blockTables|
  {
    assert UnfoldPart(2, true);
  }

  lemma EntrySteps(a: Inputs, views: seq<View>, entries: seq<Entry>, k: nat)
    requires BuiltInv(a, views, entries) && k < |entries|
    ensures |a.qCuSeqLens| == |entries| + 1 && a.qCuSeqLens[0] == 0 && a.qCuSeqLens[|entries|] == |a.tokens|
    ensures 0 < a.qCuSeqLens[k + 1] - a.qCuSeqLens[k] == entries[k].hi - entries[k].lo <= a.qMaxSeqLen
      && a.qCuSeqLens[k] >= 0
  {
    assert EntryOk(a, views, entries[k], k);
  }

  // ---------------------------------------------------------------- adding one sequence

  /** The vectors of `a`, extended by one sequence. */
  ghost predicate Extended(a: Inputs, b: Inputs, c: Inputs, v: View, hi: int)
    requires v.kv <= hi <= |v.tokens|
  {
    && Emitted(a, b, v, hi, hi) && |a.cuSeqLens| > 0 && |a.qCuSeqLens| > 0 && |a.cuBlockLens| > 0
    && c.cuSeqLens == a.cuSeqLens + [a.cuSeqLens[|a.cuSeqLens| - 1] + hi]
    && c.qCuSeqLens == a.qCuSeqLens + [a.qCuSeqLens[|a.qCuSeqLens| - 1] + (hi - v.kv)]
    && |c.slots| >= |a.slots| && c.slots[..|a.slots|] == a.slots && SlotsAre(c.slots[|a.slots|..], v, v.kv, hi)
    && c.blockTables == a.blockTables + Table(v) && c.cuBlockLens == a.cuBlockLens + [|c.blockTables|]
    && c.maxSeqLen == Max(a.maxSeqLen, hi) && c.qMaxSeqLen == Max(a.qMaxSeqLen, hi - v.kv)
    && c.tokens == b.tokens && c.positions == b.positions && c.selected == b.selected && c.sampled == b.sampled
    && c.rowIds == b.rowIds && c.rowCounts == b.rowCounts && c.rowLens == b.rowLens
  }

  lemma SameRest(a: Inputs, b: Inputs, v: View, hi: nat)
    requires v.kv <= hi <= |v.tokens| && Emitted(a, b, v, hi, hi)
    ensures SameLengths(a, b)
  {
    assert UnfoldPart(1, true);
  }

  method AddSequence(a: Inputs, v: View, hi: nat) returns (c: Inputs, ghost b: Inputs)
    requires v.bs > 0 && v.kv < hi <= |v.tokens| && hi <= |v.blocks| * v.bs
    requires |a.rowIds| == |a.rowCounts| == |a.rowLens| && |a.cuSeqLens| > 0 && |a.qCuSeqLens| > 0
      && |a.cuBlockLens| > 0
    ensures Extended(a, b, c, v, hi)
  {
    var seqLens := a.cuSeqLens + [a.cuSeqLens[|a.cuSeqLens| - 1] + hi];
    var qSeqLens := a.qCuSeqLens + [a.qCuSeqLens[|a.qCuSeqLens| - 1] + (hi - v.kv)];
    c := EmitTokens(a, v, hi);
    b := c;
    var slots := KvCacheSlots(v, v.kv, hi);
    var table := BlockTable(v);
    SameRest(a, b, v, hi);
    c := c.(cuSeqLens := seqLens, qCuSeqLens := qSeqLens, maxSeqLen := Max(a.maxSeqLen, hi),
            qMaxSeqLen := Max(a.qMaxSeqLen, hi - v.kv),
            slots := a.slots + slots, blockTables := a.blockTables + table, cuBlockLens :=
              a.cuBlockLens + [|a.blockTables + table|]);
    assert c.slots[|a.slots|..] == slots;
  }

  lemma SliceStays<T>(s: seq<T>, more: seq<T>, from: nat, to: nat)
    requires from <= to <= |s|
    ensures (s + more)[from..to] == s[from..to]
  {
  }

  /** The slices of earlier entries are untouched. */
  lemma EntryStays(a: Inputs, b: Inputs, c: Inputs, v: View, hi: nat, views: seq<View>, n: nat, e: Entry, k: nat)
    requires v.kv < hi <= |v.tokens| && Extended(a, b, c, v, hi) && Aligned(a, n) && k < n && EntryOk(a, views, e, k)
    ensures EntryOk(c, views, e, k)
  {
    assert UnfoldPart(1, true);
    var from, to := a.qCuSeqLens[k], a.qCuSeqLens[k + 1];
    SliceStays(a.tokens, v.tokens[v.kv..hi], from, to);
    SliceStays(a.positions, Positions(v.kv, hi), from, to);
    SliceStays(a.slots, c.slots[|a.slots|..], from, to);
    assert c.slots == a.slots + c.slots[|a.slots|..];
    SliceStays(a.blockTables, Table(v), a.cuBlockLens[k], a.cuBlockLens[k + 1]);
  }

  lemma EntryAdded(a: Inputs, b: Inputs, c: Inputs, v: View, views: seq<View>, n: nat, e: Entry)
    requires v.kv < e.hi <= |v.tokens| && Extended(a, b, c, v, e.hi) && Aligned(a, n) && EntryFits(views, e)
      && views[e.i] == v
    ensures EntryOk(c, views, e, n) && Aligned(c, n + 1)
  {
    assert UnfoldPart(1, true);
    var from, to := |a.tokens|, |a.tokens| + (e.hi - e.lo);
    assert c.tokens[from..to] == v.tokens[e.lo..e.hi] && c.positions[from..to] == Positions(e.lo, e.hi);
    assert c.slots[from..to] == c.slots[|a.slots|..];
    assert c.blockTables[|a.blockTables|..|c.blockTables|] == Table(v);
  }

  lemma PickStays(a: Inputs, b: Inputs, c: Inputs, v: View, hi: nat, views: seq<View>, entries: seq<Entry>, e: Entry,
                  x: int, pick: Choice)
    requires v.kv < hi <= |v.tokens| && Extended(a, b, c, v, hi) && PickOk(a, views, entries, x, pick)
    ensures PickOk(c, views, entries + [e], x, pick)
  {
    assert UnfoldPart(1, true);
    assert c.selected[x] == a.selected[x] && c.rowIds[x] == a.rowIds[x] && c.rowCounts[x] == a.rowCounts[x]
      && c.rowLens[x] == a.rowLens[x];
  }

  lemma PickAdded(a: Inputs, b: Inputs, c: Inputs, v: View, views: seq<View>, entries: seq<Entry>, e: Entry, x: int)
    requires v.kv < e.hi <= |v.tokens| && Extended(a, b, c, v, e.hi) && Aligned(a, |entries|) && EntryFits(views, e)
      && views[e.i] == v
    requires |a.selected| == |a.rowIds| && 0 <= x < |PicksOf(views, e, |entries|)|
    ensures PickOk(c, views, entries + [e], |a.selected| + x, PicksOf(views, e, |entries|)[x])
  {
    hide Histogram, RowOf;
    assert UnfoldPart(1, true);
    var first := First(v.kv, e.hi, v.prompt);
    assert RowFor(b, |a.rowIds| + x, v.tokens, first, |a.rowIds|, e.hi);
    assert c.selected[|a.selected| + x] == |a.tokens| + (first - v.kv) + x;
  }

  lemma PicksSize(a: Inputs, b: Inputs, c: Inputs, v: View, views: seq<View>, entries: seq<Entry>, e: Entry)
    requires v.kv < e.hi <= |v.tokens| && Extended(a, b, c, v, e.hi) && EntryFits(views, e) && views[e.i] == v
    requires |a.selected| == |a.rowIds| == |a.rowCounts| == |a.rowLens|
    ensures |c.selected| == |c.rowIds| == |c.rowCounts| == |c.rowLens| == |a.selected| + |PicksOf(views, e, |entries|)|
  {
    assert UnfoldPart(1, true);
  }

  lemma PicksStep(a: Inputs, b: Inputs, c: Inputs, v: View, views: seq<View>, entries: seq<Entry>, e: Entry)
    requires v.kv < e.hi <= |v.tokens| && Extended(a, b, c, v, e.hi) && Aligned(a, |entries|) && EntryFits(views, e)
      && views[e.i] == v
    requires PicksOk(a, views, entries)
    ensures |a.selected| == |Picks(views, entries)|
    ensures PicksOk(c, views, entries + [e])
      && Picks(views, entries + [e]) == Picks(views, entries) + PicksOf(views, e, |entries|)
  {
    PicksSize(a, b, c, v, views, entries, e);
    var picks := Picks(views, entries + [e]);
    assert (entries + [e])[..|entries|] == entries;
    forall x | 0 <= x < |c.selected|
      ensures PickOk(c, views, entries + [e], x, picks[x])
    {
      if x < |a.selected| {
        PickStays(a, b, c, v, e.hi, views, entries, e, x, Picks(views, entries)[x]);
      } else {
        PickAdded(a, b, c, v, views, entries, e, x - |a.selected|);
      }
    }
  }

  lemma SamplesStep(a: Inputs, b: Inputs, c: Inputs, v: View, views: seq<View>, entries: seq<Entry>, e: Entry)
    requires v.kv < e.hi <= |v.tokens| && Extended(a, b, c, v, e.hi) && EntryFits(views, e) && views[e.i] == v
    requires SamplesOk(a, views, entries) && |a.selected| == |Picks(views, entries)|
    requires Picks(views, entries + [e]) == Picks(views, entries) + PicksOf(views, e, |entries|)
    ensures SamplesOk(c, views, entries + [e])
  {
    assert UnfoldPart(1, true);
    var samples, picks := Samples(views, entries + [e]), Picks(views, entries + [e]);
    assert (entries + [e])[..|entries|] == entries;
    forall y | 0 <= y < |c.sampled|
      ensures SampleOk(c.sampled[y], picks, entries + [e], samples[y])
    {
      if y < |a.sampled| {
        assert SampleOk(a.sampled[y], Picks(views, entries), entries, Samples(views, entries)[y]);
      }
    }
  }

  lemma MaxStep(a: Inputs, c: Inputs, entries: seq<Entry>, e: Entry)
    requires MaxOk(a, entries) && e.lo < e.hi && c.maxSeqLen == Max(a.maxSeqLen, e.hi)
      && c.qMaxSeqLen == Max(a.qMaxSeqLen, e.hi - e.lo)
    ensures MaxOk(c, entries + [e])
  {
    var n, all := |entries|, entries + [e];
    assert all[n] == e;
    if entries != [] {
      var k :| 0 <= k < n && a.qMaxSeqLen == entries[k].hi - entries[k].lo;
      var m :| 0 <= m < n && a.maxSeqLen == entries[m].hi;
      assert all[k] == entries[k] && all[m] == entries[m];
    }
  }

  lemma BuiltStep(a: Inputs, b: Inputs, c: Inputs, v: View, views: seq<View>, entries: seq<Entry>, e: Entry)
    requires v.kv < e.hi <= |v.tokens| && Extended(a, b, c, v, e.hi) && EntryFits(views, e) && views[e.i] == v
    requires Built(a, views, entries)
    ensures Built(c, views, entries + [e])
  {
    hide PicksOk, SamplesOk, MaxOk, EntryOk, Emitted;
    assert BuiltInv(a, views, entries) by { assert UnfoldPart(2, true); }
    var all := entries + [e];
    EntryAdded(a, b, c, v, views, |entries|, e);
    assert Aligned(c, |all|);
    forall k | 0 <= k < |all|
      ensures EntryOk(c, views, all[k], k)
    {
      if k < |entries| {
        EntryStays(a, b, c, v, e.hi, views, |entries|, entries[k], k);
        assert all[k] == entries[k];
      }
    }
    PicksStep(a, b, c, v, views, entries, e);
    SamplesStep(a, b, c, v, views, entries, e);
    MaxStep(a, c, entries, e);
    assert BuiltInv(c, views, all);
  }

  method Extend(i: nat, v: View, hi: nat, a: Inputs, ghost views: seq<View>, ghost entries: seq<Entry>)
    returns (c: Inputs)
    requires Built(a, views, entries) && i < |views| && views[i] == v && v.kv < hi <= |v.tokens|
    requires v.bs > 0 && hi <= |v.blocks| * v.bs
    ensures Built(c, views, entries + [Entry(i, v.kv, hi)])
  {
    BuiltSizes(a, views, entries);
    ghost var b;
    c, b := AddSequence(a, v, hi);
    BuiltStep(a, b, c, v, views, entries, Entry(i, v.kv, hi));
  }

  // ---------------------------------------------------------------- the rows of the selected and the sampled positions

  /** A row determines what it counts. */
  lemma HistogramUnique(ids: seq<int>, counts: seq<int>, m: multiset<int>, m': multiset<int>)
    requires Histogram(ids, counts, m) && Histogram(ids, counts, m')
    ensures m == m'
  {
    forall t
      ensures m[t] == m'[t]
    {
      if t in ids {
        var k :| 0 <= k < |ids| && ids[k] == t;
        assert counts[k] == m[ids[k]] && counts[k] == m'[ids[k]];
      }
    }
    assert m == m';
  }

  lemma RowCounts(ids: seq<int>, counts: seq<int>, m: multiset<int>, m': multiset<int>)
    requires Histogram(ids, counts, m)
    ensures Histogram(ids, counts, m') <==> m == m'
  {
    if Histogram(ids, counts, m') {
      HistogramUnique(ids, counts, m, m');
    }
  }

  lemma PickFacts(a: Inputs, views: seq<View>, entries: seq<Entry>, x: nat)
    requires Built(a, views, entries) && x < |a.selected|
    ensures |a.selected| == |a.rowIds| == |a.rowCounts| == |a.rowLens| == |Picks(views, entries)|
    ensures PickOk(a, views, entries, x, Picks(views, entries)[x])
    ensures forall k :: 0 <= k < |entries| ==> EntryOk(a, views, entries[k], k)
  {
    assert UnfoldPart(2, true);
    hide PickOk, EntryOk, SamplesOk, MaxOk;
  }

  lemma PickEntry(a: Inputs, views: seq<View>, entries: seq<Entry>, x: nat, pick: Choice)
    requires PickOk(a, views, entries, x, pick) && forall k :: 0 <= k < |entries| ==> EntryOk(a, views, entries[k], k)
    ensures pick.k < |entries| && EntryFits(views, entries[pick.k]) && pick.k + 1 < |a.qCuSeqLens|
    ensures var e := entries[pick.k];
      && e.i < |views| && e.lo == views[e.i].kv <= pick.j < e.hi <= |views[e.i].tokens|
        && SliceOk(a, views[e.i], e, a.qCuSeqLens[pick.k], a.qCuSeqLens[pick.k + 1])
      && a.selected[x] == a.qCuSeqLens[pick.k] + (pick.j - e.lo) && x < |a.rowIds| && x < |a.rowCounts|
        && x < |a.rowLens|
      && Histogram(a.rowIds[x], a.rowCounts[x], RowOf(views[e.i].tokens, pick.j, e.hi)) && a.rowLens[x] == |a.rowIds[x]|
  {
    hide Histogram, RowOf, SliceOk, TableOk;
    assert EntryOk(a, views, entries[pick.k], pick.k);
  }

  lemma TokenAt(a: Inputs, v: View, e: Entry, from: int, to: int, j: nat)
    requires e.lo == v.kv <= j < e.hi <= |v.tokens| && SliceOk(a, v, e, from, to)
    ensures 0 <= from + (j - e.lo) < |a.tokens| && a.tokens[from + (j - e.lo)] == v.tokens[j]
  {
    assert a.tokens[from..to][j - e.lo] == v.tokens[e.lo..e.hi][j - e.lo];
  }

  /** The row of the x-th selected position, position `j` of its sequence, is the histogram of the
      tokens up to and including `j`, each distinct token once with a positive count, exactly when the
      whole remainder of the sequence was scheduled; otherwise the tokens not scheduled are counted too.
      The position was flattened to the selected index. */
  lemma SelectedRow(a: Inputs, views: seq<View>, entries: seq<Entry>, x: nat)
    requires Built(a, views, entries) && x < |a.selected|
    ensures |a.selected| == |a.rowIds| == |a.rowCounts| == |a.rowLens| == |Picks(views, entries)|
    ensures var pick := Picks(views, entries)[x];
      && pick.k < |entries| && EntryFits(views, entries[pick.k]) && entries[pick.k].lo <= pick.j < entries[pick.k].hi
      && var tokens := views[entries[pick.k].i].tokens;
         && 0 <= a.selected[x] < |a.tokens| && a.tokens[a.selected[x]] == tokens[pick.j]
           && a.rowLens[x] == |a.rowIds[x]|
         && (Histogram(a.rowIds[x], a.rowCounts[x], multiset(tokens[..pick.j + 1])) <==> entries[pick.k].hi == |tokens|)
         && Histogram(a.rowIds[x], a.rowCounts[x],
                      multiset(tokens[..pick.j + 1]) + multiset(tokens[entries[pick.k].hi..]))
  {
    hide *;
    PickFacts(a, views, entries, x);
    var pick := Picks(views, entries)[x];
    PickEntry(a, views, entries, x, pick);
    var e := entries[pick.k];
    TokenAt(a, views[e.i], e, a.qCuSeqLens[pick.k], a.qCuSeqLens[pick.k + 1], pick.j);
    var tokens := views[e.i].tokens;
    WholeRemainder(tokens, pick.j, e.hi);
    RowCounts(a.rowIds[x], a.rowCounts[x], RowOf(tokens, pick.j, e.hi), multiset(tokens[..pick.j + 1]));
  }

  /** Of an entry's scheduled positions exactly those from the last prompt token on are selected. */
  lemma {:induction false} PicksExactly(views: seq<View>, entries: seq<Entry>, k: nat, j: nat)
    ensures Choice(k, j) in Picks(views, entries)
       <==> k < |entries| && entries[k].i < |views| && entries[k].lo <= j < entries[k].hi
            && views[entries[k].i].prompt <= j + 1
  {
    if entries != [] {
      var n := |entries| - 1;
      var front, last := Picks(views, entries[..n]), PicksOf(views, entries[n], n);
      PicksExactly(views, entries[..n], k, j);
      assert Choice(k, j) in Picks(views, entries) <==> Choice(k, j) in front || Choice(k, j) in last;
      PicksOfExactly(views, entries[n], n, k, j);
    }
  }

  lemma PicksOfExactly(views: seq<View>, e: Entry, n: nat, k: nat, j: nat)
    ensures Choice(k, j) in PicksOf(views, e, n)
       <==> k == n && e.i < |views| && e.lo <= j < e.hi && views[e.i].prompt <= j + 1
  {
    var picks := PicksOf(views, e, n);
    if k == n && e.i < |views| && e.lo <= j < e.hi && views[e.i].prompt <= j + 1 {
      var first := First(e.lo, e.hi, views[e.i].prompt);
      assert picks[j - first] == Choice(k, j);
    }
  }

  lemma PicksCount(a: Inputs, views: seq<View>, entries: seq<Entry>)
    requires Built(a, views, entries)
    ensures |a.selected| == |Picks(views, entries)|
  {
    assert UnfoldPart(2, true);
  }

  lemma {:induction false} PicksNeedSamples(views: seq<View>, entries: seq<Entry>)
    requires Samples(views, entries) == [] && forall k :: 0 <= k < |entries| ==> entries[k].lo < entries[k].hi
    ensures Picks(views, entries) == []
  {
    if entries != [] {
      PicksNeedSamples(views, entries[..|entries| - 1]);
    }
  }

  /** A token is sampled exactly when one is selected. */
  lemma SelectedSampled(a: Inputs, views: seq<View>, entries: seq<Entry>)
    requires Built(a, views, entries)
    ensures a.selected == [] <==> a.sampled == []
  {
    assert BuiltInv(a, views, entries) by { assert UnfoldPart(2, true); }
    hide PickOk, SampleOk, MaxOk;
    forall k | 0 <= k < |entries| ensures entries[k].lo < entries[k].hi { assert EntryOk(a, views, entries[k], k); }
    if a.sampled == [] {
      PicksNeedSamples(views, entries);
    } else {
      SamplesInRange(a, views, entries);
      assert a.sampled[0] < |a.selected|;
    }
  }

  lemma SamplesInRange(a: Inputs, views: seq<View>, entries: seq<Entry>)
    requires Built(a, views, entries)
    ensures |a.sampled| == |Samples(views, entries)|
      && (forall y :: 0 <= y < |a.sampled| ==> 0 <= a.sampled[y] < |a.selected|)
    ensures a.tokens == [] ==> a.sampled == []
  {
    assert BuiltInv(a, views, entries) by { assert UnfoldPart(2, true); }
    hide PickOk, EntryOk, MaxOk;
    forall y | 0 <= y < |a.sampled|
      ensures 0 <= a.sampled[y] < |a.selected|
    {
      assert SampleOk(a.sampled[y], Picks(views, entries), entries, Samples(views, entries)[y]);
    }
    if entries != [] {
      EntrySteps(a, views, entries, |entries| - 1);
    }
  }

  /** The sampled row of an entry was taken at its last flattened position. */
  lemma RowSource(a: Inputs, views: seq<View>, entries: seq<Entry>, y: nat)
    requires Built(a, views, entries) && y < |a.sampled|
    ensures |a.sampled| == |Samples(views, entries)| && 0 <= a.sampled[y] < |a.selected|
    ensures var k := Samples(views, entries)[y];
      k < |entries| && k + 1 < |a.qCuSeqLens| && a.selected[a.sampled[y]] == a.qCuSeqLens[k + 1] - 1
  {
    SamplesInRange(a, views, entries);
    assert BuiltInv(a, views, entries) by { assert UnfoldPart(2, true); }
    hide EntryOk, MaxOk, RowAt;
    var k, x := Samples(views, entries)[y], a.sampled[y];
    assert SampleOk(x, Picks(views, entries), entries, k);
    assert PickOk(a, views, entries, x, Picks(views, entries)[x]);
    EntrySteps(a, views, entries, k);
  }

  // ---------------------------------------------------------------- padding

  function Zeros(n: nat): (z: seq<int>)
    ensures |z| == n && forall k :: 0 <= k < n ==> z[k] == 0
  {
    seq(n, k => 0)
  }

  lemma ZerosAppend(m: nat, n: nat)
    ensures Zeros(m) + Zeros(n) == Zeros(m + n)
  {
  }

  /** `b` extends the cumulative vector `a` by `extra` steps of size `step`. */
  ghost predicate Steps(a: seq<int>, b: seq<int>, extra: nat, step: int) {
    && |a| > 0 && |b| == |a| + extra && a <= b
    && (forall t :: |a| <= t < |b| ==> b[t] == a[|a| - 1] + (t - |a| + 1) * step)
  }

  lemma StepsNext(a: seq<int>, b: seq<int>, extra: nat, step: int)
    requires Steps(a, b, extra, step)
    ensures Steps(a, b + [b[|b| - 1] + step], extra + 1, step)
  {
    var c := b + [b[|b| - 1] + step];
    forall t | |a| <= t < |c|
      ensures c[t] == a[|a| - 1] + (t - |a| + 1) * step
    {
      if t == |b| {
        assert b[t - 1] == a[|a| - 1] + (t - |a|) * step;
        assert (t - |a| + 1) * step == (t - |a|) * step + step;
      }
    }
  }

  ghost predicate Padded(a: Inputs, b: Inputs, extra: nat, decoding: nat) {
    && extra * decoding >= 0
    && b.tokens == a.tokens + Zeros(extra * decoding) && b.positions == a.positions + Zeros(extra * decoding)
    && b.slots == a.slots + Zeros(extra * decoding) && b.blockTables == a.blockTables + Zeros(extra * decoding)
    && Steps(a.cuSeqLens, b.cuSeqLens, extra, decoding) && Steps(a.qCuSeqLens, b.qCuSeqLens, extra, decoding)
    && Steps(a.cuBlockLens, b.cuBlockLens, extra, decoding)
    && b == a.(tokens := b.tokens, positions := b.positions, slots := b.slots, blockTables := b.blockTables,
               cuSeqLens := b.cuSeqLens, qCuSeqLens := b.qCuSeqLens, cuBlockLens := b.cuBlockLens)
  }

  ghost predicate PadFires(a: Inputs, numSequences: nat, decoding: nat, minBatch: nat) {
    numSequences < minBatch && a.qMaxSeqLen == decoding && |a.tokens| == numSequences * decoding
  }

  /** The length of the longest row. */
  ghost function LongestRow(rows: seq<seq<int>>): nat {
    if rows == [] then 0 else Max(LongestRow(rows[..|rows| - 1]), |rows[|rows| - 1]|)
  }

  lemma {:induction false} LongestRowIs(rows: seq<seq<int>>, x: nat)
    requires x < |rows|
    ensures |rows[x]| <= LongestRow(rows)
  {
    if x < |rows| - 1 {
      LongestRowIs(rows[..|rows| - 1], x);
    }
  }

  lemma {:induction false} LongestRowAttained(rows: seq<seq<int>>) returns (x: nat)
    requires rows != []
    ensures x < |rows| && |rows[x]| == LongestRow(rows)
  {
    var n := |rows| - 1;
    x := n;
    if LongestRow(rows[..n]) > |rows[n]| {
      x := LongestRowAttained(rows[..n]);
    }
  }

  /** `padded` is `row`, filled up with zeros to length `size`. */
  ghost predicate Filled(row: seq<int>, padded: seq<int>, size: nat) {
    |row| <= size && padded == row + Zeros(size - |row|)
  }

  /** Every row is filled up with zeros to the length of the longest one. */
  ghost predicate Rectangular(rows: seq<seq<int>>, padded: seq<seq<int>>) {
    && |padded| == |rows|
    && (forall x :: 0 <= x < |rows| ==> Filled(rows[x], padded[x], LongestRow(rows)))
  }

  ghost predicate Finished(a: Inputs, b: Inputs, numSequences: nat, decoding: nat, minBatch: nat) {
    && Rectangular(a.rowIds, b.rowIds) && Rectangular(a.rowCounts, b.rowCounts)
    && (if PadFires(a, numSequences, decoding, minBatch)
        then Padded(a, b.(rowIds := a.rowIds, rowCounts := a.rowCounts), minBatch - numSequences, decoding)
        else b == a.(rowIds := b.rowIds, rowCounts := b.rowCounts))
  }

  method PadRows(rows: seq<seq<int>>) returns (padded: seq<seq<int>>)
    ensures Rectangular(rows, padded)
    ensures forall x, y :: 0 <= x < |rows| && 0 <= y < |rows| ==> |padded[x]| == |padded[y]| >= |rows[y]|
    ensures rows != [] ==> exists x :: 0 <= x < |rows| && |padded[x]| == |rows[x]|
  {
    var size := 0;
    for x := 0 to |rows|
      invariant size == LongestRow(rows[..x])
    {
      assert rows[..x + 1][..x] == rows[..x];
      size := Max(size, |rows[x]|);
    }
    assert rows[..|rows|] == rows;
    padded := [];
    for x := 0 to |rows|
      invariant |padded| == x && forall y :: 0 <= y < x ==> Filled(rows[y], padded[y], size)
    {
      LongestRowIs(rows, x);
      padded := padded + [rows[x] + Zeros(size - |rows[x]|)];
    }
    if rows != [] {
      ghost var x := LongestRowAttained(rows);
      assert |padded[x]| == |rows[x]|;
    }
  }

  /** One padding sequence of `decoding` zero tokens. */
  method PadOne(a: Inputs, decoding: nat) returns (b: Inputs)
    requires |a.cuSeqLens| > 0 && |a.qCuSeqLens| > 0 && |a.cuBlockLens| > 0
    ensures b == a.(tokens := a.tokens + Zeros(decoding), positions := a.positions + Zeros(decoding),
                    slots := a.slots + Zeros(decoding), blockTables := a.blockTables + Zeros(decoding),
                    cuSeqLens := a.cuSeqLens + [a.cuSeqLens[|a.cuSeqLens| - 1] + decoding],
                    qCuSeqLens := a.qCuSeqLens + [a.qCuSeqLens[|a.qCuSeqLens| - 1] + decoding],
                    cuBlockLens := a.cuBlockLens + [a.cuBlockLens[|a.cuBlockLens| - 1] + decoding])
  {
    b := a;
    for k := 0 to decoding
      invariant b == a.(tokens := a.tokens + Zeros(k), positions := a.positions + Zeros(k),
                        slots := a.slots + Zeros(k), blockTables := a.blockTables + Zeros(k))
    {
      ZerosAppend(k, 1);
      assert Zeros(1) == [0];
      b := b.(tokens := b.tokens + [0], positions := b.positions + [0], slots := b.slots + [0],
              blockTables := b.blockTables + [0]);
    }
    b := b.(cuSeqLens := a.cuSeqLens + [a.cuSeqLens[|a.cuSeqLens| - 1] + decoding],
            qCuSeqLens := a.qCuSeqLens + [a.qCuSeqLens[|a.qCuSeqLens| - 1] + decoding],
            cuBlockLens := a.cuBlockLens + [a.cuBlockLens[|a.cuBlockLens| - 1] + decoding]);
  }

  method PadBatch(a: Inputs, extra: nat, decoding: nat) returns (b: Inputs)
    requires |a.cuSeqLens| > 0 && |a.qCuSeqLens| > 0 && |a.cuBlockLens| > 0
    ensures Padded(a, b, extra, decoding)
  {
    b := a;
    assert Zeros(0) == [];
    for i := 0 to extra
      invariant Padded(a, b, i, decoding)
    {
      ghost var m := i * decoding;
      assert (i + 1) * decoding == m + decoding;
      ZerosAppend(m, decoding);
      StepsNext(a.cuSeqLens, b.cuSeqLens, i, decoding);
      StepsNext(a.qCuSeqLens, b.qCuSeqLens, i, decoding);
      StepsNext(a.cuBlockLens, b.cuBlockLens, i, decoding);
      b := PadOne(b, decoding);
    }
  }

  /** The tail of the function: padding of the batch, then of the rows. */
  method Finish(a: Inputs, numSequences: nat, decoding: nat, minBatch: nat) returns (b: Inputs)
    requires |a.cuSeqLens| > 0 && |a.qCuSeqLens| > 0 && |a.cuBlockLens| > 0
    ensures Finished(a, b, numSequences, decoding, minBatch)
  {
    b := a;
    if numSequences < minBatch && a.qMaxSeqLen == decoding && |a.tokens| == numSequences * decoding {
      b := PadBatch(a, minBatch - numSequences, decoding);
    }
    var ids := PadRows(a.rowIds);
    var counts := PadRows(a.rowCounts);
    b := b.(rowIds := ids, rowCounts := counts);
  }

  // ---------------------------------------------------------------- what the padding check implies

  /** The flattened length up to entry `k` is at most `k` times the longest entry. */
  lemma {:induction false} OffsetBound(a: Inputs, views: seq<View>, entries: seq<Entry>, k: nat)
    requires BuiltInv(a, views, entries) && k <= |entries|
    ensures 0 <= a.qCuSeqLens[k] <= k * a.qMaxSeqLen
  {
    if k > 0 {
      OffsetBound(a, views, entries, k - 1);
      EntrySteps(a, views, entries, k - 1);
      assert k * a.qMaxSeqLen == (k - 1) * a.qMaxSeqLen + a.qMaxSeqLen;
    }
  }

  /** If the total reaches the number of entries times the longest, all entries are that long. */
  lemma {:induction false} AllLongest(a: Inputs, views: seq<View>, entries: seq<Entry>, n: nat, k: nat)
    requires BuiltInv(a, views, entries) && k < n <= |entries| && a.qCuSeqLens[n] == n * a.qMaxSeqLen
    ensures entries[k].hi - entries[k].lo == a.qMaxSeqLen
    decreases n
  {
    hide PicksOk, SamplesOk, MaxOk, SliceOk, TableOk;
    EntrySteps(a, views, entries, n - 1);
    OffsetBound(a, views, entries, n - 1);
    assert n * a.qMaxSeqLen == (n - 1) * a.qMaxSeqLen + a.qMaxSeqLen;
    if k < n - 1 {
      AllLongest(a, views, entries, n - 1, k);
    }
  }

  lemma FullBatch(n: nat, m: nat, d: nat)
    requires n <= m && 0 < m * d <= n * d
    ensures n == m && d > 0
  {
    assert (m - n) * d == m * d - n * d;
    if m > n {
      TokenBlocks.MulAtLeast(m - n, d);
    }
  }

  /** The padding check looks only at the longest entry and the total; together they mean that every
      sequence of the batch was scheduled, for exactly `decoding` tokens. */
  lemma PaddingMeansUniform(a: Inputs, views: seq<View>, entries: seq<Entry>, decoding: nat, minBatch: nat)
    requires Built(a, views, entries) && |entries| <= |views| && a.tokens != []
      && PadFires(a, |views|, decoding, minBatch)
    ensures |entries| == |views| && decoding > 0
    ensures forall k :: 0 <= k < |entries| ==> entries[k].hi - entries[k].lo == decoding
  {
    BuiltSizes(a, views, entries);
    assert BuiltInv(a, views, entries) by { assert UnfoldPart(2, true); }
    assert a.qMaxSeqLen == decoding && |a.tokens| == |views| * decoding;
    hide *;
    var n := |entries|;
    OffsetBound(a, views, entries, n);
    FullBatch(n, |views|, decoding);
    forall k | 0 <= k < n
      ensures entries[k].hi - entries[k].lo == decoding
    {
      AllLongest(a, views, entries, n, k);
    }
  }

  /** If all entries are of one length, the flattened length is the number of entries times that. */
  lemma {:induction false} UniformOffset(a: Inputs, views: seq<View>, entries: seq<Entry>, d: nat, n: nat)
    requires BuiltInv(a, views, entries) && n <= |entries|
    requires forall k :: 0 <= k < |entries| ==> entries[k].hi - entries[k].lo == d
    ensures a.qCuSeqLens[n] == n * d
  {
    hide PicksOk, SamplesOk, MaxOk, EntryOk;
    if n > 0 {
      UniformOffset(a, views, entries, d, n - 1);
      EntrySteps(a, views, entries, n - 1);
      assert n * d == (n - 1) * d + d;
    }
  }

  /** The padding check does not miss a batch: if every sequence was scheduled for exactly `decoding`
      tokens, it passes. */
  lemma UniformMeansPadding(a: Inputs, views: seq<View>, entries: seq<Entry>, decoding: nat, minBatch: nat)
    requires Built(a, views, entries) && 0 < |entries| == |views| < minBatch
    requires forall k :: 0 <= k < |entries| ==> entries[k].hi - entries[k].lo == decoding
    ensures PadFires(a, |views|, decoding, minBatch)
  {
    BuiltSizes(a, views, entries);
    assert BuiltInv(a, views, entries) by { assert UnfoldPart(2, true); }
    hide PicksOk, SamplesOk, EntryOk, Aligned;
    UniformOffset(a, views, entries, decoding, |entries|);
  }

  /** Nothing but zeros is added to the flattened vectors. */
  lemma PaddedWithZeros(a: Inputs, b: Inputs, numSequences: nat, decoding: nat, minBatch: nat)
    requires Finished(a, b, numSequences, decoding, minBatch)
    ensures a.tokens <= b.tokens && a.positions <= b.positions && a.slots <= b.slots && a.blockTables <= b.blockTables
    ensures forall p :: |a.tokens| <= p < |b.tokens| ==> b.tokens[p] == 0
    ensures forall p :: |a.positions| <= p < |b.positions| ==> b.positions[p] == 0
    ensures forall p :: |a.slots| <= p < |b.slots| ==> b.slots[p] == 0
    ensures forall p :: |a.blockTables| <= p < |b.blockTables| ==> b.blockTables[p] == 0
  {
    hide Rectangular, Steps;
  }

  /** After padding, every flattened and cumulative vector ends at the padded size. */
  lemma PaddedAligned(a: Inputs, b: Inputs, views: seq<View>, entries: seq<Entry>, decoding: nat, minBatch: nat)
    requires Built(a, views, entries) && |entries| <= |views| && a.tokens != []
      && Finished(a, b, |views|, decoding, minBatch)
    requires PadFires(a, |views|, decoding, minBatch)
    ensures Aligned(b, minBatch) && |b.tokens| == minBatch * decoding
  {
    PaddingMeansUniform(a, views, entries, decoding, minBatch);
    assert Aligned(a, |views|) by { assert UnfoldPart(2, true); }
    hide Built;
    var extra := minBatch - |views|;
    assert extra * decoding == minBatch * decoding - |views| * decoding;
    assert b.qCuSeqLens[minBatch] == a.qCuSeqLens[|views|] + extra * decoding;
    assert b.cuBlockLens[minBatch] == a.cuBlockLens[|views|] + extra * decoding;
  }

  /** The entry that covers a flattened position. */
  lemma {:induction false} FindEntry(a: Inputs, views: seq<View>, entries: seq<Entry>, p: int, n: nat) returns (k: nat)
    requires BuiltInv(a, views, entries) && n <= |entries| && 0 <= p < a.qCuSeqLens[n]
    ensures k < n && a.qCuSeqLens[k] <= p < a.qCuSeqLens[k + 1]
  {
    assert n > 0;
    EntrySteps(a, views, entries, n - 1);
    if a.qCuSeqLens[n - 1] <= p {
      k := n - 1;
    } else {
      k := FindEntry(a, views, entries, p, n - 1);
    }
  }

  lemma SlicedSlot(a: Inputs, v: View, e: Entry, from: int, to: int, p: int, total: int)
    requires e.lo == v.kv < e.hi <= |v.tokens| && SliceOk(a, v, e, from, to) && from <= p < to
    requires forall b :: b in v.blocks ==> 0 < b < total
    ensures v.bs <= a.slots[p] < total * v.bs
  {
    var x := p - from;
    assert SlotAt(a.slots[from..to], v, e.lo, x);
    var j := e.lo + x;
    var b := v.blocks[j / v.bs];
    assert b in v.blocks;
    SlotBounds(b, j % v.bs, v.bs, total);
  }

  lemma SlotBounds(b: int, offset: int, bs: nat, total: int)
    requires 0 < b < total && 0 <= offset < bs
    ensures bs <= b * bs + offset < total * bs
  {
    TokenBlocks.MulAtLeast(b, bs);
    TokenBlocks.MulAtLeast(total - b, bs);
    assert (total - b) * bs == total * bs - b * bs;
  }

  /** If every sequence of the batch holds blocks after block 0, its tokens write to slots after those of
      block 0, where the padded tokens write. */
  lemma RealSlotsNotPadding(a: Inputs, views: seq<View>, entries: seq<Entry>, p: int, bs: nat, total: int)
    requires Built(a, views, entries) && 0 <= p < |a.slots|
    requires forall i :: 0 <= i < |views| ==> views[i].bs == bs && forall b :: b in views[i].blocks ==> 0 < b < total
    ensures bs <= a.slots[p] < total * bs
  {
    BuiltSizes(a, views, entries);
    assert BuiltInv(a, views, entries) by { assert UnfoldPart(2, true); }
    var k := FindEntry(a, views, entries, p, |entries|);
    assert EntryOk(a, views, entries[k], k);
    hide *;
    SlicedSlot(a, views[entries[k].i], entries[k], a.qCuSeqLens[k], a.qCuSeqLens[k + 1], p, total);
  }
}
