/** Which part of each sequence a batch schedules, which sequences the sampled tokens go to, and what is
    emitted over many calls (src/engine/batch.cpp). */
module BatchSchedule {
  import opened Collections
  import opened BatchVectors

  // ---------------------------------------------------------------- the schedule

  /** How far a sequence with `rem` tokens of budget left is scheduled. */
  function Reach(v: View, rem: nat): int {
    v.kv + Min(|v.tokens| - v.kv, rem)
  }

  /** What the program checks before it schedules a sequence. */
  ghost predicate Schedulable(v: View, rem: nat) {
    if rem == 0 then Prefill(v) else v.bs > 0 && v.kv < |v.tokens| && Reach(v, rem) <= |v.blocks| * v.bs
  }

  /** The checks in terms of what is scheduled: there is a token to schedule, and the blocks have room for
      all that the tokens and the budget allow. */
  lemma SchedulableMeans(v: View, rem: nat)
    ensures rem == 0 ==> (Schedulable(v, rem) <==> v.kv < v.prompt)
    ensures rem > 0 ==> (Schedulable(v, rem) <==>
      v.bs > 0 && v.kv < |v.tokens| && (|v.tokens| <= |v.blocks| * v.bs || v.kv + rem <= |v.blocks| * v.bs))
  {
  }

  /** From `from` to `to` it is as many tokens as those after the KV position and the budget `rem` allow. */
  ghost predicate TakesMost(v: View, rem: int, from: int, to: int) {
    var n := to - from;
    0 <= n <= rem && (n > 0 ==> v.kv + n <= |v.tokens|) && (n == rem || v.kv + n == |v.tokens|)
  }

  lemma CommittedMost(v: View, rem: nat)
    requires Schedulable(v, rem)
    ensures TakesMost(v, rem, v.kv, Committed(v, rem).kv) && Committed(v, rem) == v.(kv := Committed(v, rem).kv)
  {
  }

  ghost predicate AllSchedulable(views: seq<View>, rem: seq<nat>)
    requires |views| == |rem|
  {
    forall u {:trigger UnfoldPart(5, u)} :: UnfoldPart(5, u) ==> forall i :: 0 <= i < |views| ==>
      Schedulable(views[i], rem[i])
  }

  lemma OneSchedulable(views: seq<View>, rem: seq<nat>, i: nat)
    requires i < |views| == |rem| && AllSchedulable(views, rem)
    ensures Schedulable(views[i], rem[i])
  {
    assert UnfoldPart(5, true);
  }

  /** The entries of the first `n` sequences: those with budget left, in order. */
  ghost function Plan(views: seq<View>, rem: seq<nat>, n: nat): seq<Entry>
    requires n <= |views| == |rem|
  {
    if n == 0 then [] else Plan(views, rem, n - 1) + PlanOf(views[n - 1], rem[n - 1], n - 1)
  }

  ghost function PlanOf(v: View, rem: nat, i: nat): seq<Entry> {
    if rem == 0 || Reach(v, rem) < 0 then [] else [Entry(i, v.kv, Reach(v, rem))]
  }

  /** A sequence after its scheduled tokens are committed to the KV cache. */
  ghost function Committed(v: View, rem: nat): View {
    if rem == 0 || Reach(v, rem) < 0 then v else v.(kv := Reach(v, rem))
  }

  ghost function CommittedAll(views: seq<View>, rem: seq<nat>): (after: seq<View>)
    requires |views| == |rem|
    ensures |after| == |views|
  {
    seq(|views|, i requires 0 <= i < |views| => Committed(views[i], rem[i]))
  }

  lemma {:induction false} PlanFits(views: seq<View>, rem: seq<nat>, n: nat)
    requires n <= |views| == |rem| && AllSchedulable(views, rem)
    ensures |Plan(views, rem, n)| <= n
    ensures forall k :: 0 <= k < |Plan(views, rem, n)| ==>
      EntryFits(views, Plan(views, rem, n)[k]) && Plan(views, rem, n)[k].i < n
  {
    assert UnfoldPart(5, true);
    if n > 0 {
      PlanFits(views, rem, n - 1);
      assert Schedulable(views[n - 1], rem[n - 1]);
    }
  }

  lemma {:induction false} PlanPrefix(views: seq<View>, rem: seq<nat>, m: nat, n: nat)
    requires m <= n <= |views| == |rem|
    ensures Plan(views, rem, m) <= Plan(views, rem, n)
    decreases n
  {
    if m < n {
      PlanPrefix(views, rem, m, n - 1);
    }
  }

  /** A plan with an entry for every sequence has them in order. */
  lemma {:induction false} FullPlan(views: seq<View>, rem: seq<nat>, n: nat)
    requires n <= |views| == |rem| && AllSchedulable(views, rem) && |Plan(views, rem, n)| == n
    ensures forall i :: 0 <= i < n ==>
      rem[i] > 0 && Plan(views, rem, n)[i].hi == Reach(views[i], rem[i]) && Plan(views, rem, n)[i].lo == views[i].kv
  {
    hide *;
    if n > 0 {
      PlanFits(views, rem, n - 1);
      OneSchedulable(views, rem, n - 1);
      PlanGrows(views, rem, n - 1);
      FullPlan(views, rem, n - 1);
    }
  }

  /** A sequence with budget left gets one entry, up to where the budget and its tokens reach. */
  lemma PlanGrows(views: seq<View>, rem: seq<nat>, n: nat)
    requires n < |views| == |rem| && Schedulable(views[n], rem[n])
    ensures rem[n] == 0 ==> Plan(views, rem, n + 1) == Plan(views, rem, n)
    ensures rem[n] > 0 ==> Reach(views[n], rem[n]) >= 0
    ensures rem[n] > 0 ==>
      Plan(views, rem, n + 1) == Plan(views, rem, n) + [Entry(n, views[n].kv, Reach(views[n], rem[n]))]
  {
    var plan := Plan(views, rem, n);
    assert Plan(views, rem, n + 1) == plan + PlanOf(views[n], rem[n], n);
    hide Plan;
    if rem[n] == 0 {
      assert plan + [] == plan;
    }
  }

  lemma {:induction false} UniformPlan(views: seq<View>, rem: seq<nat>, n: nat, d: nat)
    requires n <= |views| == |rem| && AllSchedulable(views, rem)
    requires forall i :: 0 <= i < n ==> rem[i] > 0 && Committed(views[i], rem[i]).kv - views[i].kv == d
    ensures |Plan(views, rem, n)| == n
    ensures forall k :: 0 <= k < n ==> Plan(views, rem, n)[k].hi - Plan(views, rem, n)[k].lo == d
  {
    if n > 0 {
      UniformPlan(views, rem, n - 1, d);
      OneSchedulable(views, rem, n - 1);
      PlanGrows(views, rem, n - 1);
    }
  }

  /** Every sequence of the batch is scheduled, for exactly `d` tokens. */
  ghost predicate Uniform(views: seq<View>, rem: seq<nat>, d: int)
    requires |views| == |rem|
  {
    forall i :: 0 <= i < |views| ==> rem[i] > 0 && Committed(views[i], rem[i]).kv - views[i].kv == d
  }

  /** A batch is padded exactly when it is smaller than the minimum and every sequence contributed exactly
      `decoding` tokens; then all vectors end aligned at the padded size. */
  lemma PaddedBatch(a: Inputs, b: Inputs, views: seq<View>, rem: seq<nat>, decoding: nat, minBatch: nat)
    requires |views| == |rem| && AllSchedulable(views, rem) && BuiltTo(a, views, rem, |views|) && a.tokens != []
    requires Finished(a, b, |views|, decoding, minBatch)
    ensures |views| < minBatch && Uniform(views, rem, decoding) ==>
      Aligned(b, minBatch) && |b.tokens| == minBatch * decoding
    ensures !(|views| < minBatch && Uniform(views, rem, decoding)) ==>
      b == a.(rowIds := b.rowIds, rowCounts := b.rowCounts)
  {
    hide Built, BuiltTo, AllSchedulable, Plan, Reach, Rectangular, Aligned, Uniform, Padded, PadFires;
    var plan := Plan(views, rem, |views|);
    BuiltIs(a, views, rem, |views|);
    PlanFits(views, rem, |views|);
    NotEmpty(a, views, plan);
    if PadFires(a, |views|, decoding, minBatch) {
      PaddedUniform(a, views, rem, decoding, minBatch);
      PaddedAligned(a, b, views, plan, decoding, minBatch);
    } else if |views| < minBatch && Uniform(views, rem, decoding) {
      UniformFires(a, views, rem, decoding, minBatch);
    }
  }

  lemma UniformFires(a: Inputs, views: seq<View>, rem: seq<nat>, decoding: nat, minBatch: nat)
    requires |views| == |rem| && AllSchedulable(views, rem) && Built(a, views, Plan(views, rem, |views|))
    requires 0 < |views| < minBatch && Uniform(views, rem, decoding)
    ensures PadFires(a, |views|, decoding, minBatch)
  {
    hide Built, AllSchedulable, Plan, Committed;
    UniformPlan(views, rem, |views|, decoding);
    UniformMeansPadding(a, views, Plan(views, rem, |views|), decoding, minBatch);
  }

  lemma NotEmpty(a: Inputs, views: seq<View>, entries: seq<Entry>)
    requires Built(a, views, entries) && a.tokens != [] && |entries| <= |views|
    ensures |views| > 0
  {
    BuiltSizes(a, views, entries);
    assert Aligned(a, |entries|) by { assert UnfoldPart(2, true); }
  }

  lemma PaddedUniform(a: Inputs, views: seq<View>, rem: seq<nat>, decoding: nat, minBatch: nat)
    requires |views| == |rem| && AllSchedulable(views, rem) && Built(a, views, Plan(views, rem, |views|))
    requires a.tokens != [] && PadFires(a, |views|, decoding, minBatch)
    ensures |views| < minBatch && Uniform(views, rem, decoding)
  {
    assert |views| < minBatch;
    hide Built, AllSchedulable, PadFires, Plan, Reach, Committed;
    var plan := Plan(views, rem, |views|);
    PlanFits(views, rem, |views|);
    PaddingMeansUniform(a, views, plan, decoding, minBatch);
    FullPlan(views, rem, |views|);
    forall i | 0 <= i < |views|
      ensures rem[i] > 0 && Committed(views[i], rem[i]).kv - views[i].kv == decoding
    {
      OneSchedulable(views, rem, i);
      ReachIs(views[i], rem[i]);
      assert plan[i].hi - plan[i].lo == decoding;
    }
  }

  lemma ReachIs(v: View, rem: nat)
    requires Schedulable(v, rem) && rem > 0
    ensures Committed(v, rem).kv == Reach(v, rem)
  {
  }

  // ---------------------------------------------------------------- preparing: what it does to the sequences

  ghost predicate Budgeted(rem: seq<nat>, used: seq<nat>, budgets: seq<nat>) {
    |rem| == |used| == |budgets| && forall u {:trigger UnfoldPart(8, u)} :: UnfoldPart(8, u) ==>
      forall j :: 0 <= j < |rem| ==> rem[j] + used[j] == budgets[j]
  }

  /** The vectors for the first `n` sequences. */
  ghost predicate BuiltTo(a: Inputs, views: seq<View>, rem: seq<nat>, n: nat) {
    n <= |views| == |rem| && forall u {:trigger UnfoldPart(7, u)} :: UnfoldPart(7, u) ==>
      Built(a, views, Plan(views, rem, n))
  }

  lemma BuiltNone(views: seq<View>, rem: seq<nat>)
    requires |views| == |rem|
    ensures BuiltTo(EMPTY, views, rem, 0)
  {
    BuiltEmpty(views);
    assert Plan(views, rem, 0) == [];
  }

  lemma BuiltIs(a: Inputs, views: seq<View>, rem: seq<nat>, n: nat)
    requires BuiltTo(a, views, rem, n)
    ensures Built(a, views, Plan(views, rem, n))
  {
    assert UnfoldPart(7, true);
  }

  lemma BuiltNext(a: Inputs, views: seq<View>, rem: seq<nat>, n: nat)
    requires n < |views| == |rem| && Built(a, views, Plan(views, rem, n) + PlanOf(views[n], rem[n], n))
    ensures BuiltTo(a, views, rem, n + 1)
  {
    assert Plan(views, rem, n + 1) == Plan(views, rem, n) + PlanOf(views[n], rem[n], n);
  }

  /** The first `n` turns are charged to their budgets, the others not yet. */
  ghost predicate Charged(used: seq<nat>, used0: seq<nat>, views: seq<View>, rem: seq<nat>, n: nat) {
    n <= |used| == |used0| == |views| == |rem|
    && forall u {:trigger UnfoldPart(3, u)} :: UnfoldPart(3, u) ==> ChargedInv(used, used0, views, rem, n)
  }

  ghost predicate ChargedInv(used: seq<nat>, used0: seq<nat>, views: seq<View>, rem: seq<nat>, n: nat)
    requires n <= |used| == |used0| == |views| == |rem|
  {
    && (forall j :: 0 <= j < n ==> used[j] + views[j].kv == used0[j] + Committed(views[j], rem[j]).kv)
    && (forall j :: n <= j < |used| ==> used[j] == used0[j])
  }

  lemma NoneCharged(used: seq<nat>, views: seq<View>, rem: seq<nat>)
    requires |used| == |views| == |rem|
    ensures Charged(used, used, views, rem, 0)
  {
  }

  lemma NextCharge(used: seq<nat>, used0: seq<nat>, views: seq<View>, rem: seq<nat>, budgets: seq<nat>, i: nat,
                   left: nat)
    requires Charged(used, used0, views, rem, i) && i < |used| && AllSchedulable(views, rem)
    requires Budgeted(rem, used0, budgets) && left + used[i] == budgets[i]
    ensures left == rem[i] && Schedulable(views[i], left)
  {
    assert UnfoldPart(3, true) && UnfoldPart(5, true) && UnfoldPart(8, true);
  }

  lemma ChargedStep(used: seq<nat>, used': seq<nat>, used0: seq<nat>, views: seq<View>, rem: seq<nat>, i: nat)
    requires Charged(used, used0, views, rem, i) && i < |used| == |used'|
    requires forall j :: 0 <= j < |used| && j != i ==> used'[j] == used[j]
    requires used'[i] + views[i].kv == used[i] + Committed(views[i], rem[i]).kv
    ensures Charged(used', used0, views, rem, i + 1)
  {
    assert UnfoldPart(3, true);
  }

  lemma ChargedAt(used: seq<nat>, used0: seq<nat>, views: seq<View>, rem: seq<nat>, i: nat)
    requires |views| == |rem| && Charged(used, used0, views, rem, |views|) && i < |views|
    ensures used[i] + views[i].kv == used0[i] + Committed(views[i], rem[i]).kv
  {
    assert UnfoldPart(3, true);
  }

  /** Every turn schedules as much as its tokens and its budget allow. */
  lemma ChargedMost(used: seq<nat>, used0: seq<nat>, views: seq<View>, rem: seq<nat>, i: nat)
    requires |views| == |rem| && Charged(used, used0, views, rem, |views|) && AllSchedulable(views, rem) && i < |views|
    ensures TakesMost(views[i], rem[i], used0[i], used[i])
  {
    ChargedAt(used, used0, views, rem, i);
    OneSchedulable(views, rem, i);
    CommittedMost(views[i], rem[i]);
  }

  // ---------------------------------------------------------------- turns

  /** The sequences after the first `n` turns.  A sequence that is in the batch twice has two turns. */
  ghost function Settled<S>(seqs: seq<S>, seen: map<S, View>, rem: seq<nat>, n: nat): (m: map<S, View>)
    requires n <= |seqs| == |rem| && forall s :: s in seqs ==> s in seen
    ensures m.Keys == seen.Keys
  {
    if n == 0 then seen
    else
      var m := Settled(seqs, seen, rem, n - 1);
      assert seqs[n - 1] in seqs;
      m[seqs[n - 1] := Committed(m[seqs[n - 1]], rem[n - 1])]
  }

  /** Each sequence as it is when its turn comes. */
  ghost function Turns<S>(seqs: seq<S>, seen: map<S, View>, rem: seq<nat>): (views: seq<View>)
    requires |seqs| == |rem| && forall s :: s in seqs ==> s in seen
    ensures |views| == |seqs|
  {
    seq(|seqs|, i requires 0 <= i < |seqs| => assert seqs[i] in seqs; Settled(seqs, seen, rem, i)[seqs[i]])
  }

  lemma {:induction false} SettledAt<S>(seqs: seq<S>, seen: map<S, View>, rem: seq<nat>, n: nat, i: nat)
    requires n <= |seqs| == |rem| && i < |seqs| && NoDup(seqs) && forall s :: s in seqs ==> s in seen
    ensures seqs[i] in seqs
    ensures Settled(seqs, seen, rem, n)[seqs[i]] == if i < n then Committed(seen[seqs[i]], rem[i]) else seen[seqs[i]]
  {
    assert seqs[i] in seqs;
    if n > 0 {
      SettledAt(seqs, seen, rem, n - 1, i);
      assert Differ(seqs, i, n - 1) && Differ(seqs, n - 1, i);
    }
  }

  /** In a batch of different sequences each turn finds its sequence untouched. */
  lemma DistinctTurns<S>(seqs: seq<S>, seen: map<S, View>, rem: seq<nat>, views: seq<View>, after: seq<View>)
    requires |views| == |after| == |seqs| == |rem| && NoDup(seqs) && forall s :: s in seqs ==> s in seen
    requires forall i :: 0 <= i < |seqs| ==> seqs[i] in seqs && views[i] == seen[seqs[i]]
    requires forall i :: 0 <= i < |seqs| ==> seqs[i] in seqs && after[i] == Settled(seqs, seen, rem, |seqs|)[seqs[i]]
    ensures Turns(seqs, seen, rem) == views && after == CommittedAll(views, rem)
  {
    forall i | 0 <= i < |seqs|
      ensures Turns(seqs, seen, rem)[i] == views[i] && after[i] == CommittedAll(views, rem)[i]
    {
      SettledAt(seqs, seen, rem, i, i);
      SettledAt(seqs, seen, rem, |seqs|, i);
    }
  }

  /** Each sequence of the batch after the last turn. */
  ghost function Finals<S>(seqs: seq<S>, seen: map<S, View>, rem: seq<nat>): (views: seq<View>)
    requires |seqs| == |rem| && forall s :: s in seqs ==> s in seen
    ensures |views| == |seqs|
  {
    seq(|seqs|, i requires 0 <= i < |seqs| => assert seqs[i] in seqs; Settled(seqs, seen, rem, |seqs|)[seqs[i]])
  }

  lemma {:induction false} SettledGrows<S>(seqs: seq<S>, seen: map<S, View>, rem: seq<nat>, m: nat, n: nat, s: S)
    requires m <= n <= |seqs| == |rem| && s in seen && forall s :: s in seqs ==> s in seen
    requires AllSchedulable(Turns(seqs, seen, rem), rem)
    ensures Settled(seqs, seen, rem, m)[s].kv <= Settled(seqs, seen, rem, n)[s].kv
    ensures Settled(seqs, seen, rem, m)[s].prompt == Settled(seqs, seen, rem, n)[s].prompt
    decreases n
  {
    if m < n {
      SettledGrows(seqs, seen, rem, m, n - 1, s);
      var views := Turns(seqs, seen, rem);
      OneSchedulable(views, rem, n - 1);
      assert seqs[n - 1] in seqs;
    }
  }

  /** A sequence that some turn leaves out of prefill is out of prefill at the end. */
  lemma ReadyStays<S>(seqs: seq<S>, seen: map<S, View>, rem: seq<nat>, i: nat)
    requires |seqs| == |rem| && i < |seqs| && (forall s :: s in seqs ==> s in seen)
      && AllSchedulable(Turns(seqs, seen, rem), rem)
    ensures Prefill(Finals(seqs, seen, rem)[i]) ==> Prefill(CommittedAll(Turns(seqs, seen, rem), rem)[i])
  {
    assert seqs[i] in seqs;
    SettledGrows(seqs, seen, rem, i + 1, |seqs|, seqs[i]);
  }

  /** No turn leaves its sequence in prefill while another turn of the same call takes it out. */
  ghost predicate TurnsAgree(turned: seq<View>, finals: seq<View>)
    requires |turned| == |finals|
  {
    forall i :: 0 <= i < |finals| ==> (Prefill(turned[i]) <==> Prefill(finals[i]))
  }

  lemma DistinctAgree<S>(seqs: seq<S>, seen: map<S, View>, rem: seq<nat>)
    requires |seqs| == |rem| && NoDup(seqs) && forall s :: s in seqs ==> s in seen
    ensures TurnsAgree(CommittedAll(Turns(seqs, seen, rem), rem), Finals(seqs, seen, rem))
  {
    forall i | 0 <= i < |seqs|
      ensures CommittedAll(Turns(seqs, seen, rem), rem)[i] == Finals(seqs, seen, rem)[i]
    {
      SettledAt(seqs, seen, rem, i, i);
      SettledAt(seqs, seen, rem, |seqs|, i);
    }
  }

  // ---------------------------------------------------------------- processing: what it does to the sequences

  /** The sequences among the first `n` that are out of prefill. */
  ghost function Ready(views: seq<View>, n: nat): seq<nat>
    requires n <= |views|
  {
    if n == 0 then [] else Ready(views, n - 1) + if Prefill(views[n - 1]) then [] else [n - 1]
  }

  lemma {:induction false} ReadyGrows(views: seq<View>, m: nat, n: nat)
    requires m <= n <= |views|
    ensures Ready(views, m) <= Ready(views, n)
    decreases n
  {
    if m < n {
      ReadyGrows(views, m, n - 1);
    }
  }

  /** There are as many sequences out of prefill at the end as turns that leave one out of prefill,
      exactly when the turns agree. */
  lemma {:induction false} ReadyCounts(turned: seq<View>, finals: seq<View>, n: nat)
    requires n <= |turned| == |finals| && forall i :: 0 <= i < n ==> Prefill(finals[i]) ==> Prefill(turned[i])
    ensures |Ready(turned, n)| <= |Ready(finals, n)|
    ensures |Ready(turned, n)| == |Ready(finals, n)| <==> forall i :: 0 <= i < n ==>
      (Prefill(turned[i]) <==> Prefill(finals[i]))
  {
    if n > 0 {
      ReadyCounts(turned, finals, n - 1);
    }
  }

  lemma ChecksPass<S>(seqs: seq<S>, seen: map<S, View>, rem: seq<nat>)
    requires |seqs| == |rem| && (forall s :: s in seqs ==> s in seen) && AllSchedulable(Turns(seqs, seen, rem), rem)
    ensures var turned, finals := CommittedAll(Turns(seqs, seen, rem), rem), Finals(seqs, seen, rem);
      |Ready(turned, |seqs|)| == |Ready(finals, |seqs|)| <==> TurnsAgree(turned, finals)
  {
    var turned, finals := CommittedAll(Turns(seqs, seen, rem), rem), Finals(seqs, seen, rem);
    forall i | 0 <= i < |seqs| ensures Prefill(finals[i]) ==> Prefill(turned[i]) { ReadyStays(seqs, seen, rem, i); }
    ReadyCounts(turned, finals, |seqs|);
  }

  lemma {:induction false} ReadyHas(views: seq<View>, n: nat, i: nat) returns (y: nat)
    requires i < n <= |views| && !Prefill(views[i])
    ensures y < |Ready(views, n)| && Ready(views, n)[y] == i
  {
    if i == n - 1 {
      y := |Ready(views, n)| - 1;
    } else {
      y := ReadyHas(views, n - 1, i);
    }
  }

  /** The place of a sequence among those out of prefill. */
  lemma {:induction false} RankOf(views: seq<View>, n: nat, y: nat)
    requires n <= |views| && y < |Ready(views, n)|
    ensures Ready(views, n)[y] < n && !Prefill(views[Ready(views, n)[y]]) && |Ready(views, Ready(views, n)[y])| == y
  {
    if y < |Ready(views, n - 1)| {
      RankOf(views, n - 1, y);
    }
  }

  /** Sequence `i` was given the row that stands at its place among the sequences out of prefill. */
  ghost predicate Answered(v': View, views: seq<View>, i: nat, rows: seq<int>) {
    && i < |views|
    && (if Prefill(views[i]) then v' == views[i]
        else |Ready(views, i)| < |rows| && v' == views[i].(tokens := views[i].tokens + [rows[|Ready(views, i)|]]))
  }

  ghost function AnswerTo(v: View, rows: seq<int>, rank: nat): View {
    if Prefill(v) || rank >= |rows| then v else v.(tokens := v.tokens + [rows[rank]])
  }

  /** The sequences after the first `n` of the batch were answered. */
  ghost function Answers<S>(seqs: seq<S>, seen: map<S, View>, views: seq<View>, rows: seq<int>,
                            n: nat): (m: map<S, View>)
    requires n <= |seqs| == |views| && forall s :: s in seqs ==> s in seen
    ensures m.Keys == seen.Keys
  {
    if n == 0 then seen
    else
      var m := Answers(seqs, seen, views, rows, n - 1);
      assert seqs[n - 1] in seqs;
      m[seqs[n - 1] := AnswerTo(m[seqs[n - 1]], rows, |Ready(views, n - 1)|)]
  }

  lemma NoAnswerYet<S>(seqs: seq<S>, seen: map<S, View>, views: seq<View>, rows: seq<int>)
    requires |seqs| == |views| && forall s :: s in seqs ==> s in seen
    ensures Answers(seqs, seen, views, rows, 0) == seen && Ready(views, 0) == []
  {
  }

  lemma AnswersNext<S>(seqs: seq<S>, seen: map<S, View>, views: seq<View>, rows: seq<int>, n: nat, m: map<S, View>,
                       m': map<S, View>)
    requires n < |seqs| == |views| && (forall s :: s in seqs ==> s in seen) && m == Answers(seqs, seen, views, rows, n)
    requires seqs[n] in m && m' == m[seqs[n] := AnswerTo(m[seqs[n]], rows, |Ready(views, n)|)]
    ensures m' == Answers(seqs, seen, views, rows, n + 1)
  {
  }

  lemma SettledNext<S>(seqs: seq<S>, seen: map<S, View>, rem: seq<nat>, n: nat, m: map<S, View>, m': map<S, View>)
    requires n < |seqs| == |rem| && (forall s :: s in seqs ==> s in seen) && m == Settled(seqs, seen, rem, n)
    requires seqs[n] in m && m' == m[seqs[n] := Committed(m[seqs[n]], rem[n])]
    ensures m' == Settled(seqs, seen, rem, n + 1)
  {
  }

  /** An answer takes no sequence into or out of prefill. */
  lemma {:induction false} AnswersPrefill<S>(seqs: seq<S>, seen: map<S, View>, views: seq<View>, rows: seq<int>,
                                             n: nat, s: S)
    requires n <= |seqs| == |views| && s in seen && forall s :: s in seqs ==> s in seen
    ensures Prefill(Answers(seqs, seen, views, rows, n)[s]) <==> Prefill(seen[s])
  {
    if n > 0 {
      assert seqs[n - 1] in seqs;
      AnswersPrefill(seqs, seen, views, rows, n - 1, s);
    }
  }

  lemma {:induction false} AnswersAt<S>(seqs: seq<S>, seen: map<S, View>, views: seq<View>, rows: seq<int>, n: nat,
                                        i: nat)
    requires n <= |seqs| == |views| && i < |seqs| && NoDup(seqs) && forall s :: s in seqs ==> s in seen
    ensures seqs[i] in seqs
    ensures Answers(seqs, seen, views, rows, n)[seqs[i]]
         == if i < n then AnswerTo(seen[seqs[i]], rows, |Ready(views, i)|) else seen[seqs[i]]
  {
    assert seqs[i] in seqs;
    if n > 0 {
      AnswersAt(seqs, seen, views, rows, n - 1, i);
      assert Differ(seqs, i, n - 1) && Differ(seqs, n - 1, i);
    }
  }

  /** Every sequence is answered. */
  ghost predicate AllAnswered(now: seq<View>, views: seq<View>, rows: seq<int>) {
    |now| == |views| && forall u {:trigger UnfoldPart(4, u)} :: UnfoldPart(4, u) ==>
      forall j :: 0 <= j < |now| ==> Answered(now[j], views, j, rows)
  }

  /** In a batch of different sequences each one gets the row at its own place. */
  lemma DistinctAnswers<S>(seqs: seq<S>, seen: map<S, View>, views: seq<View>, rows: seq<int>, now: seq<View>)
    requires |views| == |now| == |seqs| && NoDup(seqs) && |Ready(views, |views|)| <= |rows|
      && forall s :: s in seqs ==> s in seen
    requires forall i :: 0 <= i < |seqs| ==> seqs[i] in seqs && views[i] == seen[seqs[i]]
    requires forall i :: 0 <= i < |seqs| ==>
      seqs[i] in seqs && now[i] == Answers(seqs, seen, views, rows, |seqs|)[seqs[i]]
    ensures AllAnswered(now, views, rows)
  {
    forall i | 0 <= i < |seqs|
      ensures Answered(now[i], views, i, rows)
    {
      AnswersAt(seqs, seen, views, rows, |seqs|, i);
      ReadyGrows(views, i + 1, |views|);
    }
  }

  /** Where every sequence stays in prefill there is nothing to answer. */
  lemma {:induction false} NoneReady(views: seq<View>, n: nat)
    requires n <= |views| && Ready(views, n) == []
    ensures forall i :: 0 <= i < n ==> Prefill(views[i])
  {
    if n > 0 {
      NoneReady(views, n - 1);
    }
  }

  lemma NoAnswers(views: seq<View>)
    requires Ready(views, |views|) == []
    ensures AllAnswered(views, views, [])
  {
    NoneReady(views, |views|);
  }

  lemma AnsweredAt(now: seq<View>, after: seq<View>, rows: seq<int>, i: nat)
    requires AllAnswered(now, after, rows) && i < |after|
    ensures Answered(now[i], after, i, rows)
  {
    assert UnfoldPart(4, true);
  }

  // ---------------------------------------------------------------- routing the sampled tokens

  /** Entry `k` belongs to sequence `i`. */
  ghost predicate Routed(plan: seq<Entry>, k: nat, i: nat) {
    k < |plan| && plan[k].i == i
  }

  ghost predicate Routes(views: seq<View>, plan: seq<Entry>, ready: seq<nat>) {
    |Samples(views, plan)| == |ready| && forall u {:trigger UnfoldPart(6, u)} :: UnfoldPart(6, u) ==>
      forall y :: 0 <= y < |ready| ==> Routed(plan, Samples(views, plan)[y], ready[y])
  }

  lemma RoutesNone(views: seq<View>, rem: seq<nat>, after: seq<View>)
    requires |views| == |rem| == |after|
    ensures Routes(views, Plan(views, rem, 0), Ready(after, 0))
  {
  }

  lemma RoutesSize(views: seq<View>, plan: seq<Entry>, ready: seq<nat>)
    requires Routes(views, plan, ready)
    ensures |Samples(views, plan)| == |ready|
  {
  }

  lemma RoutedAt(views: seq<View>, plan: seq<Entry>, ready: seq<nat>, y: nat)
    requires Routes(views, plan, ready) && y < |ready|
    ensures Samples(views, plan)[y] < |plan| && plan[Samples(views, plan)[y]].i == ready[y]
  {
    assert UnfoldPart(6, true);
    assert Routed(plan, Samples(views, plan)[y], ready[y]);
  }

  lemma RouteNext(views: seq<View>, plan: seq<Entry>, ready: seq<nat>, e: Entry)
    requires Routes(views, plan, ready) && e.i < |views|
    ensures Routes(views, plan + [e], if views[e.i].prompt <= e.hi then ready + [e.i] else ready)
  {
    assert UnfoldPart(6, true);
    var plan' := plan + [e];
    assert plan'[..|plan|] == plan;
    var ready' := if views[e.i].prompt <= e.hi then ready + [e.i] else ready;
    forall y | 0 <= y < |ready'|
      ensures Routed(plan', Samples(views, plan')[y], ready'[y])
    {
      assert y < |ready| ==> Routed(plan, Samples(views, plan)[y], ready[y]);
    }
  }

  lemma PlanNext(views: seq<View>, rem: seq<nat>, after: seq<View>, i: nat)
    requires i < |views| == |rem| == |after| && Schedulable(views[i], rem[i]) && after[i] == Committed(views[i], rem[i])
    ensures rem[i] == 0 ==> Plan(views, rem, i + 1) == Plan(views, rem, i) && Ready(after, i + 1) == Ready(after, i)
    ensures rem[i] > 0 ==> Reach(views[i], rem[i]) >= 0
    ensures rem[i] > 0 ==>
      var e := Entry(i, views[i].kv, Reach(views[i], rem[i]));
      && Plan(views, rem, i + 1) == Plan(views, rem, i) + [e]
      && Ready(after, i + 1) == if views[e.i].prompt <= e.hi then Ready(after, i) + [e.i] else Ready(after, i)
  {
    hide *;
    PlanGrows(views, rem, i);
    ReadyNext(after, i);
    CommittedPrefill(views[i], rem[i]);
  }

  lemma ReadyNext(after: seq<View>, i: nat)
    requires i < |after|
    ensures Ready(after, i + 1) == if Prefill(after[i]) then Ready(after, i) else Ready(after, i) + [i]
  {
    var ready := Ready(after, i);
    assert Ready(after, i + 1) == ready + if Prefill(after[i]) then [] else [i];
    assert ready + [] == ready;
  }

  lemma CommittedPrefill(v: View, left: nat)
    requires Schedulable(v, left)
    ensures left == 0 ==> Prefill(Committed(v, left))
    ensures left > 0 ==> (Prefill(Committed(v, left)) <==> Reach(v, left) < v.prompt)
  {
  }

  /** The sampled entries belong to exactly the sequences that are out of prefill once the scheduled
      tokens are committed, in the same order. */
  lemma {:induction false} SamplesAreReady(views: seq<View>, rem: seq<nat>, after: seq<View>, n: nat)
    requires n <= |views| == |rem| == |after| && AllSchedulable(views, rem)
    requires forall i :: 0 <= i < |views| ==> after[i] == Committed(views[i], rem[i])
    ensures Routes(views, Plan(views, rem, n), Ready(after, n))
  {
    hide *;
    if n == 0 {
      RoutesNone(views, rem, after);
    } else {
      SamplesAreReady(views, rem, after, n - 1);
      var v, left := views[n - 1], rem[n - 1];
      OneSchedulable(views, rem, n - 1);
      PlanNext(views, rem, after, n - 1);
      if left > 0 {
        RouteNext(views, Plan(views, rem, n - 1), Ready(after, n - 1), Entry(n - 1, v.kv, Reach(v, left)));
      }
    }
  }

  lemma CommittedAt(after: seq<View>, views: seq<View>, rem: seq<nat>)
    requires |views| == |rem| && after == CommittedAll(views, rem)
    ensures |after| == |views| && forall i :: 0 <= i < |views| ==> after[i] == Committed(views[i], rem[i])
  {
  }

  lemma RoutesOf(a: Inputs, after: seq<View>, views: seq<View>, rem: seq<nat>)
    requires |views| == |rem| && BuiltTo(a, views, rem, |views|) && AllSchedulable(views, rem)
      && after == CommittedAll(views, rem)
    ensures |a.sampled| == |Ready(after, |views|)|
      && (forall y :: 0 <= y < |a.sampled| ==> 0 <= a.sampled[y] < |a.selected|)
    ensures (a.tokens == [] ==> a.sampled == []) && (a.selected == [] <==> a.sampled == [])
    ensures Routes(views, Plan(views, rem, |views|), Ready(after, |views|))
  {
    hide *;
    BuiltIs(a, views, rem, |views|);
    CommittedAt(after, views, rem);
    SamplesInRange(a, views, Plan(views, rem, |views|));
    SelectedSampled(a, views, Plan(views, rem, |views|));
    SamplesAreReady(views, rem, after, |views|);
    RoutesSize(views, Plan(views, rem, |views|), Ready(after, |views|));
  }

  ghost function SequenceOf(plan: seq<Entry>, k: nat): nat {
    if k < |plan| then plan[k].i else 0
  }

  ghost function SequencesOf(plan: seq<Entry>, samples: seq<nat>): seq<nat> {
    seq(|samples|, y requires 0 <= y < |samples| => SequenceOf(plan, samples[y]))
  }

  /** The sequence of entry `k` got the token sampled where its last scheduled token was flattened to. */
  ghost predicate Given(now: seq<View>, views: seq<View>, rem: seq<nat>, plan: seq<Entry>, a: Inputs, k: nat,
                        next: int -> int)
    requires |now| == |views| == |rem|
  {
    && k < |plan| && plan[k].i < |views| && k + 1 < |a.qCuSeqLens|
    && var v := Committed(views[plan[k].i], rem[plan[k].i]);
       now[plan[k].i] == v.(tokens := v.tokens + [next(a.qCuSeqLens[k + 1] - 1)])
  }

  /** What one engine step does to the sequences: one that stays in prefill only has its KV position
      moved; the others also get the token sampled at their own last flattened position. */
  ghost predicate StepLaw(now: seq<View>, views: seq<View>, rem: seq<nat>, a: Inputs, next: int -> int) {
    && |now| == |views| == |rem|
    && (forall i :: 0 <= i < |views| ==> Prefill(Committed(views[i], rem[i])) ==> now[i] == Committed(views[i], rem[i]))
    && var plan := Plan(views, rem, |views|);
       && Ready(CommittedAll(views, rem), |views|) == SequencesOf(plan, Samples(views, plan))
       && (forall y :: 0 <= y < |Samples(views, plan)| ==>
           Given(now, views, rem, plan, a, Samples(views, plan)[y], next))
  }

  lemma GivenRow(a: Inputs, now: seq<View>, views: seq<View>, rem: seq<nat>, rows: seq<int>, next: int -> int, y: nat)
    requires |views| == |rem| && Built(a, views, Plan(views, rem, |views|)) && y < |a.sampled|
    requires |now| == |views| && AllAnswered(now, CommittedAll(views, rem), rows)
    requires Routes(views, Plan(views, rem, |views|), Ready(CommittedAll(views, rem), |views|))
    requires |rows| == |a.sampled| == |Samples(views, Plan(views, rem, |views|))| && 0 <= a.sampled[y] < |a.selected|
      && rows[y] == next(a.selected[a.sampled[y]])
    ensures Given(now, views, rem, Plan(views, rem, |views|), a, Samples(views, Plan(views, rem, |views|))[y], next)
  {
    hide Built, AllAnswered, Routes, Plan, Samples, Committed;
    var plan, after := Plan(views, rem, |views|), CommittedAll(views, rem);
    RowSource(a, views, plan, y);
    RoutesSize(views, plan, Ready(after, |views|));
    RoutedAt(views, plan, Ready(after, |views|), y);
    RankOf(after, |views|, y);
    var i := plan[Samples(views, plan)[y]].i;
    AnsweredAt(now, after, rows, i);
    assert after[i] == Committed(views[i], rem[i]);
  }

  lemma StepFacts(a: Inputs, now: seq<View>, after: seq<View>, views: seq<View>, rem: seq<nat>, rows: seq<int>,
                  next: int -> int)
    requires |views| == |rem| && BuiltTo(a, views, rem, |views|) && AllSchedulable(views, rem)
      && after == CommittedAll(views, rem)
    requires |now| == |views| && AllAnswered(now, after, rows) && |rows| == |a.sampled|
    requires forall y :: 0 <= y < |rows| ==>
      0 <= a.sampled[y] < |a.selected| && rows[y] == next(a.selected[a.sampled[y]])
    ensures StepLaw(now, views, rem, a, next)
  {
    RoutesOf(a, after, views, rem);
    BuiltIs(a, views, rem, |views|);
    hide Built, AllAnswered, Routes, Plan, Samples, Committed, BuiltTo, AllSchedulable, Given;
    var plan, ready := Plan(views, rem, |views|), Ready(after, |views|);
    RoutesSize(views, plan, ready);
    forall y | 0 <= y < |Samples(views, plan)|
      ensures Given(now, views, rem, plan, a, Samples(views, plan)[y], next)
        && SequenceOf(plan, Samples(views, plan)[y]) == ready[y]
    {
      GivenRow(a, now, views, rem, rows, next, y);
      RoutedAt(views, plan, ready, y);
    }
    forall i | 0 <= i < |views| && Prefill(Committed(views[i], rem[i]))
      ensures now[i] == Committed(views[i], rem[i])
    {
      AnsweredAt(now, after, rows, i);
    }
  }

  // ---------------------------------------------------------------- chunks over many calls

  /** The tokens at positions `lo` to `hi`, each with its position. */
  ghost function Pairs(tokens: seq<int>, lo: nat, hi: nat): seq<(int, int)>
    requires lo <= hi <= |tokens|
  {
    seq(hi - lo, k requires 0 <= k < hi - lo => (tokens[lo + k], lo + k))
  }

  ghost function Zip(tokens: seq<int>, positions: seq<int>): seq<(int, int)>
    requires |tokens| == |positions|
  {
    seq(|tokens|, k requires 0 <= k < |tokens| => (tokens[k], positions[k]))
  }

  ghost function SliceOf(a: Inputs, k: nat): seq<(int, int)> {
    if k + 1 < |a.qCuSeqLens| && 0 <= a.qCuSeqLens[k] <= a.qCuSeqLens[k + 1] <= |a.tokens|
      && a.qCuSeqLens[k + 1] <= |a.positions|
    then Zip(a.tokens[a.qCuSeqLens[k]..a.qCuSeqLens[k + 1]], a.positions[a.qCuSeqLens[k]..a.qCuSeqLens[k + 1]])
    else []
  }

  /** What the vectors emit for sequence `i` in their first `n` slices. */
  ghost function Emission(a: Inputs, entries: seq<Entry>, i: nat, n: nat): seq<(int, int)>
    requires n <= |entries|
  {
    if n == 0 then []
    else Emission(a, entries, i, n - 1) + (if entries[n - 1].i == i then SliceOf(a, n - 1) else [])
  }

  lemma SliceIs(a: Inputs, views: seq<View>, entries: seq<Entry>, k: nat)
    requires Built(a, views, entries) && k < |entries|
    ensures EntryFits(views, entries[k])
      && SliceOf(a, k) == Pairs(views[entries[k].i].tokens, entries[k].lo, entries[k].hi)
  {
    assert BuiltInv(a, views, entries) by { assert UnfoldPart(2, true); }
    hide PicksOk, SamplesOk, MaxOk;
    var e := entries[k];
    assert EntryOk(a, views, e, k);
    var from, to := a.qCuSeqLens[k], a.qCuSeqLens[k + 1];
    var v, got := views[e.i], SliceOf(a, k);
    forall x | 0 <= x < e.hi - e.lo
      ensures got[x] == Pairs(v.tokens, e.lo, e.hi)[x]
    {
      assert a.tokens[from..to][x] == v.tokens[e.lo..e.hi][x] && a.positions[from..to][x] == Positions(e.lo, e.hi)[x];
    }
  }

  /** The pairs that one call should emit for a sequence. */
  ghost function Chunk(v: View, rem: nat): seq<(int, int)> {
    if rem > 0 && v.kv <= Reach(v, rem) <= |v.tokens| then Pairs(v.tokens, v.kv, Reach(v, rem)) else []
  }

  lemma ChunkIs(v: View, rem: nat)
    requires Schedulable(v, rem) && v.kv <= |v.tokens|
    ensures v.kv <= Committed(v, rem).kv <= |v.tokens| && Chunk(v, rem) == Pairs(v.tokens, v.kv, Committed(v, rem).kv)
  {
  }

  lemma EmissionNone(a: Inputs, views: seq<View>, rem: seq<nat>, i: nat)
    requires |views| == |rem|
    ensures |Plan(views, rem, 0)| <= |Plan(views, rem, |views|)|
      && Emission(a, Plan(views, rem, |views|), i, |Plan(views, rem, 0)|) == []
  {
  }

  lemma EmissionNext(a: Inputs, views: seq<View>, rem: seq<nat>, i: nat, n: nat)
    requires n < |views| == |rem| && Schedulable(views[n], rem[n]) && Built(a, views, Plan(views, rem, |views|))
    ensures |Plan(views, rem, n)| <= |Plan(views, rem, n + 1)| <= |Plan(views, rem, |views|)|
    ensures Emission(a, Plan(views, rem, |views|), i, |Plan(views, rem, n + 1)|)
         == Emission(a, Plan(views, rem, |views|), i, |Plan(views, rem, n)|) + (if n == i then Chunk(views[i], rem[i])
             else [])
  {
    hide Built, Pairs, SliceOf;
    PlanPrefix(views, rem, n + 1, |views|);
    var plan, k := Plan(views, rem, |views|), |Plan(views, rem, n)|;
    if rem[n] > 0 {
      var e := Entry(n, views[n].kv, Reach(views[n], rem[n]));
      assert Plan(views, rem, n + 1) == Plan(views, rem, n) + [e];
      assert plan[k] == e;
      SliceIs(a, views, plan, k);
    } else {
      assert Plan(views, rem, n + 1) == Plan(views, rem, n);
    }
  }

  /** One call emits, for each sequence, its tokens from its old KV position to its new one. */
  lemma {:induction false} EmissionIs(a: Inputs, views: seq<View>, rem: seq<nat>, i: nat, n: nat)
    requires i < |views| == |rem| && n <= |views| && AllSchedulable(views, rem)
      && Built(a, views, Plan(views, rem, |views|))
    ensures |Plan(views, rem, n)| <= |Plan(views, rem, |views|)|
    ensures Emission(a, Plan(views, rem, |views|), i, |Plan(views, rem, n)|) == if n <= i then []
      else Chunk(views[i], rem[i])
  {
    hide *;
    if n == 0 {
      EmissionNone(a, views, rem, i);
    } else {
      EmissionIs(a, views, rem, i, n - 1);
      OneSchedulable(views, rem, n - 1);
      EmissionNext(a, views, rem, i, n - 1);
    }
  }
}
