/** Runs of a batch over many engine steps and engine switches (src/engine/batch.cpp): what the model
    inputs of a run emit for each sequence and each engine, and what it costs of the budgets. */
module BatchRuns {
  import opened Collections
  import opened BatchVectors
  import opened BatchSchedule

  /** What the engine receives: nothing when no token is scheduled. */
  datatype ModelInput = NoInput | Input(numSequences: nat, vectors: Inputs)

  /** An engine step, where `next(p)` is the token that the model samples at flattened position `p`, or a
      switch of the batch to an engine. */
  datatype Event = EngineStep(decoding: nat, minBatch: nat, next: int -> int) | SetEngine(engine: Engine)

  datatype BatchState = BatchState(views: seq<View>, used: seq<nat>)

  ghost function Left(budgets: seq<nat>, used: seq<nat>): (rem: seq<nat>)
    requires |budgets| == |used|
    ensures |rem| == |used|
  {
    seq(|used|, i requires 0 <= i < |used| => if used[i] <= budgets[i] then budgets[i] - used[i] else 0)
  }

  ghost function Switched(v: View, engine: Engine): View {
    if v.engine == engine then v else v.(engine := engine, kv := v.other, other := v.kv)
  }

  ghost function KvAt(v: View, engine: Engine): nat {
    if v.engine == engine then v.kv else v.other
  }

  // ---------------------------------------------------------------- one event

  /** A call that schedules `rem` from `s` produces `r`; `a` are its vectors before any padding. */
  ghost predicate Called(a: Inputs, r: ModelInput, s: BatchState, s': BatchState, rem: seq<nat>, decoding: nat,
                         minBatch: nat, next: int -> int) {
    && |s.views| == |rem| && BuiltTo(a, s.views, rem, |s.views|)
    && (r.NoInput? <==> a.tokens == [])
    && (r.Input? ==> r.numSequences == |s.views| && Finished(a, r.vectors, |s.views|, decoding, minBatch))
    && StepLaw(s'.views, s.views, rem, a, next) && Charged(s'.used, s.used, s.views, rem, |s.views|)
  }

  ghost predicate AllSwitched(views: seq<View>, views': seq<View>, engine: Engine) {
    |views'| == |views| && forall i :: 0 <= i < |views| ==> views'[i] == Switched(views[i], engine)
  }

  ghost predicate BatchStep(e: Event, s: BatchState, s': BatchState, input: Option<ModelInput>, budgets: seq<nat>) {
    && |s.views| == |s.used| == |budgets| == |s'.views| == |s'.used|
    && match e
       case SetEngine(engine) =>
         input.None? && AllSwitched(s.views, s'.views, engine) && forall i :: 0 <= i < |budgets| ==> s'.used[i] == 0
       case EngineStep(decoding, minBatch, next) =>
         var rem := Left(budgets, s.used);
         if AllSchedulable(s.views, rem)
         then input.Some? && exists a :: Called(a, input.value, s, s', rem, decoding, minBatch, next)
         else input.None? && s' == s
  }

  /** The engine's output for `r`, whose vectors before padding are `a`: undefined when no token is
      selected, else one sampled token for each sample index. */
  ghost predicate Responds(a: Inputs, r: ModelInput, output: Option<seq<int>>, next: int -> int) {
    && (output.Some? <==> r.Input? && a.selected != [])
    && (output.Some? ==> |output.value| == |a.sampled| && forall y :: 0 <= y < |a.sampled| ==>
          0 <= a.sampled[y] < |a.selected| && output.value[y] == next(a.selected[a.sampled[y]]))
  }

  /** Whether the checks on the number of rows pass. */
  lemma StepChecks<S>(seqs: seq<S>, seen: map<S, View>, rem: seq<nat>, a: Inputs, r: ModelInput,
                      output: Option<seq<int>>, next: int -> int, ok: bool)
    requires |seqs| == |rem| && (forall s :: s in seqs ==> s in seen) && AllSchedulable(Turns(seqs, seen, rem), rem)
    requires BuiltTo(a, Turns(seqs, seen, rem), rem, |seqs|) && (r.NoInput? <==> a.tokens == [])
      && Responds(a, r, output, next)
    requires ok <==> output.None? || |output.value| == |Ready(Finals(seqs, seen, rem), |seqs|)|
    ensures var turned := CommittedAll(Turns(seqs, seen, rem), rem);
      ok <==> Ready(turned, |seqs|) == [] || TurnsAgree(turned, Finals(seqs, seen, rem))
  {
    hide AllSchedulable, BuiltTo, Turns, Finals, TurnsAgree, Settled, CommittedAll;
    var turned := CommittedAll(Turns(seqs, seen, rem), rem);
    RoutesOf(a, turned, Turns(seqs, seen, rem), rem);
    ChecksPass(seqs, seen, rem);
  }

  /** In a batch of different sequences each one is given its own row. */
  lemma DistinctCall<S>(seqs: seq<S>, seen: map<S, View>, rem: seq<nat>, a: Inputs, r: ModelInput,
                        output: Option<seq<int>>,
                        seen': map<S, View>, s: BatchState, s': BatchState, decoding: nat, minBatch: nat,
                        next: int -> int)
    requires |seqs| == |rem| == |s.views| == |s'.views| && NoDup(seqs) && forall x :: x in seqs ==>
      x in seen && x in seen'
    requires forall i :: 0 <= i < |seqs| ==>
      seqs[i] in seqs && s.views[i] == seen[seqs[i]] && s'.views[i] == seen'[seqs[i]]
    requires AllSchedulable(Turns(seqs, seen, rem), rem) && Responds(a, r, output, next)
    requires BuiltTo(a, Turns(seqs, seen, rem), rem, |seqs|)
      && Charged(s'.used, s.used, Turns(seqs, seen, rem), rem, |seqs|)
    requires r.NoInput? <==> a.tokens == []
    requires r.Input? ==> r.numSequences == |seqs| && Finished(a, r.vectors, |seqs|, decoding, minBatch)
    requires var after, finals := Settled(seqs, seen, rem, |seqs|), Finals(seqs, seen, rem);
      if output.None? then seen' == after else seen' == Answers(seqs, after, finals, output.value, |seqs|)
    requires output.Some? ==> |output.value| == |Ready(Finals(seqs, seen, rem), |seqs|)|
    ensures Called(a, r, s, s', rem, decoding, minBatch, next)
  {
    hide AllSchedulable, BuiltTo, StepLaw, AllAnswered, Ready, CommittedAll, Answers, Charged, Finished, Settled;
    var after, finals := Settled(seqs, seen, rem, |seqs|), Finals(seqs, seen, rem);
    var views, now := s.views, s'.views;
    DistinctTurns(seqs, seen, rem, views, finals);
    RoutesOf(a, finals, views, rem);
    if output.Some? {
      DistinctAnswers(seqs, after, finals, output.value, now);
      StepFacts(a, now, finals, views, rem, output.value, next);
    } else {
      assert now == finals;
      NoAnswers(finals);
      StepFacts(a, now, finals, views, rem, [], next);
    }
  }

  /** What a model input emits for sequence `i`, read off its slices. */
  ghost function EmittedIn(input: Option<ModelInput>, views: seq<View>, rem: seq<nat>, i: nat): seq<(int, int)>
    requires |views| == |rem|
  {
    if input.Some? && input.value.Input? then
      var plan := Plan(views, rem, |views|);
      Emission(input.value.vectors, plan, i, |plan|)
    else []
  }

  lemma SliceSame(a: Inputs, b: Inputs, k: nat)
    requires a.tokens <= b.tokens && a.positions <= b.positions && a.qCuSeqLens <= b.qCuSeqLens
      && k + 1 < |a.qCuSeqLens|
    requires 0 <= a.qCuSeqLens[k] <= a.qCuSeqLens[k + 1] <= |a.tokens| == |a.positions|
    ensures SliceOf(b, k) == SliceOf(a, k)
  {
    var from, to := a.qCuSeqLens[k], a.qCuSeqLens[k + 1];
    assert b.tokens[from..to] == a.tokens[from..to] && b.positions[from..to] == a.positions[from..to];
  }

  lemma FinishedExtends(a: Inputs, b: Inputs, n: nat, decoding: nat, minBatch: nat)
    requires Finished(a, b, n, decoding, minBatch)
    ensures a.tokens <= b.tokens && a.positions <= b.positions && a.qCuSeqLens <= b.qCuSeqLens
  {
    hide Rectangular;
    if PadFires(a, n, decoding, minBatch) {
      var extra := minBatch - n;
      assert Steps(a.qCuSeqLens, b.qCuSeqLens, extra, decoding);
    }
  }

  lemma FinishedSamples(a: Inputs, b: Inputs, n: nat, decoding: nat, minBatch: nat)
    requires Finished(a, b, n, decoding, minBatch)
    ensures b.sampled == a.sampled && b.selected == a.selected
  {
    hide Rectangular;
  }

  /** Padding changes no slice of a sequence. */
  lemma {:induction false} EmissionSame(a: Inputs, b: Inputs, views: seq<View>, entries: seq<Entry>, i: nat, n: nat)
    requires Built(a, views, entries) && n <= |entries|
    requires a.tokens <= b.tokens && a.positions <= b.positions && a.qCuSeqLens <= b.qCuSeqLens
    ensures Emission(b, entries, i, n) == Emission(a, entries, i, n)
  {
    if n > 0 {
      EmissionSame(a, b, views, entries, i, n - 1);
      SliceBounds(a, views, entries, n - 1);
      SliceSame(a, b, n - 1);
    }
  }

  lemma SliceBounds(a: Inputs, views: seq<View>, entries: seq<Entry>, k: nat)
    requires Built(a, views, entries) && k < |entries|
    ensures k + 1 < |a.qCuSeqLens| && 0 <= a.qCuSeqLens[k] <= a.qCuSeqLens[k + 1] <= |a.tokens| == |a.positions|
  {
    assert BuiltInv(a, views, entries) by { assert UnfoldPart(2, true); }
    assert EntryOk(a, views, entries[k], k);
  }

  lemma {:induction false} EmissionEmpty(a: Inputs, entries: seq<Entry>, i: nat, n: nat)
    requires a.tokens == [] && n <= |entries|
    ensures Emission(a, entries, i, n) == []
  {
    if n > 0 {
      EmissionEmpty(a, entries, i, n - 1);
    }
  }

  /** A call emits, for each sequence, its tokens from its old KV position to its new one. */
  lemma CallEmits(a: Inputs, r: ModelInput, s: BatchState, s': BatchState, rem: seq<nat>, decoding: nat, minBatch: nat,
                  next: int -> int, i: nat)
    requires Called(a, r, s, s', rem, decoding, minBatch, next) && AllSchedulable(s.views, rem) && i < |s.views|
    ensures EmittedIn(Some(r), s.views, rem, i) == Chunk(s.views[i], rem[i])
  {
    BuiltIs(a, s.views, rem, |s.views|);
    hide Built, AllSchedulable, StepLaw, Charged, Finished, Chunk, Emission, Plan;
    var plan := Plan(s.views, rem, |s.views|);
    EmissionIs(a, s.views, rem, i, |s.views|);
    if r.Input? {
      FinishedExtends(a, r.vectors, |s.views|, decoding, minBatch);
      EmissionSame(a, r.vectors, s.views, plan, i, |plan|);
    } else {
      EmissionEmpty(a, plan, i, |plan|);
    }
  }

  /** A step moves a sequence's KV position as scheduled and appends at most one token. */
  lemma StepOn(now: seq<View>, views: seq<View>, rem: seq<nat>, a: Inputs, next: int -> int, i: nat)
    requires StepLaw(now, views, rem, a, next) && i < |views|
    ensures now[i] == Committed(views[i], rem[i]).(tokens := now[i].tokens) && views[i].tokens <= now[i].tokens
  {
    var after := CommittedAll(views, rem);
    if !Prefill(after[i]) {
      var y := ReadyHas(after, |views|, i);
      var plan := Plan(views, rem, |views|);
      assert SequenceOf(plan, Samples(views, plan)[y]) == i;
      assert Given(now, views, rem, plan, a, Samples(views, plan)[y], next);
    }
  }

  lemma PairsJoin(tokens: seq<int>, tokens': seq<int>, lo: nat, mid: nat, hi: nat)
    requires lo <= mid <= hi <= |tokens| && tokens <= tokens'
    ensures Pairs(tokens, lo, mid) + Pairs(tokens, mid, hi) == Pairs(tokens', lo, hi)
  {
  }

  ghost predicate InBounds(v: View) {
    v.kv <= |v.tokens| && v.other <= |v.tokens|
  }

  /** What one event emits for sequence `i` on engine `engine`. */
  ghost function Emits(input: Option<ModelInput>, s: BatchState, budgets: seq<nat>, engine: Engine,
                       i: nat): seq<(int, int)>
    requires i < |s.views| == |s.used| == |budgets|
  {
    if s.views[i].engine == engine then EmittedIn(input, s.views, Left(budgets, s.used), i) else []
  }

  /** One event moves each engine's KV position over exactly what the event emits for that engine. */
  lemma EventEmits(e: Event, s: BatchState, s': BatchState, input: Option<ModelInput>, budgets: seq<nat>,
                   engine: Engine, i: nat)
    requires BatchStep(e, s, s', input, budgets) && i < |s.views| && InBounds(s.views[i])
    ensures InBounds(s'.views[i]) && s.views[i].tokens <= s'.views[i].tokens
    ensures KvAt(s.views[i], engine) <= KvAt(s'.views[i], engine) <= |s.views[i].tokens|
    ensures Emits(input, s, budgets, engine, i) == Pairs(s.views[i].tokens, KvAt(s.views[i], engine),
                                                         KvAt(s'.views[i], engine))
  {
    var rem := Left(budgets, s.used);
    if e.EngineStep? && AllSchedulable(s.views, rem) {
      var a :| Called(a, input.value, s, s', rem, e.decoding, e.minBatch, e.next);
      CallEmits(a, input.value, s, s', rem, e.decoding, e.minBatch, e.next, i);
      hide AllSchedulable, Called, EmittedIn;
      CallMoves(a, input.value, s, s', rem, e.decoding, e.minBatch, e.next, i);
    }
  }

  lemma CallMoves(a: Inputs, r: ModelInput, s: BatchState, s': BatchState, rem: seq<nat>, decoding: nat, minBatch: nat,
                  next: int -> int, i: nat)
    requires Called(a, r, s, s', rem, decoding, minBatch, next) && AllSchedulable(s.views, rem) && i < |s.views|
      && InBounds(s.views[i])
    ensures |s'.views| == |s.views| == |s.used| == |s'.used|
    ensures InBounds(s'.views[i]) && s.views[i].tokens <= s'.views[i].tokens
    ensures s'.views[i].engine == s.views[i].engine && s'.views[i].other == s.views[i].other
    ensures s.views[i].kv <= s'.views[i].kv <= |s.views[i].tokens|
    ensures Chunk(s.views[i], rem[i]) == Pairs(s.views[i].tokens, s.views[i].kv, s'.views[i].kv)
    ensures s'.used[i] == s.used[i] + (s'.views[i].kv - s.views[i].kv)
  {
    StepOn(s'.views, s.views, rem, a, next, i);
    OneSchedulable(s.views, rem, i);
    ChunkIs(s.views[i], rem[i]);
    ChargedAt(s'.used, s.used, s.views, rem, i);
  }

  // ---------------------------------------------------------------- runs

  /** No budget is exceeded. */
  ghost predicate Within(s: BatchState, budgets: seq<nat>) {
    |s.views| == |s.used| == |budgets| && forall i :: 0 <= i < |budgets| ==> s.used[i] <= budgets[i]
  }

  ghost predicate IsBatchRun(events: seq<Event>, inputs: seq<Option<ModelInput>>, trace: seq<BatchState>,
                             budgets: seq<nat>) {
    && |inputs| == |events| && |trace| == |events| + 1
    && (forall k :: 0 <= k < |trace| ==> Within(trace[k], budgets))
    && (forall k :: 0 <= k < |events| ==> BatchStep(events[k], trace[k], trace[k + 1], inputs[k], budgets))
  }

  /** What the first `n` events emit for sequence `i` on engine `engine`. */
  ghost function Emitted(events: seq<Event>, inputs: seq<Option<ModelInput>>, trace: seq<BatchState>, budgets: seq<nat>,
                         engine: Engine, i: nat, n: nat): seq<(int, int)>
    requires IsBatchRun(events, inputs, trace, budgets) && i < |budgets| && n <= |events|
  {
    if n == 0 then []
    else Emitted(events, inputs, trace, budgets, engine, i, n - 1) + Emits(inputs[n - 1], trace[n - 1], budgets,
        engine, i)
  }

  /** The budget that sequence `i` has used since the last switch, counted in emitted tokens. */
  ghost function Spent(events: seq<Event>, inputs: seq<Option<ModelInput>>, trace: seq<BatchState>, budgets: seq<nat>,
                       i: nat, n: nat): nat
    requires IsBatchRun(events, inputs, trace, budgets) && i < |budgets| && n <= |events|
  {
    if n == 0 then trace[0].used[i]
    else if events[n - 1].SetEngine? then 0
    else
      var s := trace[n - 1];
      Spent(events, inputs, trace, budgets, i, n - 1) + |EmittedIn(inputs[n - 1], s.views, Left(budgets, s.used), i)|
  }

  /** Over any run each engine is given exactly the tokens from its first KV position to its last one,
      each once and in increasing order. */
  lemma {:induction false} RunCovers(events: seq<Event>, inputs: seq<Option<ModelInput>>, trace: seq<BatchState>,
                                     budgets: seq<nat>,
                                     engine: Engine, i: nat, n: nat)
    requires IsBatchRun(events, inputs, trace, budgets) && i < |budgets| && n <= |events| && InBounds(trace[0].views[i])
    ensures InBounds(trace[n].views[i]) && trace[0].views[i].tokens <= trace[n].views[i].tokens
    ensures KvAt(trace[0].views[i], engine) <= KvAt(trace[n].views[i], engine)
    ensures Emitted(events, inputs, trace, budgets, engine, i, n)
         == Pairs(trace[n].views[i].tokens, KvAt(trace[0].views[i], engine), KvAt(trace[n].views[i], engine))
  {
    hide *;
    if n == 0 {
      NothingEmitted(events, inputs, trace, budgets, engine, i);
    } else {
      RunCovers(events, inputs, trace, budgets, engine, i, n - 1);
      RunStep(events, inputs, trace, budgets, engine, i, n - 1);
      var s, s' := trace[n - 1], trace[n];
      EventEmits(events[n - 1], s, s', inputs[n - 1], budgets, engine, i);
      var v, v' := s.views[i], s'.views[i];
      PairsJoin(v.tokens, v'.tokens, KvAt(trace[0].views[i], engine), KvAt(v, engine), KvAt(v', engine));
    }
  }

  lemma NothingEmitted(events: seq<Event>, inputs: seq<Option<ModelInput>>, trace: seq<BatchState>, budgets: seq<nat>,
                       engine: Engine, i: nat)
    requires IsBatchRun(events, inputs, trace, budgets) && i < |budgets| && InBounds(trace[0].views[i])
    ensures |trace[0].views| == |budgets| && KvAt(trace[0].views[i], engine) <= |trace[0].views[i].tokens|
    ensures Emitted(events, inputs, trace, budgets, engine, i, 0)
         == Pairs(trace[0].views[i].tokens, KvAt(trace[0].views[i], engine), KvAt(trace[0].views[i], engine))
  {
  }

  lemma RunStep(events: seq<Event>, inputs: seq<Option<ModelInput>>, trace: seq<BatchState>, budgets: seq<nat>,
                engine: Engine, i: nat, n: nat)
    requires IsBatchRun(events, inputs, trace, budgets) && i < |budgets| && n < |events|
    ensures |inputs| == |events| && |trace| == |events| + 1
      && BatchStep(events[n], trace[n], trace[n + 1], inputs[n], budgets)
    ensures |trace[0].views| == |trace[n].views| == |trace[n].used| == |trace[n + 1].views| == |trace[n + 1].used|
      == |budgets|
    ensures Emitted(events, inputs, trace, budgets, engine, i, n + 1)
         == Emitted(events, inputs, trace, budgets, engine, i, n) + Emits(inputs[n], trace[n], budgets, engine, i)
    ensures Spent(events, inputs, trace, budgets, i, n + 1)
         == (if events[n].SetEngine? then 0 else
               var s := trace[n];
               Spent(events, inputs, trace, budgets, i, n) + |EmittedIn(inputs[n], s.views, Left(budgets, s.used), i)|)
  {
    hide BatchStep, Emits, EmittedIn, Left;
  }

  /** The tokens emitted since the last switch are the used budget. */
  lemma {:induction false} RunCharges(events: seq<Event>, inputs: seq<Option<ModelInput>>, trace: seq<BatchState>,
                                      budgets: seq<nat>, i: nat, n: nat)
    requires IsBatchRun(events, inputs, trace, budgets) && i < |budgets| && n <= |events| && InBounds(trace[0].views[i])
    ensures Spent(events, inputs, trace, budgets, i, n) == trace[n].used[i]
  {
    hide *;
    if n == 0 {
      NothingSpent(events, inputs, trace, budgets, i);
    } else {
      RunCharges(events, inputs, trace, budgets, i, n - 1);
      RunCovers(events, inputs, trace, budgets, LLM, i, n - 1);
      RunStep(events, inputs, trace, budgets, LLM, i, n - 1);
      EventCharges(events[n - 1], trace[n - 1], trace[n], inputs[n - 1], budgets, i);
    }
  }

  lemma NothingSpent(events: seq<Event>, inputs: seq<Option<ModelInput>>, trace: seq<BatchState>, budgets: seq<nat>,
                     i: nat)
    requires IsBatchRun(events, inputs, trace, budgets) && i < |budgets|
    ensures |trace[0].used| == |budgets| && Spent(events, inputs, trace, budgets, i, 0) == trace[0].used[i]
  {
  }

  lemma EventCharges(e: Event, s: BatchState, s': BatchState, input: Option<ModelInput>, budgets: seq<nat>, i: nat)
    requires BatchStep(e, s, s', input, budgets) && i < |s.views| && InBounds(s.views[i])
    ensures s'.used[i] == if e.SetEngine? then 0 else s.used[i] + |EmittedIn(input, s.views, Left(budgets, s.used), i)|
  {
    var rem := Left(budgets, s.used);
    if e.EngineStep? && AllSchedulable(s.views, rem) {
      var a :| Called(a, input.value, s, s', rem, e.decoding, e.minBatch, e.next);
      CallEmits(a, input.value, s, s', rem, e.decoding, e.minBatch, e.next, i);
      hide AllSchedulable, Called, EmittedIn;
      CallMoves(a, input.value, s, s', rem, e.decoding, e.minBatch, e.next, i);
    }
  }

  /** The inputs of a run hold, for one sequence and engine, its tokens from the first KV position to the
      last one. */
  ghost predicate Covers(events: seq<Event>, inputs: seq<Option<ModelInput>>, trace: seq<BatchState>,
                         budgets: seq<nat>, engine: Engine, i: nat) {
    && IsBatchRun(events, inputs, trace, budgets) && i < |budgets|
    && var v0, v := trace[0].views[i], trace[|events|].views[i];
    && v0.tokens <= v.tokens && KvAt(v0, engine) <= KvAt(v, engine) <= |v.tokens|
    && var emitted := Emitted(events, inputs, trace, budgets, engine, i, |events|);
    && |emitted| == KvAt(v, engine) - KvAt(v0, engine)
    && (forall x :: 0 <= x < |emitted| ==> emitted[x] == (v.tokens[KvAt(v0, engine) + x], KvAt(v0, engine) + x))
  }

  lemma RunCovered(events: seq<Event>, inputs: seq<Option<ModelInput>>, trace: seq<BatchState>, budgets: seq<nat>,
                   engine: Engine, i: nat)
    requires IsBatchRun(events, inputs, trace, budgets) && i < |budgets| && InBounds(trace[0].views[i])
    ensures Covers(events, inputs, trace, budgets, engine, i)
  {
    RunCovers(events, inputs, trace, budgets, engine, i, |events|);
  }

  lemma RunOfNothing(s: BatchState, budgets: seq<nat>)
    requires Within(s, budgets)
    ensures IsBatchRun([], [], [s], budgets)
  {
  }

  lemma RunNext(events: seq<Event>, inputs: seq<Option<ModelInput>>, trace: seq<BatchState>, budgets: seq<nat>,
                e: Event, input: Option<ModelInput>, s: BatchState)
    requires IsBatchRun(events, inputs, trace, budgets) && BatchStep(e, trace[|events|], s, input, budgets)
    requires Within(s, budgets)
    ensures |inputs| == |events| && IsBatchRun(events + [e], inputs + [input], trace + [s], budgets)
  {
    hide BatchStep, Within;
  }

  /** An engine step of a run schedules of each sequence as many tokens as there are after its KV position
      and as its remaining budget allows. */
  ghost predicate SchedulesMost(inputs: seq<Option<ModelInput>>, trace: seq<BatchState>, budgets: seq<nat>, k: nat,
                                i: nat) {
    && k < |inputs| && k + 1 < |trace| && Within(trace[k], budgets) && Within(trace[k + 1], budgets) && i < |budgets|
    && (inputs[k].Some? ==>
          TakesMost(trace[k].views[i], budgets[i] - trace[k].used[i], trace[k].views[i].kv, trace[k + 1].views[i].kv))
  }

  lemma RunSchedulesMost(events: seq<Event>, inputs: seq<Option<ModelInput>>, trace: seq<BatchState>,
                         budgets: seq<nat>, k: nat, i: nat)
    requires IsBatchRun(events, inputs, trace, budgets) && k < |events| && i < |budgets|
    ensures SchedulesMost(inputs, trace, budgets, k, i)
  {
    assert Within(trace[k], budgets) && Within(trace[k + 1], budgets);
    assert BatchStep(events[k], trace[k], trace[k + 1], inputs[k], budgets);
    hide IsBatchRun;
    if inputs[k].Some? {
      StepSchedulesMost(events[k], trace[k], trace[k + 1], inputs[k], budgets, i);
    }
  }

  lemma StepSchedulesMost(e: Event, s: BatchState, s': BatchState, input: Option<ModelInput>, budgets: seq<nat>, i: nat)
    requires BatchStep(e, s, s', input, budgets) && Within(s, budgets) && i < |budgets| && input.Some?
    ensures TakesMost(s.views[i], budgets[i] - s.used[i], s.views[i].kv, s'.views[i].kv)
  {
    var rem := Left(budgets, s.used);
    var a :| Called(a, input.value, s, s', rem, e.decoding, e.minBatch, e.next);
    assert rem[i] == budgets[i] - s.used[i];
    hide AllSchedulable, TakesMost, Committed;
    StepOn(s'.views, s.views, rem, a, e.next, i);
    OneSchedulable(s.views, rem, i);
    CommittedMost(s.views[i], rem[i]);
  }
}
