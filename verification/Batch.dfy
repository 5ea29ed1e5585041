/** The batch (src/engine/batch.cpp): preparing the model input and processing the sampled tokens. */
module Batching {
  import opened Collections
  import opened BatchVectors
  import opened BatchSchedule
  import opened BatchRuns

  class Sequence {
    var tokens: seq<int>
    const prompt: nat
    var engine: Engine
    var kvLlm: nat
    var kvSsm: nat
    const blocks: seq<int>
    const bs: nat

    constructor (tokens: seq<int>, blocks: seq<int>, bs: nat)
      ensures See() == View(tokens, |tokens|, 0, blocks, bs, LLM, 0)
    {
      this.tokens, prompt, engine, kvLlm, kvSsm := tokens, |tokens|, LLM, 0, 0;
      this.blocks, this.bs := blocks, bs;
    }

    function See(): View
      reads this
    {
      View(tokens, prompt, NumKvCacheTokens(), blocks, bs, engine, if engine.LLM? then kvSsm else kvLlm)
    }

    function NumKvCacheTokens(): nat
      reads this
    {
      if engine.LLM? then kvLlm else kvSsm
    }

    method CommitKvCache(size: nat)
      modifies this`kvLlm, this`kvSsm
      ensures See() == old(See()).(kv := old(See()).kv + size)
    {
      if engine.LLM? {
        kvLlm := kvLlm + size;
      } else {
        kvSsm := kvSsm + size;
      }
    }

    method AppendToken(token: int)
      requires !Prefill(See())
      modifies this`tokens
      ensures See() == old(See()).(tokens := old(tokens) + [token])
    {
      tokens := tokens + [token];
    }
  }

  /** The KV position has moved by what was charged, and nothing else has changed. */
  ghost predicate Moved(v: View, v': View, used: nat, used': nat) {
    v' == v.(kv := v'.kv) && v'.kv + used == v.kv + used'
  }

  /** The engine's answer: one token for each sample index. */
  method SampleRows(b: Inputs, next: int -> int) returns (rows: seq<int>)
    requires forall y :: 0 <= y < |b.sampled| ==> 0 <= b.sampled[y] < |b.selected|
    ensures |rows| == |b.sampled| && forall y :: 0 <= y < |rows| ==> rows[y] == next(b.selected[b.sampled[y]])
  {
    rows := [];
    for y := 0 to |b.sampled|
      invariant |rows| == y && forall z :: 0 <= z < y ==> rows[z] == next(b.selected[b.sampled[z]])
    {
      rows := rows + [next(b.selected[b.sampled[y]])];
    }
  }

  method Respond(r: ModelInput, next: int -> int, ghost a: Inputs, ghost n: nat, ghost decoding: nat,
                 ghost minBatch: nat)
    returns (output: Option<seq<int>>)
    requires r.Input? ==> Finished(a, r.vectors, n, decoding, minBatch)
    requires forall y :: 0 <= y < |a.sampled| ==> 0 <= a.sampled[y] < |a.selected|
    ensures Responds(a, r, output, next)
  {
    output := None;
    if r.Input? {
      FinishedSamples(a, r.vectors, n, decoding, minBatch);
      if r.vectors.selected != [] {
        var rows := SampleRows(r.vectors, next);
        output := Some(rows);
      }
    }
  }

  method AnswerOne(i: nat, s: Sequence, next: nat, rows: seq<int>, ghost views: seq<View>)
    returns (passed: bool, next': nat)
    requires i < |views| && (Prefill(s.See()) <==> Prefill(views[i])) && next == |Ready(views, i)| <= |rows|
    modifies s`tokens
    ensures passed ==> next' == |Ready(views, i + 1)| <= |rows|
    ensures s.See() == AnswerTo(old(s.See()), rows, |Ready(views, i)|)
    ensures !passed ==> |Ready(views, i + 1)| > |rows|
  {
    passed, next' := true, next;
    if s.NumKvCacheTokens() >= s.prompt {
      if next >= |rows| {
        return false, next;
      }
      s.AppendToken(rows[next]);
      next' := next + 1;
    }
  }

  class Batch {
    var sequences: seq<Sequence>
    var budgets: seq<nat>
    var used: seq<nat>

    constructor ()
      ensures Valid() && sequences == []
    {
      sequences, budgets, used := [], [], [];
    }

    /** No budget is ever exceeded. */
    ghost predicate Valid()
      reads this
    {
      && |sequences| == |budgets| == |used|
      && (forall i :: 0 <= i < |used| ==> used[i] <= budgets[i])
    }

    ghost function Views(): (vs: seq<View>)
      reads this, sequences
      ensures |vs| == |sequences|
    {
      seq(|sequences|, i requires 0 <= i < |sequences| reads this, sequences => sequences[i].See())
    }

    ghost function Seen(): map<Sequence, View>
      reads this, sequences
    {
      map s | s in sequences :: s.See()
    }

    ghost function Remaining(): (rem: seq<nat>)
      requires Valid()
      reads this
      ensures |rem| == |sequences|
    {
      Left(budgets, used)
    }

    ghost function State(): BatchState
      reads this, sequences
    {
      BatchState(Views(), used)
    }

    method Add(s: Sequence, budget: nat)
      requires Valid() && budget > 0
      modifies this
      ensures Valid() && sequences == old(sequences) + [s] && budgets == old(budgets) + [budget]
        && used == old(used) + [0]
    {
      sequences, budgets, used := sequences + [s], budgets + [budget], used + [0];
    }

    lemma RemainingIs()
      requires Valid()
      ensures Budgeted(Remaining(), used, budgets)
    {
    }

    /** The sequences once only `s` has changed. */
    twostate lemma SeenUpdate(s: Sequence)
      requires sequences == old(sequences) && s in sequences
      requires forall t :: t in sequences && t != s ==> t.See() == old(t.See())
      ensures Seen() == old(Seen())[s := s.See()]
    {
    }

    /** The state of the loop before turn `i`. */
    ghost predicate Reached(a: Inputs, seen: map<Sequence, View>, used0: seq<nat>, rem: seq<nat>, i: nat)
      reads this, sequences
    {
      forall u {:trigger UnfoldPart(9, u)} :: UnfoldPart(9, u) ==>
        && Valid() && i <= |sequences| == |rem| == |used0| && (forall s :: s in sequences ==> s in seen)
        && var views := Turns(sequences, seen, rem);
        && AllSchedulable(views, rem) && Budgeted(rem, used0, budgets)
        && BuiltTo(a, views, rem, i) && Charged(used, used0, views, rem, i)
          && Seen() == Settled(sequences, seen, rem, i)
    }

    /** The loop over the sequences. */
    method Flatten(ghost seen: map<Sequence, View>, ghost used0: seq<nat>, ghost rem: seq<nat>) returns (a: Inputs)
      requires Reached(EMPTY, seen, used0, rem, 0)
      modifies this`used, sequences
      ensures Reached(a, seen, used0, rem, |sequences|)
    {
      hide *;
      a := EMPTY;
      var n := |sequences|;
      for i := 0 to n
        invariant n == |sequences| && Reached(a, seen, used0, rem, i)
      {
        a := Round(i, a, seen, used0, rem);
      }
    }

    method Round(i: nat, a: Inputs, ghost seen: map<Sequence, View>, ghost used0: seq<nat>, ghost rem: seq<nat>)
      returns (c: Inputs)
      requires Reached(a, seen, used0, rem, i) && i < |sequences|
      modifies this`used, sequences
      ensures Reached(c, seen, used0, rem, i + 1)
    {
      hide *;
      Opened(a, seen, used0, rem, i);
      ghost var views := Turns(sequences, seen, rem);
      var left := budgets[i] - used[i];
      ghost var now, used1 := Seen(), used;
      label Before:
      c := Take(i, sequences[i], left, a, views, Plan(views, rem, i));
      SeenUpdate@Before(sequences[i]);
      Closed(c, seen, used0, rem, i, now, used1);
    }

    lemma Opened(a: Inputs, seen: map<Sequence, View>, used0: seq<nat>, rem: seq<nat>, i: nat)
      requires Reached(a, seen, used0, rem, i) && i < |sequences|
      ensures Valid() && i < |sequences| == |rem| == |used0| == |used| == |budgets| && used[i] <= budgets[i]
      ensures (forall s :: s in sequences ==> s in seen) && Budgeted(rem, used0, budgets) && sequences[i] in Seen()
      ensures Charged(used, used0, Turns(sequences, seen, rem), rem, i) && Seen() == Settled(sequences, seen, rem, i)
      ensures AllSchedulable(Turns(sequences, seen, rem), rem)
        && Built(a, Turns(sequences, seen, rem), Plan(Turns(sequences, seen, rem), rem, i))
      ensures sequences[i].See() == Seen()[sequences[i]] == Turns(sequences, seen, rem)[i]
      ensures rem[i] == budgets[i] - used[i] && Schedulable(Turns(sequences, seen, rem)[i], rem[i])
    {
      assert UnfoldPart(9, true);
      var views := Turns(sequences, seen, rem);
      hide BuiltTo, Charged, AllSchedulable, Budgeted, Built, Schedulable, Settled, Committed, Prefill;
      NextCharge(used, used0, views, rem, budgets, i, budgets[i] - used[i]);
      BuiltIs(a, views, rem, i);
      assert sequences[i] in sequences;
    }

    lemma Closed(c: Inputs, seen: map<Sequence, View>, used0: seq<nat>, rem: seq<nat>, i: nat,
                 now: map<Sequence, View>, used1: seq<nat>)
      requires Valid() && i < |sequences| == |rem| == |used0| == |used1| && (forall s :: s in sequences ==> s in seen)
      requires Budgeted(rem, used0, budgets) && AllSchedulable(Turns(sequences, seen, rem), rem)
      requires Charged(used1, used0, Turns(sequences, seen, rem), rem, i) && now == Settled(sequences, seen, rem, i)
      requires sequences[i] in now && now[sequences[i]] == Turns(sequences, seen, rem)[i]
        && Seen() == now[sequences[i] := sequences[i].See()]
      requires sequences[i].See() == Committed(Turns(sequences, seen, rem)[i], rem[i])
      requires forall j :: 0 <= j < |used| && j != i ==> used[j] == used1[j]
      requires used[i] + Turns(sequences, seen, rem)[i].kv == used1[i] + sequences[i].See().kv
      requires var views := Turns(sequences, seen, rem);
        Built(c, views, Plan(views, rem, i) + PlanOf(views[i], rem[i], i))
      ensures Reached(c, seen, used0, rem, i + 1)
    {
      hide BuiltTo, Charged, AllSchedulable, Budgeted, Built, Schedulable, Settled, Committed, Prefill, Plan, PlanOf,
        Turns;
      var views := Turns(sequences, seen, rem);
      SettledNext(sequences, seen, rem, i, now, Seen());
      ChargedStep(used1, used, used0, views, rem, i);
      BuiltNext(c, views, rem, i);
    }

    /** One round of the loop: a sequence with no budget left is skipped. */
    method Take(i: nat, s: Sequence, left: nat, a: Inputs, ghost views: seq<View>, ghost entries: seq<Entry>)
      returns (c: Inputs)
      requires Valid() && i < |sequences| && s == sequences[i] && Built(a, views, entries) && i < |views|
        && views[i] == s.See()
      requires left == budgets[i] - used[i] && Schedulable(views[i], left)
      modifies this`used, s`kvLlm, s`kvSsm
      ensures Valid() && forall j :: 0 <= j < |used| && j != i ==> used[j] == old(used[j])
      ensures Built(c, views, entries + PlanOf(views[i], left, i))
      ensures s.See() == Committed(views[i], left) && used[i] + views[i].kv == old(used[i]) + s.See().kv
      ensures TakesMost(views[i], left, old(used[i]), used[i]) && s.See() == views[i].(kv := s.See().kv)
    {
      if left == 0 {
        assert entries + [] == entries;
        return a;
      }
      var hi := Reach(s.See(), left);
      var size := hi - s.NumKvCacheTokens();
      used := used[i := used[i] + size];
      assert PlanOf(views[i], left, i) == [Entry(i, s.NumKvCacheTokens(), hi)];
      c := Extend(i, s.See(), hi, a, views, entries);
      s.CommitKvCache(size);
    }

    /** Flattens the batch.  `a` holds the vectors before any padding.  Each turn is checked and scheduled
        with its sequence as earlier turns have left it. */
    method PrepareModelInput(decoding: nat, minBatch: nat) returns (r: ModelInput, ghost a: Inputs)
      requires Valid() && AllSchedulable(Turns(sequences, Seen(), Remaining()), Remaining())
      modifies this`used, sequences
      ensures Valid()
      ensures var views, rem := old(Turns(sequences, Seen(), Remaining())), old(Remaining());
        && BuiltTo(a, views, rem, |sequences|) && Charged(used, old(used), views, rem, |sequences|)
        && (forall i :: 0 <= i < |sequences| ==> TakesMost(views[i], rem[i], old(used)[i], used[i]))
      ensures NoDup(sequences) ==> forall i :: 0 <= i < |sequences| ==>
        Moved(old(Views())[i], sequences[i].See(), old(used)[i], used[i])
      ensures Seen() == Settled(sequences, old(Seen()), old(Remaining()), |sequences|)
      ensures r.NoInput? <==> a.tokens == []
      ensures r.Input? ==> r.numSequences == |sequences| && Finished(a, r.vectors, |sequences|, decoding, minBatch)
    {
      hide *;
      ghost var seen, rem, used0 := Seen(), Remaining(), used;
      BatchFacts();
      Starting(seen, used0, rem);
      var flat := Flatten(seen, used0, rem);
      a := flat;
      Flattened(a, seen, used0, rem);
      if flat.tokens == [] {
        return NoInput, a;
      }
      ghost var now := Seen();
      var vectors := Finish(flat, |sequences|, decoding, minBatch);
      assert Seen() == now;
      r := Input(|sequences|, vectors);
    }

    lemma Starting(seen: map<Sequence, View>, used0: seq<nat>, rem: seq<nat>)
      requires Valid() && seen == Seen() && used0 == used && rem == Remaining()
      requires AllSchedulable(Turns(sequences, seen, rem), rem)
      ensures Reached(EMPTY, seen, used0, rem, 0)
    {
      hide AllSchedulable, Built, BuiltTo, Charged, Budgeted;
      var views := Turns(sequences, seen, rem);
      RemainingIs();
      NoneCharged(used0, views, rem);
      BuiltNone(views, rem);
    }

    lemma Flattened(a: Inputs, seen: map<Sequence, View>, used0: seq<nat>, rem: seq<nat>)
      requires Reached(a, seen, used0, rem, |sequences|)
      ensures Valid() && |sequences| == |rem| == |used0| == |used| && (forall s :: s in sequences ==> s in seen)
      ensures var views := Turns(sequences, seen, rem);
        && BuiltTo(a, views, rem, |sequences|) && Charged(used, used0, views, rem, |sequences|)
        && (forall i :: 0 <= i < |sequences| ==> TakesMost(views[i], rem[i], used0[i], used[i]))
      ensures NoDup(sequences) ==> forall i :: 0 <= i < |sequences| ==>
        sequences[i] in seen && Moved(seen[sequences[i]], sequences[i].See(), used0[i], used[i])
      ensures Seen() == Settled(sequences, seen, rem, |sequences|)
      ensures |a.cuSeqLens| > 0 && |a.qCuSeqLens| > 0 && |a.cuBlockLens| > 0
    {
      assert UnfoldPart(9, true);
      hide AllSchedulable, Built, BuiltTo, Charged, Budgeted, TakesMost, Moved, Settled;
      var views := Turns(sequences, seen, rem);
      forall i | 0 <= i < |sequences|
        ensures TakesMost(views[i], rem[i], used0[i], used[i])
      {
        ChargedMost(used, used0, views, rem, i);
      }
      if NoDup(sequences) {
        DistinctKv(seen, rem, used0, views);
      }
      BuiltIs(a, views, rem, |sequences|);
      BuiltSizes(a, views, Plan(views, rem, |sequences|));
    }

    /** In a batch of different sequences each one's KV position moves by what its turn was charged. */
    lemma DistinctKv(seen: map<Sequence, View>, rem: seq<nat>, used0: seq<nat>, views: seq<View>)
      requires Valid() && NoDup(sequences) && |sequences| == |rem| == |used0|
      requires forall s :: s in sequences ==> s in seen
      requires views == Turns(sequences, seen, rem) && Charged(used, used0, views, rem, |sequences|)
      requires AllSchedulable(views, rem) && Seen() == Settled(sequences, seen, rem, |sequences|)
      ensures forall i :: 0 <= i < |sequences| ==>
        sequences[i] in seen && Moved(seen[sequences[i]], sequences[i].See(), used0[i], used[i])
    {
      hide AllSchedulable, Charged, Committed;
      forall i | 0 <= i < |sequences|
        ensures sequences[i] in seen && Moved(seen[sequences[i]], sequences[i].See(), used0[i], used[i])
      {
        SettledAt(sequences, seen, rem, i, i);
        SettledAt(sequences, seen, rem, |sequences|, i);
        OneSchedulable(views, rem, i);
        CommittedMost(views[i], rem[i]);
        ChargedAt(used, used0, views, rem, i);
        assert sequences[i].See() == Seen()[sequences[i]];
      }
    }

    /** Gives every sequence that is out of prefill its row, in order.  The two checks on the number of
        rows pass exactly when there is one row for each such sequence.  An undefined output is skipped. */
    method ProcessSampleOutput(output: Option<seq<int>>) returns (ok: bool)
      requires Valid()
      modifies sequences
      ensures Valid()
      ensures output.None? ==> ok && Seen() == old(Seen())
      ensures output.Some? ==> (ok <==> |output.value| == |Ready(old(Views()), |sequences|)|)
      ensures output.Some? && ok ==> Seen() == Answers(sequences, old(Seen()), old(Views()), output.value, |sequences|)
    {
      hide *;
      if output.None? {
        return true;
      }
      ghost var seen, views := Seen(), Views();
      var rows, next := output.value, 0;
      BatchFacts();
      NoAnswerYet(sequences, seen, views, rows);
      for i := 0 to |sequences|
        invariant Valid() && next == |Ready(views, i)| <= |rows| && Seen() == Answers(sequences, seen, views, rows, i)
      {
        var passed;
        passed, next := AnswerTurn(i, next, rows, seen, views);
        if !passed {
          ReadyGrows(views, i + 1, |sequences|);
          return false;
        }
      }
      ok := next == |rows|;
    }

    method AnswerTurn(i: nat, next: nat, rows: seq<int>, ghost seen: map<Sequence, View>, ghost views: seq<View>)
      returns (passed: bool, next': nat)
      requires Valid() && i < |sequences| == |views| && (forall s :: s in sequences ==> s in seen)
        && views[i] == seen[sequences[i]]
      requires next == |Ready(views, i)| <= |rows| && Seen() == Answers(sequences, seen, views, rows, i)
      modifies sequences
      ensures passed ==>
        next' == |Ready(views, i + 1)| <= |rows| && Seen() == Answers(sequences, seen, views, rows, i + 1)
      ensures !passed ==> |Ready(views, i + 1)| > |rows|
    {
      hide Answers, Ready, AnswerTo, Prefill;
      var s := sequences[i];
      assert s in sequences && s.See() == Seen()[s];
      AnswersPrefill(sequences, seen, views, rows, i, s);
      label Before:
      passed, next' := AnswerOne(i, s, next, rows, views);
      SeenUpdate@Before(s);
      AnswersNext(sequences, seen, views, rows, i, old@Before(Seen()), Seen());
    }

    lemma BatchFacts()
      requires Valid()
      ensures |sequences| == |used| == |Views()| == |Remaining()| && State() == BatchState(Views(), used)
      ensures forall s :: s in sequences ==> s in Seen()
      ensures forall i :: 0 <= i < |sequences| ==> sequences[i] in Seen() && Views()[i] == Seen()[sequences[i]]
    {
    }

    /** One engine step: prepare, run the model, hand the sampled tokens back.  `next(p)` is the token that
        the model samples at flattened position `p`.  The checks on the number of rows pass exactly when
        no row was sampled or the turns agree; in a batch of different sequences they always do. */
    method Step(decoding: nat, minBatch: nat, next: int -> int) returns (ok: bool, r: ModelInput, ghost a: Inputs)
      requires Valid() && AllSchedulable(Turns(sequences, Seen(), Remaining()), Remaining())
      modifies this`used, sequences
      ensures Valid()
      ensures var turned := CommittedAll(old(Turns(sequences, Seen(), Remaining())), old(Remaining()));
        ok <==> Ready(turned, |sequences|) == [] || TurnsAgree(turned, old(Finals(sequences, Seen(), Remaining())))
      ensures NoDup(sequences) ==> ok && Called(a, r, old(State()), State(), old(Remaining()), decoding, minBatch, next)
    {
      hide *;
      ghost var s, rem, seen := State(), Remaining(), Seen();
      BatchFacts();
      ghost var turns := Turns(sequences, seen, rem);
      r, a := PrepareModelInput(decoding, minBatch);
      FinalViews(seen, rem);
      RoutesOf(a, CommittedAll(turns, rem), turns, rem);
      var output := Respond(r, next, a, |sequences|, decoding, minBatch);
      ok := ProcessSampleOutput(output);
      BatchFacts();
      StepChecks(sequences, seen, rem, a, r, output, next, ok);
      if NoDup(sequences) {
        DistinctAgree(sequences, seen, rem);
        DistinctCall(sequences, seen, rem, a, r, output, Seen(), s, State(), decoding, minBatch, next);
      }
    }

    lemma FinalViews(seen: map<Sequence, View>, rem: seq<nat>)
      requires |sequences| == |rem| && (forall s :: s in sequences ==> s in seen)
        && Seen() == Settled(sequences, seen, rem, |sequences|)
      ensures Views() == Finals(sequences, seen, rem)
    {
      forall i | 0 <= i < |sequences|
        ensures Views()[i] == Finals(sequences, seen, rem)[i]
      {
        assert sequences[i] in sequences;
      }
    }

    /** The checks that the program makes for every sequence before it schedules it. */
    method CanSchedule() returns (ok: bool)
      requires Valid()
      ensures ok <==> AllSchedulable(Views(), Remaining())
    {
      assert UnfoldPart(5, true);
      ok := true;
      for i := 0 to |sequences|
        invariant ok <==> forall j :: 0 <= j < i ==> Schedulable(Views()[j], Remaining()[j])
      {
        var v, left := sequences[i].See(), budgets[i] - used[i];
        var fits := if left == 0 then Prefill(v)
          else v.bs > 0 && v.kv < |v.tokens| && Reach(v, left) <= |v.blocks| * v.bs;
        assert Views()[i] == v && Remaining()[i] == left;
        assert fits <==> Schedulable(Views()[i], Remaining()[i]);
        ok := ok && fits;
      }
    }

    /** Switches every sequence to the engine and gives all budgets back. */
    method SetEngineType(engine: Engine)
      requires Valid()
      modifies this`used, sequences
      ensures Valid() && AllSwitched(old(Views()), Views(), engine) && forall i :: 0 <= i < |used| ==> used[i] == 0
      ensures forall s :: s in sequences ==>
        s.engine == engine && s.kvLlm == old(s.kvLlm) && s.kvSsm == old(s.kvSsm) && s.tokens == old(s.tokens)
    {
      for i := 0 to |sequences|
        invariant used == old(used)
        invariant forall j :: 0 <= j < i ==> sequences[j].engine == engine
        invariant forall s :: s in sequences ==>
          s.kvLlm == old(s.kvLlm) && s.kvSsm == old(s.kvSsm) && s.tokens == old(s.tokens)
        invariant forall j :: 0 <= j < i ==> sequences[j].See() == Switched(old(sequences[j].See()), engine)
        invariant forall s :: s in sequences ==> s.See() == old(s.See()) || s.See() == Switched(old(s.See()), engine)
      {
        sequences[i].engine := engine;
      }
      used := seq(|used|, i => 0);
    }

    lemma TurnsAreViews()
      requires Valid() && NoDup(sequences)
      ensures Turns(sequences, Seen(), Remaining()) == Views()
    {
      forall i | 0 <= i < |sequences|
        ensures Turns(sequences, Seen(), Remaining())[i] == Views()[i]
      {
        SettledAt(sequences, Seen(), Remaining(), i, i);
      }
    }

    lemma Single(s: Sequence, v: View)
      requires Valid() && sequences == [s] && budgets == [1] && used == [0] && s.See() == v
      ensures Seen() == map[s := v] && Remaining() == [1]
    {
    }

    /** One event of a run.  An engine step is taken only if its checks pass. */
    method Do(e: Event) returns (input: Option<ModelInput>)
      requires Valid() && NoDup(sequences)
      modifies this`used, sequences
      ensures Valid() && BatchStep(e, old(State()), State(), input, budgets)
    {
      hide AllSchedulable, Called, AllSwitched, Turns, Finals, TurnsAgree, CommittedAll, Ready;
      input := None;
      match e
      case SetEngine(engine) =>
        SetEngineType(engine);
      case EngineStep(decoding, minBatch, next) =>
        var can := CanSchedule();
        if can {
          ghost var s, rem := State(), Remaining();
          TurnsAreViews();
          var ok, r;
          ghost var a;
          ok, r, a := Step(decoding, minBatch, next);
          input := Some(r);
          assert Called(a, input.value, s, State(), rem, decoding, minBatch, next);
        }
    }

    /** Any run of engine steps and switches on a batch of different sequences, with its model inputs.
        For each engine and each sequence the inputs hold exactly the tokens from the engine's first KV
        position to its last one, each once and in increasing order; and what they hold since the last
        switch is the used budget, which is never exceeded. */
    method Run(events: seq<Event>) returns (inputs: seq<Option<ModelInput>>, ghost trace: seq<BatchState>)
      requires Valid() && NoDup(sequences) && forall i :: 0 <= i < |Views()| ==> InBounds(Views()[i])
      modifies this`used, sequences
      ensures Valid() && IsBatchRun(events, inputs, trace, budgets)
      ensures trace[0] == old(State()) && trace[|events|] == State()
      ensures forall engine, i :: 0 <= i < |sequences| ==> Covers(events, inputs, trace, budgets, engine, i)
      ensures forall k, i :: 0 <= k < |events| && 0 <= i < |sequences| ==> SchedulesMost(inputs, trace, budgets, k, i)
      ensures forall i :: 0 <= i < |sequences| ==>
        Spent(events, inputs, trace, budgets, i, |events|) == used[i] <= budgets[i]
    {
      hide BatchStep, IsBatchRun, Covers, Spent, InBounds, SchedulesMost;
      inputs, trace := [], [State()];
      RunOfNothing(State(), budgets);
      for k := 0 to |events|
        invariant Valid() && |inputs| == k && |trace| == k + 1 && IsBatchRun(events[..k], inputs, trace, budgets)
        invariant trace[0] == old(State()) && trace[k] == State()
      {
        var input := Do(events[k]);
        RunNext(events[..k], inputs, trace, budgets, events[k], input, State());
        assert events[..k + 1] == events[..k] + [events[k]];
        inputs, trace := inputs + [input], trace + [State()];
      }
      assert events[..|events|] == events;
      forall engine, i | 0 <= i < |sequences|
        ensures Covers(events, inputs, trace, budgets, engine, i)
      {
        RunCovered(events, inputs, trace, budgets, engine, i);
      }
      forall k, i | 0 <= k < |events| && 0 <= i < |sequences|
        ensures SchedulesMost(inputs, trace, budgets, k, i)
      {
        RunSchedulesMost(events, inputs, trace, budgets, k, i);
      }
      forall i | 0 <= i < |sequences|
        ensures Spent(events, inputs, trace, budgets, i, |events|) == used[i]
      {
        RunCharges(events, inputs, trace, budgets, i, |events|);
      }
    }
  }

  // ---------------------------------------------------------------- two inputs that fail

  /** The same sequence twice, with a prompt of two tokens and a budget of one token each: every check
      before scheduling passes, the first turn leaves the sequence in prefill and the second takes it
      out, so one row is sampled where two are asked for. */
  lemma DuplicateFails<S>(s: S, v: View, seqs: seq<S>, seen: map<S, View>, rem: seq<nat>)
    requires seqs == [s, s] && seen == map[s := v] && rem == [1, 1] && v == View([5, 6], 2, 0, [1], 2, LLM, 0)
    ensures AllSchedulable(Turns(seqs, seen, rem), rem)
    ensures var turned := CommittedAll(Turns(seqs, seen, rem), rem);
      Ready(turned, 2) != [] && !TurnsAgree(turned, Finals(seqs, seen, rem))
  {
    var views, finals := Turns(seqs, seen, rem), Finals(seqs, seen, rem);
    var v1 := v.(kv := 1);
    assert Settled(seqs, seen, rem, 1) == map[s := v1];
    assert views[0] == v && views[1] == v1;
    assert Settled(seqs, seen, rem, 2) == map[s := v.(kv := 2)];
    assert Prefill(CommittedAll(views, rem)[0]) && !Prefill(finals[0]);
  }

  /** One token of two is scheduled: the row of its position counts the other one as well. */
  lemma PartialRow(a: Inputs, v: View)
    requires v == View([7, 8], 1, 0, [1], 2, SSM, 1) && BuiltTo(a, [v], [1], 1)
    ensures |a.selected| == |a.rowIds| == |a.rowCounts| == 1 && |a.tokens| > a.selected[0] >= 0
      && a.tokens[a.selected[0]] == 7
    ensures !Histogram(a.rowIds[0], a.rowCounts[0], multiset([7]))
  {
    var views, e := [v], Entry(0, 0, 1);
    BuiltIs(a, views, [1], 1);
    hide Built, BuiltTo, Histogram;
    assert Plan(views, [1], 0) == [] && Plan(views, [1], 1) == [] + PlanOf(v, 1, 0) == [e];
    assert [e][..0] == [];
    assert Picks(views, [e]) == [] + PicksOf(views, e, 0) == [Choice(0, 0)];
    PicksCount(a, views, [e]);
    SelectedRow(a, views, [e], 0);
    assert v.tokens[..1] == [7];
  }

  /** A sequence with a generated token on an engine that has none of its KV and a budget of one token:
      the row of the prompt token is not the histogram of the tokens up to it. */
  method PartialRowFails() returns (r: ModelInput, ghost v: View, ghost a: Inputs)
    ensures v == View([7, 8], 1, 0, [1], 2, SSM, 1) && BuiltTo(a, [v], [1], 1)
    ensures r.Input? && Finished(a, r.vectors, 1, 0, 0) && |a.selected| == |a.rowIds| == |a.rowCounts| == 1
    ensures 0 <= a.selected[0] < |a.tokens| && a.tokens[a.selected[0]] == v.tokens[0]
    ensures !Histogram(a.rowIds[0], a.rowCounts[0], multiset(v.tokens[..1]))
  {
    hide BuiltTo, Finished, Histogram, Charged, AllSchedulable, Turns, Settled, Left;
    v := View([7, 8], 1, 0, [1], 2, SSM, 1);
    var batch, s := OneGenerated(v);
    batch.Single(s, v);
    OneTurn(s, v);
    ghost var turns, rem := Turns(batch.sequences, batch.Seen(), batch.Remaining()), batch.Remaining();
    assert turns == [v] && rem == [1] && |batch.sequences| == 1;
    r, a := batch.PrepareModelInput(0, 0);
    PartialRow(a, v);
    assert v.tokens[..1] == [7];
  }

  method OneGenerated(ghost v: View) returns (batch: Batch, s: Sequence)
    requires v == View([7, 8], 1, 0, [1], 2, SSM, 1)
    ensures fresh(batch) && fresh(s) && batch.Valid() && batch.sequences == [s] && batch.budgets == [1]
      && batch.used == [0] && s.See() == v
  {
    s := new Sequence([7], [1], 2);
    batch := new Batch();
    batch.Add(s, 1);
    s.CommitKvCache(1);
    s.AppendToken(8);
    batch.SetEngineType(SSM);
    assert batch.Views()[0] == v;
  }

  lemma OneTurn<S>(s: S, v: View)
    requires Schedulable(v, 1)
    ensures Turns([s], map[s := v], [1]) == [v] && AllSchedulable([v], [1])
  {
  }
}
