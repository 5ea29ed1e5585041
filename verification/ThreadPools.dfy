/** Shutdown of the thread pool (src/common/threadpool.cpp) over its queue
    (src/common/concurrent_queue.h).  Each step is one action of one thread under the queue's mutex;
    a pop from an empty queue blocks and is no step.  Runnables are numbered in the order in which
    they enter the queue. */
module ThreadPools {

  datatype Item = Task(id: nat) | Sentinel

  datatype Worker = Popping | Running(id: nat) | Exited

  /** The destructor: not begun, pushing sentinel `pushed`, joining thread `joined`, returned. */
  datatype Destructor = Alive | Pushing(pushed: nat) | Joining(joined: nat) | Returned

  /** `early` is the number of runnables scheduled before destruction began. */
  datatype Pool = Pool(
    queue: seq<Item>,
    workers: seq<Worker>,
    scheduled: nat,
    ran: seq<nat>,
    destructor: Destructor,
    early: nat)

  datatype Step =
    | Schedule(isNull: bool)
    | Pop(w: nat)
    | Complete(w: nat)
    | Destroy
    | PushSentinel
    | BeginJoin
    | Join
    | Return

  ghost predicate Init(p: Pool) {
    && p.queue == [] && p.scheduled == 0 && p.ran == [] && p.destructor == Alive && p.early == 0
    && (forall i :: 0 <= i < |p.workers| ==> p.workers[i] == Popping)
  }

  predicate Enabled(p: Pool, step: Step) {
    match step
    case Schedule(_) => !p.destructor.Returned?
    case Pop(w) => w < |p.workers| && p.workers[w].Popping? && p.queue != []
    case Complete(w) => w < |p.workers| && p.workers[w].Running?
    case Destroy => p.destructor.Alive?
    case PushSentinel => p.destructor.Pushing? && p.destructor.pushed < |p.workers|
    case BeginJoin => p.destructor.Pushing? && p.destructor.pushed >= |p.workers|
    case Join => p.destructor.Joining? && p.destructor.joined < |p.workers| && p.workers[p.destructor.joined].Exited?
    case Return => p.destructor.Joining? && p.destructor.joined >= |p.workers|
  }

  function Apply(p: Pool, step: Step): Pool
    requires Enabled(p, step)
  {
    match step
    case Schedule(isNull) =>
      if isNull then p else p.(queue := p.queue + [Task(p.scheduled)], scheduled := p.scheduled + 1)
    case Pop(w) =>
      p.(queue := p.queue[1..],
         workers := p.workers[w := if p.queue[0].Sentinel? then Exited else Running(p.queue[0].id)])
    case Complete(w) => p.(ran := p.ran + [p.workers[w].id], workers := p.workers[w := Popping])
    case Destroy => p.(destructor := Pushing(0), early := p.scheduled)
    case PushSentinel => p.(queue := p.queue + [Sentinel], destructor := Pushing(p.destructor.pushed + 1))
    case BeginJoin => p.(destructor := Joining(0))
    case Join => p.(destructor := Joining(p.destructor.joined + 1))
    case Return => p.(destructor := Returned)
  }

  // ---------------------------------------------------------------- counting

  function Sum<T>(s: seq<T>, f: T -> nat): nat {
    if s == [] then 0 else Sum(s[..|s| - 1], f) + f(s[|s| - 1])
  }

  lemma {:induction false} SumUpdate<T>(s: seq<T>, f: T -> nat, i: nat, x: T)
    requires i < |s|
    ensures Sum(s[i := x], f) == Sum(s, f) - f(s[i]) + f(x) && f(s[i]) <= Sum(s, f)
    decreases |s|
  {
    var n := |s| - 1;
    if i == n {
      assert s[i := x][..n] == s[..n];
    } else {
      assert s[i := x][..n] == s[..n][i := x];
      SumUpdate(s[..n], f, i, x);
    }
  }

  lemma SumAppend<T>(s: seq<T>, f: T -> nat, x: T)
    ensures Sum(s + [x], f) == Sum(s, f) + f(x)
  {
    assert (s + [x])[..|s|] == s;
  }

  lemma {:induction false} SumTail<T>(s: seq<T>, f: T -> nat)
    requires s != []
    ensures Sum(s, f) == f(s[0]) + Sum(s[1..], f)
  {
    if |s| == 1 {
      assert Sum(s[..0], f) == 0 && Sum(s[1..], f) == 0;
    } else {
      var n := |s| - 1;
      SumTail(s[..n], f);
      assert s[..n][1..] == s[1..][..n - 1] && s[1..][n - 1] == s[n];
    }
  }

  lemma {:induction false} SumConstant<T>(s: seq<T>, f: T -> nat, v: nat)
    requires forall i :: 0 <= i < |s| ==> f(s[i]) == v
    ensures Sum(s, f) == |s| * v
  {
    if s != [] {
      SumConstant(s[..|s| - 1], f, v);
    }
  }

  /** A sum of zeros and ones that reaches the length has only ones. */
  lemma {:induction false} SumFull<T>(s: seq<T>, f: T -> nat)
    requires forall i :: 0 <= i < |s| ==> f(s[i]) <= 1
    ensures Sum(s, f) <= |s|
    ensures Sum(s, f) == |s| ==> forall i :: 0 <= i < |s| ==> f(s[i]) == 1
    ensures Sum(s, f) == 0 ==> forall i :: 0 <= i < |s| ==> f(s[i]) == 0
  {
    if s != [] {
      SumFull(s[..|s| - 1], f);
    }
  }

  function IsTask(id: nat): Item -> nat { (item: Item) => if item == Task(id) then 1 else 0 }

  function IsRunning(id: nat): Worker -> nat { (w: Worker) => if w == Running(id) then 1 else 0 }

  function IsId(id: nat): nat -> nat { (x: nat) => if x == id then 1 else 0 }

  function IsSentinel(): Item -> nat { (item: Item) => if item.Sentinel? then 1 else 0 }

  function IsExited(): Worker -> nat { (w: Worker) => if w.Exited? then 1 else 0 }

  /** How often a runnable is queued, running or has run. */
  function Places(p: Pool, id: nat): nat {
    Sum(p.queue, IsTask(id)) + Sum(p.workers, IsRunning(id)) + Sum(p.ran, IsId(id))
  }

  function Sentinels(p: Pool): nat { Sum(p.queue, IsSentinel()) }

  function Exits(p: Pool): nat { Sum(p.workers, IsExited()) }

  function Pushed(p: Pool): nat {
    match p.destructor
    case Alive => 0
    case Pushing(k) => k
    case _ => |p.workers|
  }

  // ---------------------------------------------------------------- the invariant

  /** No early runnable is behind a sentinel. */
  ghost predicate Ordered(queue: seq<Item>, early: nat) {
    forall i, j :: 0 <= i < j < |queue| && queue[i].Sentinel? && queue[j].Task? ==> queue[j].id >= early
  }

  ghost predicate NoEarly(queue: seq<Item>, early: nat) {
    forall j :: 0 <= j < |queue| && queue[j].Task? ==> queue[j].id >= early
  }

  ghost predicate Inv(p: Pool) {
    && (forall id: nat :: Places(p, id) == if id < p.scheduled then 1 else 0)
    && Pushed(p) <= |p.workers| && Sentinels(p) + Exits(p) == Pushed(p)
    && p.early <= p.scheduled
    && (p.destructor.Joining? ==> p.destructor.joined <= |p.workers| && forall i :: 0 <= i < p.destructor.joined ==>
        p.workers[i].Exited?)
    && (p.destructor.Returned? ==> forall i :: 0 <= i < |p.workers| ==> p.workers[i].Exited?)
    && (!p.destructor.Alive? ==> Ordered(p.queue, p.early) && (Exits(p) > 0 ==> NoEarly(p.queue, p.early)))
  }

  lemma InitInv(p: Pool)
    requires Init(p)
    ensures Inv(p)
  {
    forall id: nat
      ensures Places(p, id) == 0
    {
      SumConstant(p.workers, IsRunning(id), 0);
    }
    SumConstant(p.workers, IsExited(), 0);
  }

  lemma NoSentinels(queue: seq<Item>)
    requires Sum(queue, IsSentinel()) == 0
    ensures forall i :: 0 <= i < |queue| ==> queue[i].Task?
  {
    SumFull(queue, IsSentinel());
    forall i | 0 <= i < |queue|
      ensures queue[i].Task?
    {
      assert IsSentinel()(queue[i]) == 0;
    }
  }

  lemma ScheduleInv(p: Pool)
    requires Inv(p) && !p.destructor.Returned?
    ensures Inv(Apply(p, Schedule(false)))
  {
    var p' := Apply(p, Schedule(false));
    forall id: nat
      ensures Places(p', id) == if id < p'.scheduled then 1 else 0
    {
      assert Places(p, id) == if id < p.scheduled then 1 else 0;
      SumAppend(p.queue, IsTask(id), Task(p.scheduled));
    }
    SumAppend(p.queue, IsSentinel(), Task(p.scheduled));
  }

  lemma PopInv(p: Pool, w: nat)
    requires Inv(p) && Enabled(p, Pop(w))
    ensures Inv(Apply(p, Pop(w)))
  {
    var p' := Apply(p, Pop(w));
    forall id: nat
      ensures Places(p', id) == if id < p'.scheduled then 1 else 0
    {
      assert Places(p, id) == if id < p.scheduled then 1 else 0;
      SumTail(p.queue, IsTask(id));
      SumUpdate(p.workers, IsRunning(id), w, p'.workers[w]);
    }
    SumTail(p.queue, IsSentinel());
    SumUpdate(p.workers, IsExited(), w, p'.workers[w]);
    if p.destructor.Alive? && p.queue[0].Sentinel? {
      NoSentinels(p.queue);
    }
  }

  lemma CompleteInv(p: Pool, w: nat)
    requires Inv(p) && Enabled(p, Complete(w))
    ensures Inv(Apply(p, Complete(w)))
  {
    var p' := Apply(p, Complete(w));
    forall id: nat
      ensures Places(p', id) == if id < p'.scheduled then 1 else 0
    {
      assert Places(p, id) == if id < p.scheduled then 1 else 0;
      SumAppend(p.ran, IsId(id), p.workers[w].id);
      SumUpdate(p.workers, IsRunning(id), w, Popping);
    }
    SumUpdate(p.workers, IsExited(), w, Popping);
  }

  lemma DestroyInv(p: Pool)
    requires Inv(p) && p.destructor.Alive?
    ensures Inv(Apply(p, Destroy))
  {
    var p' := Apply(p, Destroy);
    forall id: nat
      ensures Places(p', id) == if id < p'.scheduled then 1 else 0
    {
      assert Places(p, id) == if id < p.scheduled then 1 else 0;
    }
    NoSentinels(p.queue);
  }

  lemma PushInv(p: Pool)
    requires Inv(p) && Enabled(p, PushSentinel)
    ensures Inv(Apply(p, PushSentinel))
  {
    var p' := Apply(p, PushSentinel);
    forall id: nat
      ensures Places(p', id) == if id < p'.scheduled then 1 else 0
    {
      assert Places(p, id) == if id < p.scheduled then 1 else 0;
      SumAppend(p.queue, IsTask(id), Sentinel);
    }
    SumAppend(p.queue, IsSentinel(), Sentinel);
  }

  lemma OtherInv(p: Pool, step: Step)
    requires Inv(p) && Enabled(p, step) && (step.BeginJoin? || step.Join? || step.Return?)
    ensures Inv(Apply(p, step))
  {
    var p' := Apply(p, step);
    forall id: nat
      ensures Places(p', id) == if id < p'.scheduled then 1 else 0
    {
      assert Places(p, id) == if id < p.scheduled then 1 else 0;
    }
  }

  lemma StepInv(p: Pool, step: Step)
    requires Inv(p) && Enabled(p, step)
    ensures Inv(Apply(p, step))
  {
    match step
    case Schedule(isNull) => if !isNull { ScheduleInv(p); }
    case Pop(w) => PopInv(p, w);
    case Complete(w) => CompleteInv(p, w);
    case Destroy => DestroyInv(p);
    case PushSentinel => PushInv(p);
    case _ => OtherInv(p, step);
  }

  // ---------------------------------------------------------------- runs

  ghost predicate IsRun(run: seq<Pool>, steps: seq<Step>) {
    && |run| == |steps| + 1 && Init(run[0])
    && (forall i :: 0 <= i < |steps| ==> Enabled(run[i], steps[i]) && run[i + 1] == Apply(run[i], steps[i]))
  }

  lemma {:induction false} RunInv(run: seq<Pool>, steps: seq<Step>, n: nat)
    requires IsRun(run, steps) && n < |run|
    ensures Inv(run[n]) && |run[n].workers| == |run[0].workers|
  {
    if n == 0 {
      InitInv(run[0]);
    } else {
      RunInv(run, steps, n - 1);
      StepInv(run[n - 1], steps[n - 1]);
    }
  }

  lemma RunStep(run: seq<Pool>, steps: seq<Step>, n: nat)
    requires IsRun(run, steps) && n + 1 < |run|
    ensures n < |steps| && Enabled(run[n], steps[n]) && run[n + 1] == Apply(run[n], steps[n])
  {
  }

  /** How many runnables the given steps schedule; a null one is none. */
  ghost function Calls(steps: seq<Step>): nat {
    if steps == [] then 0 else Calls(steps[..|steps| - 1]) + if steps[|steps| - 1] == Schedule(false) then 1 else 0
  }

  lemma {:induction false} CountedCalls(run: seq<Pool>, steps: seq<Step>, n: nat)
    requires IsRun(run, steps) && n < |run|
    ensures n <= |steps| && run[n].scheduled == Calls(steps[..n])
  {
    if n > 0 {
      CountedCalls(run, steps, n - 1);
      RunStep(run, steps, n - 1);
      assert steps[..n][..n - 1] == steps[..n - 1];
    }
  }

  /** The early runnables are those scheduled before the destructor began. */
  lemma {:induction false} EarlyAre(run: seq<Pool>, steps: seq<Step>, m: nat, n: nat)
    requires IsRun(run, steps) && m < n < |run| && steps[m] == Destroy
    ensures run[n].early == Calls(steps[..m]) && !run[n].destructor.Alive?
  {
    RunStep(run, steps, n - 1);
    if m == n - 1 {
      CountedCalls(run, steps, m);
    } else {
      EarlyAre(run, steps, m, n - 1);
    }
  }

  lemma EarlyRan(run: seq<Pool>, steps: seq<Step>, n: nat, id: nat)
    requires IsRun(run, steps) && n < |run| && |run[0].workers| > 0 && run[n].destructor.Returned?
    ensures id < run[n].early ==> Sum(run[n].ran, IsId(id)) == 1
    ensures Sum(run[n].ran, IsId(id)) <= 1
    ensures Sentinels(run[n]) == 0 && Exits(run[n]) == |run[n].workers|
  {
    RunInv(run, steps, n);
    var p := run[n];
    forall i | 0 <= i < |p.workers|
      ensures IsExited()(p.workers[i]) == 1 && IsRunning(id)(p.workers[i]) == 0
    {
    }
    SumConstant(p.workers, IsExited(), 1);
    SumConstant(p.workers, IsRunning(id), 0);
    assert Places(p, id) == if id < p.scheduled then 1 else 0;
    if id < p.early {
      forall j | 0 <= j < |p.queue|
        ensures IsTask(id)(p.queue[j]) == 0
      {
      }
      SumConstant(p.queue, IsTask(id), 0);
    }
  }

  /** When the destructor, begun in step `m`, has returned, every runnable scheduled before that step has
      run exactly once, no runnable has run twice, and every thread has consumed exactly one sentinel.
      The pool has at least one thread. */
  lemma AllEarlyRan(run: seq<Pool>, steps: seq<Step>, m: nat, n: nat, id: nat)
    requires IsRun(run, steps) && m < n < |run| && steps[m] == Destroy
    requires |run[0].workers| > 0 && run[n].destructor.Returned?
    ensures id < Calls(steps[..m]) ==> Sum(run[n].ran, IsId(id)) == 1
    ensures Sum(run[n].ran, IsId(id)) <= 1
    ensures Sentinels(run[n]) == 0 && Exits(run[n]) == |run[n].workers|
  {
    EarlyAre(run, steps, m, n);
    EarlyRan(run, steps, n, id);
  }

  /** At every moment each scheduled runnable is in exactly one place: queued, running or finished. */
  lemma OnePlace(run: seq<Pool>, steps: seq<Step>, n: nat, id: nat)
    requires IsRun(run, steps) && n < |run|
    ensures Places(run[n], id) == if id < run[n].scheduled then 1 else 0
  {
    RunInv(run, steps, n);
  }

  /** Without threads the destructor returns at once and the queued runnable is lost. */
  lemma NoThreadsLoses() returns (run: seq<Pool>, steps: seq<Step>)
    ensures IsRun(run, steps) && run[|run| - 1].destructor.Returned? && steps[1] == Destroy && Calls(steps[..1]) == 1
    ensures Sum(run[|run| - 1].ran, IsId(0)) == 0
  {
    var p0 := Pool([], [], 0, [], Alive, 0);
    var p1 := Apply(p0, Schedule(false));
    var p2 := Apply(p1, Destroy);
    var p3 := Apply(p2, BeginJoin);
    var p4 := Apply(p3, Return);
    run, steps := [p0, p1, p2, p3, p4], [Schedule(false), Destroy, BeginJoin, Return];
  }

  lemma {:induction false} NoThreadsRunNothing(run: seq<Pool>, steps: seq<Step>, n: nat)
    requires IsRun(run, steps) && n < |run| && run[0].workers == []
    ensures run[n].workers == [] && run[n].ran == []
  {
    if n > 0 {
      NoThreadsRunNothing(run, steps, n - 1);
      assert Enabled(run[n - 1], steps[n - 1]) && run[n] == Apply(run[n - 1], steps[n - 1]);
    }
  }

  /** When the destructor, begun in step `m`, has returned, every runnable scheduled before that step has
      run exactly once, if and only if the pool has a thread or there was no such runnable. */
  lemma EarlyRanExactly(run: seq<Pool>, steps: seq<Step>, m: nat, n: nat)
    requires IsRun(run, steps) && m < n < |run| && steps[m] == Destroy && run[n].destructor.Returned?
    ensures (forall id: nat :: id < Calls(steps[..m]) ==> Sum(run[n].ran, IsId(id)) == 1)
       <==> |run[0].workers| > 0 || Calls(steps[..m]) == 0
  {
    if |run[0].workers| > 0 {
      forall id: nat | id < Calls(steps[..m])
        ensures Sum(run[n].ran, IsId(id)) == 1
      {
        AllEarlyRan(run, steps, m, n, id);
      }
    } else {
      NoThreadsRunNothing(run, steps, n);
      assert Sum(run[n].ran, IsId(0)) == 0;
    }
  }

  // ---------------------------------------------------------------- the order of the runnables

  /** The ids of the queued runnables, in order. */
  ghost function Tasks(queue: seq<Item>): seq<nat> {
    if queue == [] then [] else
      var last := queue[|queue| - 1];
      Tasks(queue[..|queue| - 1]) + if last.Task? then [last.id] else []
  }

  lemma TasksAppend(queue: seq<Item>, item: Item)
    ensures Tasks(queue + [item]) == Tasks(queue) + if item.Task? then [item.id] else []
  {
    assert (queue + [item])[..|queue|] == queue;
  }

  lemma {:induction false} TasksTail(queue: seq<Item>)
    requires queue != []
    ensures Tasks(queue) == (if queue[0].Task? then [queue[0].id] else []) + Tasks(queue[1..])
  {
    var n := |queue| - 1;
    if n == 0 {
      assert Tasks(queue[..0]) == [] && Tasks(queue[1..]) == [];
    } else {
      TasksTail(queue[..n]);
      assert queue[..n][1..] == queue[1..][..n - 1] && queue[1..][n - 1] == queue[n];
    }
  }

  /** The ids of the runnables that the threads have started, in order. */
  ghost function Started(run: seq<Pool>, steps: seq<Step>, n: nat): seq<nat>
    requires IsRun(run, steps) && n < |run|
  {
    if n == 0 then [] else
      Started(run, steps, n - 1) + StartedBy(run[n], steps[n - 1])
  }

  /** What a thread runs after it took an item off the queue. */
  ghost function StartedBy(p: Pool, step: Step): seq<nat> {
    if step.Pop? && step.w < |p.workers| && p.workers[step.w].Running? then [p.workers[step.w].id] else []
  }

  ghost function FirstIds(n: nat): seq<nat> {
    seq(n, i requires 0 <= i => i)
  }

  lemma StartStep(p: Pool, step: Step, started: seq<nat>)
    requires Enabled(p, step) && started + Tasks(p.queue) == FirstIds(p.scheduled)
    ensures var p' := Apply(p, step); started + StartedBy(p', step) + Tasks(p'.queue) == FirstIds(p'.scheduled)
  {
    hide Tasks, FirstIds;
    var p' := Apply(p, step);
    assert started + [] == started;
    match step
    case Schedule(isNull) =>
      if !isNull {
        TasksAppend(p.queue, Task(p.scheduled));
        OneMoreId(p.scheduled);
        assert started + (Tasks(p.queue) + [p.scheduled]) == started + Tasks(p.queue) + [p.scheduled];
      }
    case Pop(w) =>
      TasksTail(p.queue);
      var first := if p.queue[0].Task? then [p.queue[0].id] else [];
      assert StartedBy(p', step) == first;
      assert started + first + Tasks(p'.queue) == started + (first + Tasks(p'.queue));
    case PushSentinel =>
      TasksAppend(p.queue, Sentinel);
      assert Tasks(p.queue) + [] == Tasks(p.queue);
    case _ =>
  }

  lemma OneMoreId(n: nat)
    ensures FirstIds(n + 1) == FirstIds(n) + [n]
  {
  }

  lemma {:induction false} StartedThenQueued(run: seq<Pool>, steps: seq<Step>, n: nat)
    requires IsRun(run, steps) && n < |run|
    ensures Started(run, steps, n) + Tasks(run[n].queue) == FirstIds(run[n].scheduled)
  {
    if n > 0 {
      StartedThenQueued(run, steps, n - 1);
      RunStep(run, steps, n - 1);
      StartStep(run[n - 1], steps[n - 1], Started(run, steps, n - 1));
    }
  }

  /** The threads start the runnables in the order in which they were scheduled, leaving none out. */
  lemma StartedInOrder(run: seq<Pool>, steps: seq<Step>, n: nat, i: nat)
    requires IsRun(run, steps) && n < |run| && i < |Started(run, steps, n)|
    ensures n <= |steps| && |Started(run, steps, n)| <= Calls(steps[..n]) && Started(run, steps, n)[i] == i
  {
    StartedThenQueued(run, steps, n);
    CountedCalls(run, steps, n);
    assert (Started(run, steps, n) + Tasks(run[n].queue))[i] == i;
  }

  ghost function RunningIds(p: Pool): seq<nat> {
    if |p.workers| > 0 && p.workers[0].Running? then [p.workers[0].id] else []
  }

  lemma {:induction false} OneThreadRuns(run: seq<Pool>, steps: seq<Step>, n: nat)
    requires IsRun(run, steps) && n < |run| && |run[0].workers| == 1
    ensures |run[n].workers| == 1 && run[n].ran + RunningIds(run[n]) == Started(run, steps, n)
  {
    if n > 0 {
      OneThreadRuns(run, steps, n - 1);
      RunStep(run, steps, n - 1);
    }
  }

  /** With one thread the runnables also finish in that order. */
  lemma OneThreadInOrder(run: seq<Pool>, steps: seq<Step>, n: nat, i: nat)
    requires IsRun(run, steps) && n < |run| && |run[0].workers| == 1 && i < |run[n].ran|
    ensures run[n].ran[i] == i
  {
    OneThreadRuns(run, steps, n);
    StartedInOrder(run, steps, n, i);
    assert (run[n].ran + RunningIds(run[n]))[i] == run[n].ran[i];
  }

  /** The shutdown never blocks for good: until the destructor has returned, the destructor or some
      worker can move. */
  lemma ShutdownMoves(run: seq<Pool>, steps: seq<Step>, n: nat) returns (step: Step)
    requires IsRun(run, steps) && n < |run| && !run[n].destructor.Alive? && !run[n].destructor.Returned?
    ensures Enabled(run[n], step) && !step.Schedule?
  {
    RunInv(run, steps, n);
    var p := run[n];
    match p.destructor
    case Pushing(k) => step := if k < |p.workers| then PushSentinel else BeginJoin;
    case Joining(j) =>
      if j >= |p.workers| {
        step := Return;
      } else {
        match p.workers[j]
        case Exited => step := Join;
        case Running(_) => step := Complete(j);
        case Popping =>
          SumFull(p.workers, IsExited());
          assert IsExited()(p.workers[j]) == 0;
          step := Pop(j);
      }
  }

  // ---------------------------------------------------------------- termination of the shutdown

  function ItemWork(): Item -> nat { (item: Item) => if item.Sentinel? then 1 else 2 }

  function WorkerWork(): Worker -> nat { (w: Worker) => if w.Running? then 1 else 0 }

  function DestructorWork(d: Destructor, threads: nat): nat {
    match d
    case Alive => 3 * threads + 3
    case Pushing(k) => if k <= threads then 3 * threads - 2 * k + 2 else 0
    case Joining(j) => if j <= threads then threads - j + 1 else 0
    case Returned => 0
  }

  /** A bound on the steps that can follow before another runnable is scheduled. */
  function Work(p: Pool): nat {
    Sum(p.queue, ItemWork()) + Sum(p.workers, WorkerWork()) + DestructorWork(p.destructor, |p.workers|)
  }

  lemma StepWork(p: Pool, step: Step)
    requires Inv(p) && Enabled(p, step)
    ensures Work(Apply(p, step)) <= Work(p) + if step.Schedule? then 2 else -1
  {
    var p' := Apply(p, step);
    match step
    case Schedule(isNull) => SumAppend(p.queue, ItemWork(), Task(p.scheduled));
    case Pop(w) =>
      SumTail(p.queue, ItemWork());
      SumUpdate(p.workers, WorkerWork(), w, p'.workers[w]);
    case Complete(w) => SumUpdate(p.workers, WorkerWork(), w, Popping);
    case PushSentinel => SumAppend(p.queue, ItemWork(), Sentinel);
    case _ =>
  }

  ghost function Schedules(steps: seq<Step>): nat {
    if steps == [] then 0 else (if steps[|steps| - 1].Schedule? then 1 else 0) + Schedules(steps[..|steps| - 1])
  }

  /** A run has at most two further steps for each `schedule` and a fixed number for the shutdown, so
      with `ShutdownMoves` the destructor returns once runnables stop being scheduled. */
  lemma {:induction false} RunBounded(run: seq<Pool>, steps: seq<Step>, n: nat)
    requires IsRun(run, steps) && n < |run|
    ensures n + Work(run[n]) <= 3 * |run[0].workers| + 3 + 3 * Schedules(steps[..n])
  {
    if n == 0 {
      SumConstant(run[0].workers, WorkerWork(), 0);
    } else {
      RunBounded(run, steps, n - 1);
      RunInv(run, steps, n - 1);
      StepWork(run[n - 1], steps[n - 1]);
      assert steps[..n][..n - 1] == steps[..n - 1];
    }
  }
}
