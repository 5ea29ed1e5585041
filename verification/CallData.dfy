/** The server side of a streaming call (src/handlers/call_data.h): any number of producers hand
    responses over through a single atomic slot, any number of handler threads take events off the
    completion queue and drive the responder.  Each step below is one atomic action of one thread; a
    compare-and-swap that fails changes nothing and is no step. */
module CallData {
  import opened Collections

  /** What a response asks for: a write, a write with the final status, or only the final status. */
  datatype Kind = Write | WriteAndFinish | Finish

  datatype Status = Created | Writing | Pending | Finishing

  /** Where a handler thread is inside `proceed`. */
  datatype Handler =
    | Idle
    | Woken(ok: bool)                       // the RPC flag is recorded, the status not yet read
    | Loaded(ok: bool, rs: Option<nat>)     // the slot has been read
    | Issuing(id: nat)                      // the status is set, the operation not yet started
    | Clearing                              // the status is set back, the slot not yet cleared
    | Accepting                             // the status is set, the request not yet passed on
    | InRequest                             // inside the request callback, or about to return

  datatype Source = Register | Alarm | Operation

  /** `submitted` lists the responses in the order in which their swaps succeeded, `issued` the
      responses whose operation was started.  `setters` producers have swapped but not yet set the
      alarm; `registrations`, `alarms` and `operations` are the events that will still arrive. */
  datatype Call = Call(
    status: Status,
    rpcOk: bool,
    slot: Option<nat>,
    submitted: seq<Kind>,
    issued: seq<nat>,
    setters: nat,
    registrations: nat,
    alarms: nat,
    operations: nat,
    handlers: seq<Handler>,
    started: bool,
    released: bool)

  datatype Step =
    | Submit(kind: Kind)
    | SetAlarm
    | Wake(h: nat, source: Source, ok: bool)
    | Advance(h: nat)

  ghost predicate Init(c: Call) {
    && c.status == Created && c.rpcOk && c.slot == None && c.submitted == [] && c.issued == []
    && c.setters == 0 && c.registrations == 1 && c.alarms == 0 && c.operations == 0
    && (forall i :: 0 <= i < |c.handlers| ==> c.handlers[i] == Idle) && !c.started && !c.released
  }

  function Arriving(c: Call, source: Source): nat {
    match source
    case Register => c.registrations
    case Alarm => c.alarms
    case Operation => c.operations
  }

  /** A producer may swap while the slot is empty; a handler may take any event that has arrived. */
  predicate Enabled(c: Call, step: Step) {
    match step
    case Submit(_) => c.started && !c.released && c.slot == None
    case SetAlarm => c.setters > 0
    case Wake(h, source, _) => h < |c.handlers| && c.handlers[h] == Idle && Arriving(c, source) > 0
    case Advance(h) => h < |c.handlers| && c.handlers[h] != Idle
  }

  function Consume(c: Call, source: Source): Call
    requires Arriving(c, source) > 0
  {
    match source
    case Register => c.(registrations := c.registrations - 1)
    case Alarm => c.(alarms := c.alarms - 1)
    case Operation => c.(operations := c.operations - 1)
  }

  function Apply(c: Call, step: Step): Call
    requires Enabled(c, step)
  {
    match step
    case Submit(kind) =>
      c.(slot := Some(|c.submitted|), submitted := c.submitted + [kind], setters := c.setters + 1)
    case SetAlarm => c.(setters := c.setters - 1, alarms := c.alarms + 1)
    case Wake(h, source, ok) =>
      var c' := Consume(c, source);
      c'.(rpcOk := c.rpcOk && ok, handlers := c.handlers[h := Woken(c.rpcOk && ok)])
    case Advance(h) => Continue(c, h)
  }

  function At(c: Call, h: nat, next: Handler): Call
    requires h < |c.handlers|
  {
    c.(handlers := c.handlers[h := next])
  }

  /** The next atomic action of `proceed` in handler thread `h`. */
  function Continue(c: Call, h: nat): Call
    requires h < |c.handlers| && c.handlers[h] != Idle
  {
    match c.handlers[h]
    case Woken(ok) =>
      if c.status == Created then
        if ok then At(c, h, Accepting).(status := Writing) else At(c, h, Idle).(released := true)
      else if c.status == Writing then At(c, h, Loaded(ok, c.slot))
      else if c.status == Pending then At(c, h, Clearing).(status := Writing)
      else At(c, h, Idle).(released := true)
    case Loaded(ok, None) => At(c, h, Idle)
    case Loaded(ok, Some(id)) =>
      var kind := if id < |c.submitted| then c.submitted[id] else Write;
      if ok then At(c, h, Issuing(id)).(status := if kind == Write then Pending else Finishing)
      else if kind == Write then At(c, h, Idle).(slot := None)
      else At(c, h, Idle).(released := true)
    case Issuing(id) => At(c, h, Idle).(issued := c.issued + [id], operations := c.operations + 1)
    case Clearing => At(c, h, Idle).(slot := None)
    case Accepting => At(c, h, InRequest).(started := true)
    case InRequest => At(c, h, Idle)
  }

  ghost function FirstIds(n: nat): seq<nat> {
    seq(n, i requires 0 <= i => i)
  }

  // ---------------------------------------------------------------- the token

  /** Whether a handler thread has taken an event and is not done with it. */
  predicate Busy(h: Handler) {
    !h.Idle? && !h.InRequest?
  }

  function BusyCount(hs: seq<Handler>): nat {
    if hs == [] then 0 else (if Busy(hs[|hs| - 1]) then 1 else 0) + BusyCount(hs[..|hs| - 1])
  }

  /** The producers, events and handler threads that still act on the call. */
  function Carriers(c: Call): nat {
    c.setters + c.registrations + c.alarms + c.operations + BusyCount(c.handlers)
  }

  lemma {:induction false} BusyUpdate(hs: seq<Handler>, i: nat, h: Handler)
    requires i < |hs|
    ensures BusyCount(hs[i := h]) == BusyCount(hs) - (if Busy(hs[i]) then 1 else 0) + (if Busy(h) then 1 else 0)
    ensures Busy(hs[i]) ==> BusyCount(hs) >= 1
    decreases |hs|
  {
    var n := |hs| - 1;
    if i == n {
      assert hs[i := h][..n] == hs[..n];
    } else {
      assert hs[i := h][..n] == hs[..n][i := h];
      BusyUpdate(hs[..n], i, h);
    }
  }

  lemma {:induction false} NoneBusy(hs: seq<Handler>)
    ensures BusyCount(hs) == 0 ==> forall i :: 0 <= i < |hs| ==> !Busy(hs[i])
    ensures (forall i :: 0 <= i < |hs| ==> !Busy(hs[i])) ==> BusyCount(hs) == 0
  {
    if hs != [] {
      NoneBusy(hs[..|hs| - 1]);
    }
  }

  /** With one carrier in all, a busy thread is the only busy one and no event is under way. */
  lemma OneBusy(c: Call, i: nat)
    requires Carriers(c) <= 1 && i < |c.handlers| && Busy(c.handlers[i])
    ensures c.setters == 0 && c.registrations == 0 && c.alarms == 0 && c.operations == 0 && Carriers(c) == 1
    ensures forall j :: 0 <= j < |c.handlers| && j != i ==> !Busy(c.handlers[j])
  {
    BusyUpdate(c.handlers, i, Idle);
    NoneBusy(c.handlers[i := Idle]);
    forall j | 0 <= j < |c.handlers| && j != i
      ensures !Busy(c.handlers[j])
    {
      assert c.handlers[i := Idle][j] == c.handlers[j];
    }
  }

  // ---------------------------------------------------------------- the invariant

  /** The response in the slot, and whether its operation was started. */
  ghost predicate Holding(c: Call, done: bool) {
    && c.slot.Some? && c.slot.value + 1 == |c.submitted|
    && (if done then |c.issued| == |c.submitted| else |c.issued| < |c.submitted|)
  }

  ghost predicate AfterIssue(c: Call, status: Status)
    requires c.slot.Some? && c.slot.value < |c.submitted|
  {
    status == if c.submitted[c.slot.value] == Write then Pending else Finishing
  }

  /** Handing over a response, from the swap until its operation starts. */
  ghost predicate Waiting(c: Call) {
    c.started && c.status == Writing && Holding(c, false)
  }

  ghost predicate Outstanding(c: Call) {
    c.started && Holding(c, true) && AfterIssue(c, c.status)
  }

  ghost predicate HandlerOk(c: Call, h: Handler) {
    match h
    case Idle => true
    case Woken(ok) =>
      && ok == c.rpcOk
      && (if c.status == Created then !c.started
          else if c.status == Writing then Waiting(c) else Outstanding(c))
    case Loaded(ok, rs) => ok == c.rpcOk && rs == c.slot && Waiting(c)
    case Issuing(id) =>
      c.started && c.rpcOk && c.slot == Some(id) && Holding(c, false) && |c.issued| == id && AfterIssue(c, c.status)
    case Clearing => c.started && c.status == Writing && Holding(c, true) && c.submitted[c.slot.value] == Write
    case Accepting => c.status == Writing && !c.started && c.rpcOk
    case InRequest => c.started
  }

  /** The responses were started in the order of the swaps, each once, and none was skipped while the
      RPC was sound.  Only the response in the slot may be one that finishes the call. */
  ghost predicate History(c: Call) {
    && |c.issued| <= |c.submitted| && (forall i :: 0 <= i < |c.issued| ==> c.issued[i] == i)
    && (c.rpcOk ==> |c.issued| + (if c.slot.Some? then 1 else 0) >= |c.submitted|)
    && (forall i :: 0 <= i < |c.submitted| && c.slot != Some(i) ==> c.submitted[i] == Write)
    && (c.slot.Some? ==> c.slot.value + 1 == |c.submitted|)
  }

  ghost predicate Inv(c: Call) {
    && Carriers(c) <= 1 && History(c)
    && (c.released ==> Carriers(c) == 0)
    && (!c.released && Carriers(c) == 0 ==> c.started && c.slot == None && c.status == Writing)
    && (!c.started ==> c.slot == None && c.submitted == [])
    && (c.registrations > 0 ==> c.status == Created && !c.started)
    && (c.setters > 0 || c.alarms > 0 ==> Waiting(c))
    && (c.operations > 0 ==> Outstanding(c) && c.rpcOk)
    && (forall i :: 0 <= i < |c.handlers| ==> HandlerOk(c, c.handlers[i]))
  }

  lemma InitInv(c: Call)
    requires Init(c)
    ensures Inv(c)
  {
    NoneBusy(c.handlers);
  }

  lemma SubmitInv(c: Call, kind: Kind)
    requires Inv(c) && Enabled(c, Submit(kind))
    ensures Inv(Apply(c, Submit(kind)))
  {
    NoneBusy(c.handlers);
  }

  lemma SetAlarmInv(c: Call)
    requires Inv(c) && Enabled(c, SetAlarm)
    ensures Inv(Apply(c, SetAlarm))
  {
    NoneBusy(c.handlers);
  }

  lemma WakeInv(c: Call, h: nat, source: Source, ok: bool)
    requires Inv(c) && Enabled(c, Wake(h, source, ok))
    ensures Inv(Apply(c, Wake(h, source, ok)))
  {
    NoneBusy(c.handlers);
    BusyUpdate(c.handlers, h, Woken(c.rpcOk && ok));
    var c' := Apply(c, Wake(h, source, ok));
    forall i | 0 <= i < |c'.handlers|
      ensures HandlerOk(c', c'.handlers[i])
    {
      assert i != h ==> c'.handlers[i] == c.handlers[i];
    }
  }

  /** The threads that are not busy do not mind what the busy one does. */
  lemma OthersOk(c: Call, c': Call, h: nat)
    requires h < |c.handlers| == |c'.handlers| && (c.started ==> c'.started)
    requires forall i :: 0 <= i < |c.handlers| ==> HandlerOk(c, c.handlers[i])
    requires forall i :: 0 <= i < |c.handlers| && i != h ==> c'.handlers[i] == c.handlers[i] && !Busy(c.handlers[i])
    requires HandlerOk(c', c'.handlers[h])
    ensures forall i :: 0 <= i < |c'.handlers| ==> HandlerOk(c', c'.handlers[i])
  {
    forall i | 0 <= i < |c'.handlers|
      ensures HandlerOk(c', c'.handlers[i])
    {
      assert HandlerOk(c, c.handlers[i]);
    }
  }

  lemma WokenInv(c: Call, h: nat)
    requires Inv(c) && h < |c.handlers| && c.handlers[h].Woken?
    ensures Inv(Continue(c, h))
  {
    var c' := Continue(c, h);
    OneBusy(c, h);
    BusyUpdate(c.handlers, h, c'.handlers[h]);
    OthersOk(c, c', h);
  }

  lemma LoadedInv(c: Call, h: nat)
    requires Inv(c) && h < |c.handlers| && c.handlers[h].Loaded?
    ensures Inv(Continue(c, h))
  {
    var c' := Continue(c, h);
    OneBusy(c, h);
    BusyUpdate(c.handlers, h, c'.handlers[h]);
    OthersOk(c, c', h);
  }

  lemma IssuingInv(c: Call, h: nat)
    requires Inv(c) && h < |c.handlers| && c.handlers[h].Issuing?
    ensures Inv(Continue(c, h))
  {
    var c' := Continue(c, h);
    OneBusy(c, h);
    BusyUpdate(c.handlers, h, c'.handlers[h]);
    OthersOk(c, c', h);
  }

  lemma ClearingInv(c: Call, h: nat)
    requires Inv(c) && h < |c.handlers| && c.handlers[h].Clearing?
    ensures Inv(Continue(c, h))
  {
    var c' := Continue(c, h);
    OneBusy(c, h);
    BusyUpdate(c.handlers, h, c'.handlers[h]);
    OthersOk(c, c', h);
  }

  lemma AcceptingInv(c: Call, h: nat)
    requires Inv(c) && h < |c.handlers| && c.handlers[h].Accepting?
    ensures Inv(Continue(c, h))
  {
    var c' := Continue(c, h);
    OneBusy(c, h);
    BusyUpdate(c.handlers, h, c'.handlers[h]);
    OthersOk(c, c', h);
  }

  lemma InRequestInv(c: Call, h: nat)
    requires Inv(c) && h < |c.handlers| && c.handlers[h].InRequest?
    ensures Inv(Continue(c, h))
  {
    var c' := Continue(c, h);
    BusyUpdate(c.handlers, h, Idle);
    forall i | 0 <= i < |c'.handlers|
      ensures HandlerOk(c', c'.handlers[i])
    {
      assert i != h ==> c'.handlers[i] == c.handlers[i] && HandlerOk(c, c.handlers[i]);
    }
  }

  lemma AdvanceInv(c: Call, h: nat)
    requires Inv(c) && Enabled(c, Advance(h))
    ensures Inv(Apply(c, Advance(h)))
  {
    match c.handlers[h]
    case Woken(_) => WokenInv(c, h);
    case Loaded(_, _) => LoadedInv(c, h);
    case Issuing(_) => IssuingInv(c, h);
    case Clearing => ClearingInv(c, h);
    case Accepting => AcceptingInv(c, h);
    case InRequest => InRequestInv(c, h);
  }

  lemma StepInv(c: Call, step: Step)
    requires Inv(c) && Enabled(c, step)
    ensures Inv(Apply(c, step))
  {
    match step
    case Submit(kind) => SubmitInv(c, kind);
    case SetAlarm => SetAlarmInv(c);
    case Wake(h, source, ok) => WakeInv(c, h, source, ok);
    case Advance(h) => AdvanceInv(c, h);
  }

  // ---------------------------------------------------------------- runs

  ghost predicate IsRun(run: seq<Call>, steps: seq<Step>) {
    && |run| == |steps| + 1 && Init(run[0])
    && (forall i :: 0 <= i < |steps| ==> Enabled(run[i], steps[i]) && run[i + 1] == Apply(run[i], steps[i]))
  }

  lemma {:induction false} RunInv(run: seq<Call>, steps: seq<Step>, n: nat)
    requires IsRun(run, steps) && n < |run|
    ensures Inv(run[n])
  {
    if n == 0 {
      InitInv(run[0]);
    } else {
      RunInv(run, steps, n - 1);
      StepInv(run[n - 1], steps[n - 1]);
    }
  }

  /** In every reachable state the operations given to the responder are a prefix of the responses in
      swap order, each once; at most one alarm or operation is under way; at most the last operation
      finishes the call; and once the call is released nothing will arrive for it. */
  lemma RunSafe(run: seq<Call>, steps: seq<Step>, n: nat)
    requires IsRun(run, steps) && n < |run|
    ensures var c := run[n];
      && |c.issued| <= |c.submitted| && (forall i :: 0 <= i < |c.issued| ==> c.issued[i] == i)
      && c.alarms + c.operations <= 1
      && (forall i :: 0 <= i < |c.issued| && c.submitted[c.issued[i]] != Write ==> i + 1 == |c.issued| == |c.submitted|)
      && (c.released ==> c.setters == 0 && c.registrations == 0 && c.alarms == 0 && c.operations == 0)
  {
    RunInv(run, steps, n);
    var c := run[n];
    forall i | 0 <= i < |c.issued| && c.submitted[c.issued[i]] != Write
      ensures i + 1 == |c.issued| == |c.submitted|
    {
      assert c.slot == Some(i);
    }
  }

  lemma RunStep(run: seq<Call>, steps: seq<Step>, n: nat)
    requires IsRun(run, steps) && n + 1 < |run|
    ensures n < |steps| && Enabled(run[n], steps[n]) && run[n + 1] == Apply(run[n], steps[n])
  {
  }

  /** The event that step `step` takes off the queue reports a failure. */
  predicate Fails(step: Step) {
    step.Wake? && !step.ok
  }

  ghost predicate SomeFailed(steps: seq<Step>) {
    exists i :: 0 <= i < |steps| && Fails(steps[i])
  }

  /** The responses that the producers hand over in the given steps, in the order of their swaps. */
  ghost function Responses(steps: seq<Step>): seq<Kind> {
    if steps == [] then [] else
      var last := steps[|steps| - 1];
      Responses(steps[..|steps| - 1]) + if last.Submit? then [last.kind] else []
  }

  lemma RecordedStep(c: Call, step: Step)
    requires Enabled(c, step)
    ensures Apply(c, step).rpcOk <==> c.rpcOk && !Fails(step)
    ensures Apply(c, step).submitted == c.submitted + if step.Submit? then [step.kind] else []
  {
    if !step.Submit? {
      assert c.submitted + [] == c.submitted;
    }
  }

  lemma SomeFailedNext(steps: seq<Step>, n: nat)
    requires n < |steps|
    ensures SomeFailed(steps[..n + 1]) <==> SomeFailed(steps[..n]) || Fails(steps[n])
    ensures Responses(steps[..n + 1]) == Responses(steps[..n]) + if steps[n].Submit? then [steps[n].kind] else []
  {
    var front, all := steps[..n], steps[..n + 1];
    assert all[..n] == front && all[n] == steps[n];
    if SomeFailed(front) {
      var i :| 0 <= i < |front| && Fails(front[i]);
      assert Fails(all[i]);
    }
    if SomeFailed(all) && !Fails(steps[n]) {
      var i :| 0 <= i < |all| && Fails(all[i]);
      assert Fails(front[i]);
    }
  }

  /** The flag is set back by the first failed event, and by nothing else; and the responses are those
      that were handed over. */
  lemma {:induction false} RecordedExactly(run: seq<Call>, steps: seq<Step>, n: nat)
    requires IsRun(run, steps) && n < |run|
    ensures n <= |steps| && (run[n].rpcOk <==> !SomeFailed(steps[..n]))
    ensures run[n].submitted == Responses(steps[..n])
  {
    if n > 0 {
      RecordedExactly(run, steps, n - 1);
      RunStep(run, steps, n - 1);
      RecordedStep(run[n - 1], steps[n - 1]);
      SomeFailedNext(steps, n - 1);
    }
  }

  /** As long as no event has failed, every response but the one in the slot has been started. */
  lemma NothingSkipped(run: seq<Call>, steps: seq<Step>, n: nat)
    requires IsRun(run, steps) && n < |run| && !SomeFailed(steps[..n])
    ensures |run[n].issued| + (if run[n].slot.Some? then 1 else 0) >= |Responses(steps[..n])|
  {
    RunInv(run, steps, n);
    RecordedExactly(run, steps, n);
  }

  lemma FailedStep(c: Call, step: Step)
    requires Inv(c) && Enabled(c, step) && !c.rpcOk
    ensures Apply(c, step).issued == c.issued && !Apply(c, step).rpcOk
  {
    if step.Advance? {
      assert HandlerOk(c, c.handlers[step.h]);
    }
  }

  lemma {:induction false} NothingWithoutFlag(run: seq<Call>, steps: seq<Step>, m: nat, n: nat)
    requires IsRun(run, steps) && m <= n < |run| && !run[m].rpcOk
    ensures run[n].issued == run[m].issued && !run[n].rpcOk
    decreases n
  {
    hide *;
    if m < n {
      NothingWithoutFlag(run, steps, m, n - 1);
      RunInv(run, steps, n - 1);
      RunStep(run, steps, n - 1);
      FailedStep(run[n - 1], steps[n - 1]);
    }
  }

  /** Once a handler thread has taken a failed event, no operation is started any more. */
  lemma NothingAfterFailure(run: seq<Call>, steps: seq<Step>, m: nat, n: nat)
    requires IsRun(run, steps) && m < n < |run| && steps[m].Wake? && !steps[m].ok
    ensures run[n].issued == run[m].issued
  {
    RunStep(run, steps, m);
    assert !run[m + 1].rpcOk && run[m + 1].issued == run[m].issued;
    NothingWithoutFlag(run, steps, m + 1, n);
  }

  /** Why a call may be released: its last response is one that finishes it, or it failed before the
      request was passed on.  If no event has failed, that last response was started. */
  ghost predicate ReleaseOk(c: Call) {
    c.released ==>
      if c.submitted == [] then !c.started && !c.rpcOk
      else c.submitted[|c.submitted| - 1] != Write && (c.rpcOk ==> |c.issued| == |c.submitted|)
  }

  lemma ReleaseStep(c: Call, step: Step)
    requires Inv(c) && Enabled(c, step) && ReleaseOk(c)
    ensures ReleaseOk(Apply(c, step))
  {
    NoneBusy(c.handlers);
    match step
    case Submit(_) =>
    case SetAlarm =>
    case Wake(_, _, _) =>
    case Advance(h) =>
      assert HandlerOk(c, c.handlers[h]);
      if Busy(c.handlers[h]) {
        OneBusy(c, h);
      }
  }

  /** A call is given up only for a reason: its last response finishes the call and, unless an event has
      failed, was started; or there is no response, and an event failed before the request was passed on. */
  lemma {:induction false} ReleasedOnlyAtEnd(run: seq<Call>, steps: seq<Step>, n: nat)
    requires IsRun(run, steps) && n < |run|
    ensures n <= |steps| && ReleaseOk(run[n])
    ensures run[n].released && Responses(steps[..n]) == [] ==> SomeFailed(steps[..n]) && !run[n].started
    ensures run[n].released && Responses(steps[..n]) != [] ==>
      Responses(steps[..n])[|Responses(steps[..n])| - 1] != Write
    ensures run[n].released && !SomeFailed(steps[..n]) ==> |run[n].issued| == |Responses(steps[..n])|
  {
    RecordedExactly(run, steps, n);
    if n > 0 {
      ReleasedOnlyAtEnd(run, steps, n - 1);
      RunInv(run, steps, n - 1);
      RunStep(run, steps, n - 1);
      ReleaseStep(run[n - 1], steps[n - 1]);
    }
  }

  // ---------------------------------------------------------------- a run that delivers every response

  /** One handler thread, waiting for the next response after `n` of them. */
  ghost predicate Resting(c: Call, n: nat) {
    && c.status == Writing && c.rpcOk && c.slot == None && |c.submitted| == n && c.issued == FirstIds(n)
    && c.setters == 0 && c.registrations == 0 && c.alarms == 0 && c.operations == 0
    && c.handlers == [Idle] && c.started && !c.released
  }

  /** What one response causes when every event succeeds: its alarm, its operation and the event of that. */
  function Round(kind: Kind): seq<Step> {
    [Submit(kind), SetAlarm, Wake(0, Alarm, true), Advance(0), Advance(0), Advance(0), Wake(0, Operation, true),
     Advance(0)]
    + if kind == Write then [Advance(0)] else []
  }

  const Opening := [Wake(0, Register, true), Advance(0), Advance(0), Advance(0)]

  /** The steps `steps` lead from `c` to `c'`. */
  ghost predicate Leads(c: Call, steps: seq<Step>, c': Call)
    decreases |steps|
  {
    if steps == [] then c' == c else Enabled(c, steps[0]) && Leads(Apply(c, steps[0]), steps[1..], c')
  }

  lemma {:induction false} LeadsFurther(run: seq<Call>, steps: seq<Step>, more: seq<Step>, c: Call)
    returns (run': seq<Call>)
    requires IsRun(run, steps) && Leads(run[|steps|], more, c)
    ensures IsRun(run', steps + more) && run'[|steps + more|] == c
    decreases |more|
  {
    hide Apply, Enabled, Init;
    if more == [] {
      assert steps + more == steps;
      run' := run;
    } else {
      var step := more[0];
      var next := Apply(run[|steps|], step);
      run' := LeadsFurther(run + [next], steps + [step], more[1..], c);
      assert steps + [step] + more[1..] == steps + more;
    }
  }

  lemma OpeningLeads(c: Call) returns (c': Call)
    requires Init(c) && c.handlers == [Idle]
    ensures Leads(c, Opening, c') && Resting(c', 0)
  {
    var steps := Opening;
    var c1 := Apply(c, steps[0]);
    var c2 := Apply(c1, steps[1]);
    var c3 := Apply(c2, steps[2]);
    c' := Apply(c3, steps[3]);
    LeadsFour(c, c1, c2, c3, c', steps);
  }

  lemma LeadsFour(c: Call, c1: Call, c2: Call, c3: Call, c4: Call, steps: seq<Step>)
    requires |steps| == 4 && Enabled(c, steps[0]) && c1 == Apply(c, steps[0])
    requires Enabled(c1, steps[1]) && c2 == Apply(c1, steps[1]) && Enabled(c2, steps[2]) && c3 == Apply(c2, steps[2])
    requires Enabled(c3, steps[3]) && c4 == Apply(c3, steps[3])
    ensures Leads(c, steps, c4)
  {
    hide Apply, Enabled;
    assert steps[1..] == [steps[1], steps[2], steps[3]] && steps[1..][1..] == [steps[2], steps[3]];
    assert steps[1..][1..][1..] == [steps[3]] && steps[1..][1..][1..][1..] == [];
    assert Leads(c3, [steps[3]], c4);
    assert Leads(c2, [steps[2], steps[3]], c4);
    assert Leads(c1, [steps[1], steps[2], steps[3]], c4);
  }

  lemma {:induction false} LeadsOn(c: Call, steps: seq<Step>, c': Call, more: seq<Step>, c'': Call)
    requires Leads(c, steps, c') && Leads(c', more, c'')
    ensures Leads(c, steps + more, c'')
    decreases |steps|
  {
    hide Apply, Enabled;
    if steps == [] {
      assert steps + more == more;
    } else {
      LeadsOn(Apply(c, steps[0]), steps[1..], c', more, c'');
      assert (steps + more)[1..] == steps[1..] + more;
    }
  }

  lemma RoundLeads(c: Call, n: nat, kind: Kind) returns (c': Call)
    requires Resting(c, n)
    ensures Leads(c, Round(kind), c') && c'.submitted == c.submitted + [kind] && c'.issued == FirstIds(n + 1)
    ensures if kind == Write then Resting(c', n + 1) else c'.released
  {
    hide Leads;
    var c4 := FirstHalf(c, n, kind);
    var c8 := SecondHalf(c4, n, kind);
    var steps := [Submit(kind), SetAlarm, Wake(0, Alarm, true), Advance(0)];
    var more := [Advance(0), Advance(0), Wake(0, Operation, true), Advance(0)];
    LeadsOn(c, steps, c4, more, c8);
    c' := c8;
    if kind == Write {
      c' := Apply(c8, Advance(0));
      LeadsOne(c8, Advance(0), c');
      LeadsOn(c, steps + more, c8, [Advance(0)], c');
      assert Round(kind) == steps + more + [Advance(0)];
    } else {
      assert Round(kind) == steps + more;
    }
  }

  lemma LeadsOne(c: Call, step: Step, c': Call)
    requires Enabled(c, step) && c' == Apply(c, step)
    ensures Leads(c, [step], c')
  {
    hide Apply, Enabled;
    assert [step][1..] == [];
    assert Leads(c', [], c');
  }

  lemma FirstHalf(c: Call, n: nat, kind: Kind) returns (c4: Call)
    requires Resting(c, n)
    ensures Leads(c, [Submit(kind), SetAlarm, Wake(0, Alarm, true), Advance(0)], c4)
    ensures c4 == c.(slot := Some(n), submitted := c.submitted + [kind], handlers := [Loaded(true, Some(n))])
  {
    var steps := [Submit(kind), SetAlarm, Wake(0, Alarm, true), Advance(0)];
    var c1 := Apply(c, steps[0]);
    var c2 := Apply(c1, steps[1]);
    var c3 := Apply(c2, steps[2]);
    c4 := Apply(c3, steps[3]);
    LeadsFour(c, c1, c2, c3, c4, steps);
  }

  lemma SecondHalf(c: Call, n: nat, kind: Kind) returns (c4: Call)
    requires c.status == Writing && c.rpcOk && |c.submitted| == n + 1 && c.submitted[n] == kind
      && c.issued == FirstIds(n)
    requires c.slot == Some(n) && c.handlers == [Loaded(true, Some(n))] && c.operations == 0 && !c.released
    ensures Leads(c, [Advance(0), Advance(0), Wake(0, Operation, true), Advance(0)], c4)
    ensures c4.issued == FirstIds(n + 1) && c4.submitted == c.submitted
    ensures if kind == Write then c4 == c.(issued := FirstIds(n + 1), handlers := [Clearing]) else c4.released
  {
    var steps := [Advance(0), Advance(0), Wake(0, Operation, true), Advance(0)];
    var c1 := Apply(c, steps[0]);
    var c2 := Apply(c1, steps[1]);
    assert FirstIds(n) + [n] == FirstIds(n + 1);
    var c3 := Apply(c2, steps[2]);
    c4 := Apply(c3, steps[3]);
    LeadsFour(c, c1, c2, c3, c4, steps);
  }

  lemma RoundResponds(kind: Kind, steps: seq<Step>)
    ensures Responses(steps + Round(kind)) == Responses(steps) + [kind]
    ensures !SomeFailed(steps) ==> !SomeFailed(steps + Round(kind))
  {
    var round := Round(kind);
    assert steps + round == steps + [round[0]] + round[1..];
    assert (steps + [round[0]])[..|steps|] == steps;
    QuietResponds(steps + [round[0]], round[1..]);
    if !SomeFailed(steps) {
      NoneFailed(steps, round);
    }
  }

  lemma {:induction false} QuietResponds(steps: seq<Step>, more: seq<Step>)
    requires forall i :: 0 <= i < |more| ==> !more[i].Submit?
    ensures Responses(steps + more) == Responses(steps)
  {
    if more == [] {
      assert steps + more == steps;
    } else {
      var n := |more| - 1;
      QuietResponds(steps, more[..n]);
      assert (steps + more)[..|steps| + n] == steps + more[..n] && (steps + more)[|steps| + n] == more[n];
      assert Responses(steps) + [] == Responses(steps);
    }
  }

  lemma NoneFailed(steps: seq<Step>, more: seq<Step>)
    requires !SomeFailed(steps) && forall i :: 0 <= i < |more| ==> !Fails(more[i])
    ensures !SomeFailed(steps + more)
  {
    var all := steps + more;
    forall i | 0 <= i < |all|
      ensures !Fails(all[i])
    {
      assert all[i] == if i < |steps| then steps[i] else more[i - |steps|];
    }
  }

  /** The protocol can deliver: for any responses of which only the last one may finish the call there is a
      run, with one handler thread, in which they are handed over, all of them are started in order, and
      the call is released if the last one finishes it. */
  lemma {:induction false} CanDeliver(kinds: seq<Kind>) returns (run: seq<Call>, steps: seq<Step>)
    requires forall i :: 0 <= i < |kinds| - 1 ==> kinds[i] == Write
    ensures IsRun(run, steps) && Responses(steps) == kinds && !SomeFailed(steps)
    ensures var c := run[|steps|];
      c.issued == FirstIds(|kinds|) && if kinds == [] || kinds[|kinds| - 1] == Write then Resting(c, |kinds|)
        else c.released
  {
    hide Apply, Enabled, Init;
    if kinds == [] {
      run, steps := Opened();
    } else {
      var n := |kinds| - 1;
      run, steps := CanDeliver(kinds[..n]);
      var c := RoundLeads(run[|steps|], n, kinds[n]);
      RoundResponds(kinds[n], steps);
      run := LeadsFurther(run, steps, Round(kinds[n]), c);
      steps := steps + Round(kinds[n]);
      assert kinds[..n] + [kinds[n]] == kinds;
    }
  }

  lemma NewCall() returns (c: Call)
    ensures Init(c) && c.handlers == [Idle] && IsRun([c], [])
  {
    c := Call(Created, true, None, [], [], 0, 1, 0, 0, [Idle], false, false);
  }

  lemma Opened() returns (run: seq<Call>, steps: seq<Step>)
    ensures IsRun(run, steps) && Responses(steps) == [] && !SomeFailed(steps) && Resting(run[|steps|], 0)
  {
    hide Apply, Enabled, Leads, IsRun, Init, Resting;
    var c0 := NewCall();
    var c := OpeningLeads(c0);
    run := LeadsFurther([c0], [], Opening, c);
    steps := [] + Opening;
    QuietResponds([], Opening);
    NoneFailed([], Opening);
  }

  /** The alarm is set only while it is not armed and no operation is under way, and a handler thread
      that is done with an event starts nothing further. */
  lemma AlarmSetWhenFree(run: seq<Call>, steps: seq<Step>, n: nat)
    requires IsRun(run, steps) && n < |steps| && steps[n] == SetAlarm
    ensures run[n].alarms == 0 && run[n].operations == 0 && run[n].setters == 1 && run[n].status == Writing
    ensures forall i :: 0 <= i < |run[n].handlers| ==> !Busy(run[n].handlers[i])
  {
    RunInv(run, steps, n);
    NoneBusy(run[n].handlers);
  }

  /** A response in the slot of a live call is never stuck: its producer, its event or a handler
      thread can move, provided some thread polls the queue. */
  lemma NeverStuck(run: seq<Call>, steps: seq<Step>, n: nat) returns (step: Step)
    requires IsRun(run, steps) && n < |run| && !run[n].released && run[n].slot.Some? && |run[n].handlers| > 0
    ensures Enabled(run[n], step) && !step.Submit?
  {
    RunInv(run, steps, n);
    var c := run[n];
    NoneBusy(c.handlers);
    if i :| 0 <= i < |c.handlers| && c.handlers[i] != Idle {
      step := Advance(i);
    } else if c.setters > 0 {
      step := SetAlarm;
    } else if c.alarms > 0 {
      step := Wake(0, Alarm, true);
    } else {
      step := Wake(0, Operation, true);
    }
  }

  // ---------------------------------------------------------------- progress

  /** How many actions a handler thread has ahead of it, counting those its operation will cause. */
  function Ahead(h: Handler, status: Status): nat {
    match h
    case Idle => 0
    case InRequest => 1
    case Accepting => 2
    case Clearing => 1
    case Woken(_) => if status == Created then 3 else if status == Writing then 6 else 2
    case Loaded(_, _) => 5
    case Issuing(_) => 4
  }

  function AheadSum(hs: seq<Handler>, status: Status): nat {
    if hs == [] then 0 else Ahead(hs[|hs| - 1], status) + AheadSum(hs[..|hs| - 1], status)
  }

  /** A bound on the steps that can follow before another response is submitted. */
  function Rank(c: Call): nat {
    EventWork(c) + AheadSum(c.handlers, c.status)
  }

  lemma {:induction false} AheadUpdate(hs: seq<Handler>, i: nat, h: Handler, status: Status)
    requires i < |hs|
    ensures AheadSum(hs[i := h], status) == AheadSum(hs, status) - Ahead(hs[i], status) + Ahead(h, status)
    decreases |hs|
  {
    var n := |hs| - 1;
    if i == n {
      assert hs[i := h][..n] == hs[..n];
    } else {
      assert hs[i := h][..n] == hs[..n][i := h];
      AheadUpdate(hs[..n], i, h, status);
    }
  }

  lemma {:induction false} AheadStatus(hs: seq<Handler>, status: Status, status': Status)
    requires forall i :: 0 <= i < |hs| ==> !Busy(hs[i])
    ensures AheadSum(hs, status) == AheadSum(hs, status')
  {
    if hs != [] {
      AheadStatus(hs[..|hs| - 1], status, status');
    }
  }

  lemma AheadReplaced(c: Call, h: nat, next: Handler, status: Status)
    requires Inv(c) && h < |c.handlers| && (c.status == status || Busy(c.handlers[h]))
    ensures AheadSum(c.handlers[h := next], status) == AheadSum(c.handlers, c.status) - Ahead(c.handlers[h],
        c.status) + Ahead(next, status)
  {
    AheadUpdate(c.handlers, h, next, c.status);
    if c.status != status {
      OneBusy(c, h);
      var rest := c.handlers[h := Idle];
      AheadUpdate(c.handlers, h, Idle, c.status);
      AheadStatus(rest, c.status, status);
      AheadUpdate(rest, h, next, status);
      assert rest[h := next] == c.handlers[h := next];
    }
  }

  lemma AdvanceRank(c: Call, h: nat)
    requires Inv(c) && Enabled(c, Advance(h))
    ensures Rank(Apply(c, Advance(h))) < Rank(c)
  {
    var c' := Apply(c, Advance(h));
    AdvanceLowers(c, h);
    hide Apply, Inv, Ahead, AheadSum, Busy;
    AheadReplaced(c, h, c'.handlers[h], c'.status);
  }

  function EventWork(c: Call): nat {
    8 * c.setters + 7 * c.alarms + 4 * c.registrations + 3 * c.operations
  }

  /** A handler's action changes no other handler and brings the call closer to rest. */
  lemma AdvanceLowers(c: Call, h: nat)
    requires Inv(c) && Enabled(c, Advance(h))
    ensures var c' := Apply(c, Advance(h));
      && h < |c.handlers| == |c'.handlers| && c'.handlers == c.handlers[h := c'.handlers[h]]
      && (c.status == c'.status || Busy(c.handlers[h]))
      && EventWork(c') + Ahead(c'.handlers[h], c'.status) < EventWork(c) + Ahead(c.handlers[h], c.status)
  {
    assert HandlerOk(c, c.handlers[h]);
    var c' := Apply(c, Advance(h));
    assert c'.handlers == c.handlers[h := c'.handlers[h]];
  }

  lemma StepRank(c: Call, step: Step)
    requires Inv(c) && Enabled(c, step)
    ensures Rank(Apply(c, step)) <= Rank(c) + if step.Submit? then 8 else -1
  {
    match step
    case Submit(_) =>
    case SetAlarm =>
    case Wake(h, source, ok) =>
      AheadUpdate(c.handlers, h, Woken(c.rpcOk && ok), c.status);
      if source == Operation {
        assert Outstanding(c);
      }
    case Advance(h) => AdvanceRank(c, h);
  }

  ghost function Submits(steps: seq<Step>): nat {
    if steps == [] then 0 else (if steps[|steps| - 1].Submit? then 1 else 0) + Submits(steps[..|steps| - 1])
  }

  /** No thread waits or polls for ever: a run makes at most eight further steps for each response,
      and four for the registration.  Together with `NeverStuck`, every response that a producer
      swaps in is taken out again or ends the call. */
  lemma {:induction false} RunBounded(run: seq<Call>, steps: seq<Step>, n: nat)
    requires IsRun(run, steps) && n < |run|
    ensures n + Rank(run[n]) <= 4 + 9 * Submits(steps[..n])
  {
    if n == 0 {
      NoneAhead(run[0].handlers, run[0].status);
    } else {
      RunBounded(run, steps, n - 1);
      RunInv(run, steps, n - 1);
      StepRank(run[n - 1], steps[n - 1]);
      assert steps[..n][..n - 1] == steps[..n - 1];
    }
  }

  lemma {:induction false} NoneAhead(hs: seq<Handler>, status: Status)
    requires forall i :: 0 <= i < |hs| ==> hs[i] == Idle
    ensures AheadSum(hs, status) == 0
  {
    if hs != [] {
      NoneAhead(hs[..|hs| - 1], status);
    }
  }
}
