/** What the Water Safety host does get done: which steps begin a service call, admit an operation, arm a timer or
    create a callback, in which order the worker takes what was submitted, and that an accepting host can carry a
    call and a reschedule through to their end. */
module WaterHostProgress {
  import opened Wrappers
  import opened WaterHost
  import opened WaterHostInvariant
  import opened WaterHostPasses
  import opened WaterHostProofs
  import opened WaterHostOperations

  // ----- counting

  predicate BeginsCall(s: State, e: Event) {
    e.DispatchOutput? && s.exec.worker.Requesting? && !s.portQuiescent
  }

  predicate Admits(s: State, e: Event) {
    && e.StartOp? && s.exec.worker.Idle? && s.exec.queue != [] && s.exec.queue[0].Logical?
    && s.accepting && s.exec.queue[0].generation == s.generation
  }

  predicate Arms(s: State, e: Event) {
    || (e.ArmTimer? && e.ok && s.exec.worker == Rescheduling(Arming) && e.timer !in s.timers.handles + s.timers.lost)
    || (e.ArmMissed? && s.exec.worker == Rescheduling(Missed) && e.timer !in s.timers.handles + s.timers.lost)
  }

  function One(holds: bool): nat {
    if holds then 1 else 0
  }

  /** How many steps of a run from the start fit, each judged by the state it finds. */
  function Count(events: seq<Event>, fits: (State, Event) -> bool): nat {
    if events == [] then 0
    else
      var before, e := events[..|events| - 1], events[|events| - 1];
      Count(before, fits) + One(fits(Run(START, before), e))
  }

  /** The step creates callback task `t`. */
  predicate Creates(s: State, e: Event, t: nat) {
    match e
    case StateChange(u) => u == t && (s.listener || s.leaked > 0) && s.accepting && !s.stopping
    case TimerFires(timer, u, runs) => u == t && timer in s.timers.handles && s.accepting && runs
    case EnqueueTick(u) => u == t && s.accepting && !s.stopping
    case FiresEarly(u) => u == t && s.exec.worker == Rescheduling(Arming) && s.accepting
    case _ => false
  }

  /** What a step adds to the counts and to the callback tasks. */
  ghost predicate Counts(s: State, e: Event, t: State) {
    && t.seen.calls == s.seen.calls + One(BeginsCall(s, e))
    && t.seen.admitted == s.seen.admitted + One(Admits(s, e))
    && t.seen.armed == s.seen.armed + One(Arms(s, e))
    && OnlyRetires(s, t)
    && (forall k :: k in t.callbacks <==> e != CallbackDone(k) && (Creates(s, e, k) || k in s.callbacks))
  }

  /** Nothing begun, nothing created. */
  predicate Still(s: State, t: State) {
    && OnlyRetires(s, t) && t.callbacks == s.callbacks
    && t.seen.calls == s.seen.calls && t.seen.admitted == s.seen.admitted && t.seen.armed == s.seen.armed
  }

  predicate Beginning(e: Event) {
    EntryEvent(e) || e.DispatchOutput? || e.StartOp? || e.ArmTimer? || e.ArmMissed? || e.FiresEarly?
  }

  lemma SelfIsStill(s: State)
    ensures Still(s, s)
  {}

  lemma StillChain(s: State, t: State, u: State)
    requires Still(s, t) && Still(t, u)
    ensures Still(s, u)
  {}

  lemma SeenIsStill(s: State, t: State)
    requires t.callbacks == s.callbacks && t.seen == s.seen && OnlyRetires(s, t)
    ensures Still(s, t)
  {}

  lemma StillCounts(s: State, e: Event, t: State)
    requires Still(s, t) && !Beginning(e)
    ensures Counts(s, e, t)
  {}

  lemma WorkerIsStill(s: State, w: Worker)
    ensures Still(s, WithWorker(s, w))
  {}

  lemma FinishIsStill(s: State, t: TaskRef, failed: bool)
    ensures Still(s, Finish(s, t, failed))
  {}

  lemma DropIsStill(s: State)
    ensures Still(s, DropDeadline(s))
  {
    if s.deadline.Some? {
      assert DropDeadline(s).seen == s.seen;
    }
  }

  lemma CancelCurrentIsStill(s: State, ok: bool)
    ensures Still(s, CancelCurrentStep(s, ok))
  {
    hide Still, WithWorker, DropDeadline;
    SelfIsStill(s);
    WorkerIsStill(s, Idle);
    DropIsStill(s);
    WorkerIsStill(DropDeadline(s), Rescheduling(Checking));
    StillChain(s, DropDeadline(s), WithWorker(DropDeadline(s), Rescheduling(Checking)));
  }

  lemma CheckIsStill(s: State, due: bool)
    ensures Still(s, CheckStep(s, due))
  {
    hide Still, WithWorker;
    SelfIsStill(s);
    WorkerIsStill(s, Idle);
    WorkerIsStill(s, Rescheduling(Arming));
  }

  lemma StoreIsStill(s: State)
    ensures Still(s, StoreStep(s))
  {}

  lemma EndOpIsStill(s: State, t: TaskRef, failed: bool)
    ensures Still(s, Finish(WithWorker(s, Idle), t, failed))
  {
    hide Still, WithWorker, Finish;
    WorkerIsStill(s, Idle);
    FinishIsStill(WithWorker(s, Idle), t, failed);
    StillChain(s, WithWorker(s, Idle), Finish(WithWorker(s, Idle), t, failed));
  }

  lemma CleanupOpIsStill(s: State, e: Event)
    requires CleanupOpEvent(e)
    ensures Still(s, CleanupOpStep(s, e))
  {
    hide Still, WithWorker, Finish, DropDeadline;
    SelfIsStill(s);
    if s.exec.worker.Cleaning? {
      var t := s.exec.worker.task;
      EndOpIsStill(s, t, true);
      EndOpIsStill(s, t, false);
      DropIsStill(s);
      EndOpIsStill(DropDeadline(s), t, false);
      StillChain(s, DropDeadline(s), Finish(WithWorker(DropDeadline(s), Idle), t, false));
    }
    if e.SweepOne? {
      SeenIsStill(s, s.(timers := s.timers.(handles := s.timers.handles - {e.timer})));
    }
  }

  lemma SubmitTaskIsStill(s: State, t: TaskRef)
    ensures Still(s, SubmitTask(s, t))
  {
    hide Still, Finish;
    SelfIsStill(s);
    FinishIsStill(s, t, true);
    FinishIsStill(s, t, false);
    SeenIsStill(s, s.(exec := s.exec.(closing := true), submitted := s.submitted + {t}));
    SeenIsStill(
      s, s.(exec := s.exec.(queue := s.exec.queue + [CleanupOp(t)]), submitted := s.submitted + {t}));
  }

  lemma CloseEndIsStill(s: State, t: TaskRef, ok: bool)
    ensures Still(s, CloseEnd(s, t, ok))
  {
    hide Still, Finish;
    var closed := s.(exec := s.exec.(closed := true));
    SelfIsStill(s);
    FinishIsStill(s, t, true);
    SeenIsStill(s, closed);
    FinishIsStill(closed, t, false);
    StillChain(s, closed, Finish(closed, t, false));
  }

  lemma CancelTaskIsStill(s: State, t: TaskRef)
    ensures Still(s, CancelTask(s, t))
  {
    hide Finish;
    var r := s.(seen := s.seen.(cancelled := s.seen.cancelled + {t}));
    FinishIsStill(r, t, true);
  }

  lemma RecallIsStill(s: State, k: nat)
    ensures Still(s, RecallStep(s, k))
  {
    hide Still, Without;
    SelfIsStill(s);
    if k < |s.exec.queue| {
      SeenIsStill(s, s.(exec := s.exec.(queue := Without(s.exec.queue, k))));
    }
  }

  lemma TaskIsStill(s: State, e: Event)
    requires TaskEvent(e)
    ensures Still(s, TaskStep(s, e))
  {
    hide Still, SubmitTask, CloseEnd, CancelTask, RecallStep;
    match e
    case TaskSubmits(t) => SubmitTaskIsStill(s, t);
    case CloseEnds(t, ok) => CloseEndIsStill(s, t, ok);
    case TaskCancelled(t) => CancelTaskIsStill(s, t);
    case Recall(k) => RecallIsStill(s, k);
  }

  lemma SubmissionIsStill(s: State, e: Event)
    requires SubmissionEvent(e) && !e.DispatchOutput?
    ensures Still(s, SubmissionStep(s, e))
  {
    hide Still;
    SelfIsStill(s);
    match e
    case SubmitLogical(generation, call) =>
      SeenIsStill(s, s.(exec := s.exec.(queue := s.exec.queue + [Logical(generation, call)])));
    case StopRequest => SeenIsStill(s, RequestStop(s));
  }

  lemma RuntimeIsStill(s: State, e: Event)
    requires e.RequestOutput? || e.RuntimeReturns?
    ensures Still(s, RuntimeStep(s, e))
  {
    hide Still, WithWorker;
    SelfIsStill(s);
    WorkerIsStill(s, Requesting);
    WorkerIsStill(s, Idle);
  }

  lemma RescheduleIsStill(s: State, e: Event)
    requires RescheduleEvent(e) && !Beginning(e)
    ensures Still(s, RescheduleStep(s, e))
  {
    hide Still, CancelCurrentStep, CheckStep, StoreStep;
    match e
    case CancelCurrent(ok) => CancelCurrentIsStill(s, ok);
    case CheckAdmission(due) => CheckIsStill(s, due);
    case StoreDeadline => StoreIsStill(s);
  }

  /** What one step adds to the counts. */
  predicate Adds(s: State, t: State, calls: bool, admitted: bool, armed: bool) {
    && t.callbacks == s.callbacks && t.accepting == s.accepting && t.generation == s.generation
    && t.seen.calls == s.seen.calls + (if calls then 1 else 0)
    && t.seen.admitted == s.seen.admitted + (if admitted then 1 else 0)
    && t.seen.armed == s.seen.armed + (if armed then 1 else 0)
  }

  lemma LogicalAdds(s: State, generation: nat, call: Call)
    ensures Adds(s, StartedLogical(s, generation, call), false, s.accepting && generation == s.generation, false)
  {}

  lemma CleanupAdds(s: State, t: TaskRef)
    ensures Adds(s, StartedCleanup(s, t), false, false, false)
  {}

  lemma OpAdds(s: State, op: Op)
    ensures Adds(s, StartedOp(s, op), false, op.Logical? && s.accepting && op.generation == s.generation, false)
  {
    hide StartedLogical, StartedCleanup;
    if op.Logical? {
      LogicalAdds(s, op.generation, op.call);
    } else {
      CleanupAdds(s, op.task);
    }
  }

  lemma StartAdds(s: State)
    ensures Adds(s, StartNext(s), false, Admits(s, StartOp), false)
  {
    hide StartedOp;
    if s.exec.worker == Idle && s.exec.queue != [] {
      OpAdds(Popped(s), s.exec.queue[0]);
    }
  }

  lemma StartCounts(s: State)
    ensures Counts(s, StartOp, StartNext(s))
  {
    hide StartNext;
    StartAdds(s);
  }

  lemma ArmAdds(s: State, timer: nat, ok: bool)
    ensures Adds(s, ArmStep(s, timer, ok), false, false, Arms(s, ArmTimer(timer, ok)))
  {
    if Arms(s, ArmTimer(timer, ok)) {
      hide ArmStep;
      ArmedAdds(s, timer);
    } else if ok || s.exec.worker != Rescheduling(Arming) {
      assert ArmStep(s, timer, ok) == s;
    }
  }

  lemma ArmedAdds(s: State, timer: nat)
    requires s.exec.worker == Rescheduling(Arming) && timer !in s.timers.handles + s.timers.lost
    ensures Adds(s, ArmStep(s, timer, true), false, false, true)
  {}

  lemma ArmCounts(s: State, timer: nat, ok: bool)
    ensures Counts(s, ArmTimer(timer, ok), ArmStep(s, timer, ok))
  {
    hide ArmStep;
    ArmAdds(s, timer, ok);
  }

  lemma MissAdds(s: State, timer: nat)
    ensures Adds(s, ArmMissedStep(s, timer), false, false, Arms(s, ArmMissed(timer)))
  {}

  lemma MissCounts(s: State, timer: nat)
    ensures Counts(s, ArmMissed(timer), ArmMissedStep(s, timer))
  {
    hide ArmMissedStep;
    MissAdds(s, timer);
  }

  lemma DispatchAdds(s: State)
    ensures Adds(s, Dispatch(s), BeginsCall(s, DispatchOutput), false, false)
  {}

  lemma DispatchCounts(s: State)
    ensures Counts(s, DispatchOutput, Dispatch(s))
  {
    hide Dispatch;
    DispatchAdds(s);
  }

  lemma EarlyAdds(s: State, t: nat)
    ensures var r := FireEarly(s, t);
      r.seen == s.seen && r.accepting == s.accepting && r.generation == s.generation
      && r.callbacks == s.callbacks + (if s.exec.worker == Rescheduling(Arming) && s.accepting then {t} else {})
  {}

  lemma EarlyCounts(s: State, t: nat)
    ensures Counts(s, FiresEarly(t), FireEarly(s, t))
  {
    hide FireEarly;
    EarlyAdds(s, t);
  }

  lemma FiringAdds(s: State, timer: nat, t: nat, runs: bool)
    ensures var r := OnTimer(s, timer, t, runs);
      r.seen == s.seen && r.accepting == s.accepting && r.generation == s.generation
      && r.callbacks == s.callbacks + (if timer in s.timers.handles && s.accepting && runs then {t} else {})
  {}

  lemma FiringCounts(s: State, timer: nat, t: nat, runs: bool)
    ensures Counts(s, TimerFires(timer, t, runs), OnTimer(s, timer, t, runs))
  {
    hide OnTimer;
    FiringAdds(s, timer, t, runs);
  }

  lemma ChangeCounts(s: State, t: nat)
    ensures Counts(s, StateChange(t), OnStateChange(s, t))
  {}

  lemma TickCounts(s: State, t: nat)
    ensures Counts(s, EnqueueTick(t), OnTick(s, t))
  {}

  lemma DoneCounts(s: State, t: nat)
    ensures Counts(s, CallbackDone(t), OnCallbackDone(s, t))
  {}

  lemma EntryCounts(s: State, e: Event)
    requires EntryEvent(e)
    ensures Counts(s, e, EntryStep(s, e))
  {
    hide Counts, OnStateChange, OnTimer, OnTick, OnCallbackDone;
    match e
    case StateChange(t) => ChangeCounts(s, t);
    case TimerFires(timer, t, runs) => FiringCounts(s, timer, t, runs);
    case EnqueueTick(t) => TickCounts(s, t);
    case CallbackDone(t) => DoneCounts(s, t);
  }

  lemma BeginningCounts(s: State, e: Event)
    requires Beginning(e)
    ensures Counts(s, e, Apply(s, e))
  {
    hide Counts, EntryStep, Dispatch, StartNext, ArmStep, ArmMissedStep, FireEarly;
    if EntryEvent(e) {
      EntryCounts(s, e);
    } else {
      match e
      case DispatchOutput => DispatchCounts(s);
      case StartOp => StartCounts(s);
      case ArmTimer(timer, ok) => ArmCounts(s, timer, ok);
      case ArmMissed(timer) => MissCounts(s, timer);
      case FiresEarly(t) => EarlyCounts(s, t);
    }
  }

  lemma SideIsStill(s: State, e: Event)
    requires SideEvent(e) && !Beginning(e)
    ensures Still(s, Apply(s, e))
  {
    hide Still, SubmissionStep, RuntimeStep, RescheduleStep, CleanupOpStep, TaskStep;
    if SubmissionEvent(e) {
      SubmissionIsStill(s, e);
    } else if RuntimeEvent(e) {
      RuntimeIsStill(s, e);
    } else if RescheduleEvent(e) {
      RescheduleIsStill(s, e);
    } else if CleanupOpEvent(e) {
      CleanupOpIsStill(s, e);
    } else {
      TaskIsStill(s, e);
    }
  }

  /** The startup and the pass leave both alone. */
  lemma OtherIsStill(s: State, e: Event)
    requires !SideEvent(e)
    ensures Still(s, Apply(s, e))
  {
    hide Apply;
    OtherIsSameWorker(s, e);
  }

  lemma StepCounts(s: State, e: Event)
    ensures Counts(s, e, Apply(s, e))
  {
    hide Apply, Counts, Still;
    if Beginning(e) {
      BeginningCounts(s, e);
    } else {
      if SideEvent(e) {
        SideIsStill(s, e);
      } else {
        OtherIsStill(s, e);
      }
      StillCounts(s, e, Apply(s, e));
    }
  }

  lemma {:induction false} LastStep(events: seq<Event>)
    requires events != []
    ensures Run(START, events) == Apply(Run(START, events[..|events| - 1]), events[|events| - 1])
  {
    hide Apply, Run;
    var before, e := events[..|events| - 1], events[|events| - 1];
    assert events == before + [e];
    RunConcat(START, before, [e]);
    RunOne(Run(START, before), e);
  }

  /** Over any run: a service call has begun for exactly every dispatch that found the worker requesting and the port
      open, an operation was admitted for exactly every start that found a current logical operation first in line on
      an accepting host, and a timer armed for exactly every arming that went through. */
  lemma {:induction false} BegunIsCounted(events: seq<Event>)
    ensures var seen := Run(START, events).seen;
      seen.calls == Count(events, BeginsCall) && seen.admitted == Count(events, Admits)
      && seen.armed == Count(events, Arms)
    decreases |events|
  {
    hide Run, Apply, BeginsCall, Admits, Arms;
    if events == [] {
      assert Run(START, []) == START by { RunNothing(START); }
    } else {
      var before, e := events[..|events| - 1], events[|events| - 1];
      BegunIsCounted(before);
      LastStep(events);
      StepCounts(Run(START, before), e);
    }
  }

  lemma RunNothing(s: State)
    ensures Run(s, []) == s
  {}

  // ----- callbacks

  /** The task was created and has not ended since. */
  predicate Outstanding(events: seq<Event>, t: nat) {
    if events == [] then false
    else
      var before, e := events[..|events| - 1], events[|events| - 1];
      if e == CallbackDone(t) then false else Creates(Run(START, before), e, t) || Outstanding(before, t)
  }

  /** Over any run the callback tasks are exactly those created and not over: by a state change to a subscribed host
      that accepts and is not stopping, by the firing of a tracked timer whose callback runs, by the tick after it,
      or by a timer that fired before its registration. */
  lemma {:induction false} CallbacksAreOutstanding(events: seq<Event>, t: nat)
    ensures t in Run(START, events).callbacks <==> Outstanding(events, t)
    decreases |events|
  {
    hide Run, Apply, Creates;
    if events == [] {
      RunNothing(START);
    } else {
      var before, e := events[..|events| - 1], events[|events| - 1];
      CallbacksAreOutstanding(before, t);
      LastStep(events);
      StepCounts(Run(START, before), e);
    }
  }

  // ----- the order of operations

  /** The operation a step puts last in line, if any. */
  function LinesUp(s: State, e: Event): Option<Op> {
    match e
    case SubmitLogical(generation, call) =>
      if !s.exec.closing && generation <= s.generation then Some(Logical(generation, call)) else None
    case TaskSubmits(t) =>
      if Unsubmitted(s, t) && !t.step.ExecutorClose? && !s.exec.closing then Some(CleanupOp(t)) else None
    case _ => None
  }

  /** Everything submitted in a run from the start, in order and without what was recalled, and how much of that the
      worker has taken. */
  function Line(events: seq<Event>): (r: (seq<Op>, nat))
    ensures r.1 <= |r.0|
  {
    if events == [] then ([], 0)
    else
      var before, e := events[..|events| - 1], events[|events| - 1];
      var ((line, taken), s) := (Line(before), Run(START, before));
      if LinesUp(s, e).Some? then (line + [LinesUp(s, e).value], taken)
      else if e.StartOp? && s.exec.worker.Idle? && taken < |line| then (line, taken + 1)
      else if e.Recall? && taken + e.k < |line|
              && (line[taken + e.k].CleanupOp? ==> line[taken + e.k].task in s.seen.cancelled)
      then (Without(line, taken + e.k), taken)
      else (line, taken)
  }

  /** Where the queue is, the line is. */
  predicate Waits(queue: seq<Op>, line: seq<Op>, taken: nat)
    requires taken <= |line|
  {
    queue == line[taken..]
  }

  lemma SubmitLines(s: State, e: Event)
    requires e.SubmitLogical? || e.TaskSubmits?
    ensures var op := LinesUp(s, e);
      Apply(s, e).exec.queue == s.exec.queue + if op.Some? then [op.value] else []
  {
    if e.TaskSubmits? {
      hide Finish, SubmitTask;
      TaskLines(s, e.task);
    }
  }

  lemma TaskLines(s: State, t: TaskRef)
    ensures var op := LinesUp(s, TaskSubmits(t));
      SubmitTask(s, t).exec.queue == s.exec.queue + if op.Some? then [op.value] else []
  {
    hide SubmitTask, Unsubmitted;
    if Unsubmitted(s, t) && !t.step.ExecutorClose? && !s.exec.closing {
      OperationLines(s, t);
    } else {
      NoOperationLines(s, t);
    }
  }

  lemma OperationLines(s: State, t: TaskRef)
    requires Unsubmitted(s, t) && !t.step.ExecutorClose? && !s.exec.closing
    ensures SubmitTask(s, t).exec.queue == s.exec.queue + [CleanupOp(t)]
  {
    hide Unsubmitted, Finish;
  }

  lemma NoOperationLines(s: State, t: TaskRef)
    requires !(Unsubmitted(s, t) && !t.step.ExecutorClose? && !s.exec.closing)
    ensures SubmitTask(s, t).exec.queue == s.exec.queue
  {
    hide Unsubmitted, Finish;
    FinishKeepsQueue(s, t, true);
    FinishKeepsQueue(s, t, false);
  }

  lemma FinishKeepsQueue(s: State, t: TaskRef, failed: bool)
    ensures Finish(s, t, failed).exec == s.exec
  {}

  lemma TasksKeepQueue(s: State, t: TaskRef, ok: bool)
    ensures CloseEnd(s, t, ok).exec.queue == s.exec.queue && CancelTask(s, t).exec.queue == s.exec.queue
  {
    hide Finish;
    FinishKeepsQueue(s, t, true);
    FinishKeepsQueue(s.(exec := s.exec.(closed := true)), t, false);
    FinishKeepsQueue(s.(seen := s.seen.(cancelled := s.seen.cancelled + {t})), t, true);
  }

  lemma EndsKeepQueue(s: State, ok: bool)
    ensures DeadlineCancelEnd(s, ok).exec.queue == s.exec.queue && SweepEnd(s, ok).exec.queue == s.exec.queue
  {
    hide Finish, DropDeadline;
    DropKeepsWork(s);
    if s.exec.worker.Cleaning? {
      FinishKeepsQueue(WithWorker(DropDeadline(s), Idle), s.exec.worker.task, false);
      FinishKeepsQueue(WithWorker(s, Idle), s.exec.worker.task, true);
      FinishKeepsQueue(WithWorker(s, Idle), s.exec.worker.task, false);
    }
  }

  lemma OthersKeepQueue(s: State, e: Event)
    requires !e.SubmitLogical? && !e.TaskSubmits? && !e.StartOp? && !e.Recall?
    ensures Apply(s, e).exec.queue == s.exec.queue
  {
    hide DeadlineCancelEnd, SweepEnd, CloseEnd, CancelTask;
    if WorkEvent(e) {
      if e.DeadlineCancelEnds? || e.SweepEnds? {
        EndsKeepQueue(s, e.ok);
      } else if e.CloseEnds? {
        TasksKeepQueue(s, e.task, e.ok);
      } else {
        TasksKeepQueue(s, e.task, true);
      }
    } else {
      hide Apply;
      OtherStepsAreSameWork(s, e);
    }
  }

  lemma StartedKeepsQueue(s: State, op: Op)
    ensures StartedOp(s, op).exec.queue == s.exec.queue
  {
    if op.Logical? {
      assert StartedLogical(s, op.generation, op.call).exec.queue == s.exec.queue;
    }
  }

  lemma StartTakesFirst(s: State)
    ensures StartNext(s).exec.queue ==
            if s.exec.worker.Idle? && s.exec.queue != [] then s.exec.queue[1..] else s.exec.queue
  {
    hide StartedOp;
    if s.exec.worker.Idle? && s.exec.queue != [] {
      StartedKeepsQueue(Popped(s), s.exec.queue[0]);
    }
  }

  lemma LineAppended(line: seq<Op>, taken: nat, op: Op)
    requires taken <= |line|
    ensures (line + [op])[taken..] == line[taken..] + [op]
  {}

  lemma LineRecalled(line: seq<Op>, taken: nat, k: nat)
    requires taken + k < |line|
    ensures Without(line, taken + k)[taken..] == Without(line[taken..], k)
  {}

  lemma RecalledQueue(s: State, k: nat)
    ensures Apply(s, Recall(k)).exec.queue ==
      if k < |s.exec.queue| && (s.exec.queue[k].CleanupOp? ==> s.exec.queue[k].task in s.seen.cancelled)
      then Without(s.exec.queue, k) else s.exec.queue
  {}

  lemma StartApplies(s: State)
    ensures Apply(s, StartOp) == StartNext(s)
  {
    hide StartNext;
  }

  /** The executor is first in, first out: in every interleaving what waits in its queue is exactly what was submitted
      in time and not recalled, in that order, behind what the worker has taken. */
  lemma {:induction false} QueueIsTheLine(events: seq<Event>)
    ensures Waits(Run(START, events).exec.queue, Line(events).0, Line(events).1)
    decreases |events|
  {
    hide Run, Apply, Without, LinesUp;
    if events == [] {
      RunNothing(START);
    } else {
      var before, e := events[..|events| - 1], events[|events| - 1];
      var (line, taken) := Line(before);
      var s := Run(START, before);
      QueueIsTheLine(before);
      LastStep(events);
      if e.SubmitLogical? || e.TaskSubmits? {
        SubmitLines(s, e);
        if LinesUp(s, e).Some? {
          LineAppended(line, taken, LinesUp(s, e).value);
        }
      } else {
        NothingLinesUp(s, e);
        if e.StartOp? {
          StartApplies(s);
          StartTakesFirst(s);
        } else if e.Recall? {
          RecalledQueue(s, e.k);
          if e.k < |s.exec.queue| {
            LineRecalled(line, taken, e.k);
          }
        } else {
          OthersKeepQueue(s, e);
        }
      }
    }
  }

  lemma NothingLinesUp(s: State, e: Event)
    requires !e.SubmitLogical? && !e.TaskSubmits?
    ensures LinesUp(s, e).None?
  {}

  /** What the worker goes into with an operation. */
  function Enters(s: State, op: Op): Worker {
    match op
    case CleanupOp(t) => Cleaning(t)
    case Logical(generation, call) =>
      if !s.accepting || generation != s.generation then Idle
      else if call.RuntimeCall? then InRuntime else Rescheduling(Cancelling)
  }

  lemma StartedEnters(s: State, op: Op)
    requires s.exec.worker.Idle?
    ensures StartedOp(s, op).exec.worker == Enters(s, op)
  {}

  /** And the idle worker goes into the oldest of them: a cleanup operation in any case, a logical one only if the host
      accepts and has not moved on to another generation since. */
  lemma {:induction false} OldestIsEntered(events: seq<Event>)
    requires Run(START, events).exec.worker.Idle? && Line(events).1 < |Line(events).0|
    ensures var s := Run(START, events);
      Apply(s, StartOp).exec.worker == Enters(s, Line(events).0[Line(events).1])
  {
    hide Run, Apply, StartedOp, Enters;
    var s := Run(START, events);
    QueueIsTheLine(events);
    StartApplies(s);
    StartedEnters(Popped(s), s.exec.queue[0]);
    PoppedEnters(s, s.exec.queue[0]);
  }

  lemma PoppedEnters(s: State, op: Op)
    requires s.exec.queue != []
    ensures Enters(Popped(s), op) == Enters(s, op)
  {}

  // ----- an accepting host gets a call and a reschedule done

  lemma RunThree(s: State, e: Event, f: Event, g: Event)
    ensures Run(s, [e, f, g]) == Apply(Apply(Apply(s, e), f), g)
  {
    hide Apply, Run;
    RunConcat(s, [e, f], [g]);
    RunTwo(s, e, f);
    RunOne(Apply(Apply(s, e), f), g);
    assert [e, f] + [g] == [e, f, g];
  }

  ghost predicate Ready(s: State) {
    Inv(s) && s.accepting && s.exec.worker == Idle && s.exec.queue == []
  }

  function Admitted(s: State, w: Worker): State {
    s.(exec := s.exec.(worker := w), seen := s.seen.(admitted := s.seen.admitted + 1))
  }

  lemma AcceptingIsOpen(s: State)
    requires Inv(s) && s.accepting
    ensures !s.exec.closing && !s.portQuiescent && !s.timers.closed
  {}

  lemma Submits(s: State, call: Call)
    requires !s.exec.closing && s.exec.queue == []
    ensures Apply(s, SubmitLogical(s.generation, call))
         == s.(exec := s.exec.(queue := [Logical(s.generation, call)]))
  {
    assert [] + [Logical(s.generation, call)] == [Logical(s.generation, call)];
  }

  lemma PoppedBack(s: State, op: Op)
    requires s.exec.queue == []
    ensures Popped(s.(exec := s.exec.(queue := [op]))) == s
  {
    assert [op][1..] == [];
  }

  lemma StartsLogical(s: State, call: Call)
    requires s.accepting
    ensures StartedOp(s, Logical(s.generation, call))
         == Admitted(s, if call.RuntimeCall? then InRuntime else Rescheduling(Cancelling))
  {}

  lemma Starts(s: State, call: Call)
    requires s.accepting && s.exec.worker == Idle && s.exec.queue == []
    ensures Apply(s.(exec := s.exec.(queue := [Logical(s.generation, call)])), StartOp)
         == Admitted(s, if call.RuntimeCall? then InRuntime else Rescheduling(Cancelling))
  {
    hide Apply, StartedOp, Popped, Admitted;
    var queued := s.(exec := s.exec.(queue := [Logical(s.generation, call)]));
    PoppedBack(s, Logical(s.generation, call));
    StartsLogical(s, call);
    StartApplies(queued);
  }

  lemma IsAdmitted(s: State, call: Call)
    requires Ready(s)
    ensures Run(s, [SubmitLogical(s.generation, call), StartOp])
         == Admitted(s, if call.RuntimeCall? then InRuntime else Rescheduling(Cancelling))
  {
    hide Apply, Run, Inv, Admitted;
    AcceptingIsOpen(s);
    RunTwo(s, SubmitLogical(s.generation, call), StartOp);
    Submits(s, call);
    Starts(s, call);
  }

  lemma RequestWaits(s: State)
    requires s.exec.worker == InRuntime && !s.portQuiescent
    ensures Apply(s, RequestOutput) == WithWorker(s, Requesting)
  {}

  lemma DispatchBegins(s: State)
    requires s.exec.worker == InRuntime && !s.portQuiescent
    ensures Apply(WithWorker(s, Requesting), DispatchOutput) == s.(seen := s.seen.(calls := s.seen.calls + 1))
  {}

  lemma Returns(s: State)
    requires s.exec.worker == InRuntime
    ensures Apply(s, RuntimeReturns) == WithWorker(s, Idle)
  {}

  lemma CallGoesOut(s: State)
    requires s.exec.worker == InRuntime && !s.portQuiescent
    ensures Run(s, [RequestOutput, DispatchOutput, RuntimeReturns])
         == s.(exec := s.exec.(worker := Idle), seen := s.seen.(calls := s.seen.calls + 1))
  {
    hide Apply, Run;
    RunThree(s, RequestOutput, DispatchOutput, RuntimeReturns);
    RequestWaits(s);
    DispatchBegins(s);
    Returns(s.(seen := s.seen.(calls := s.seen.calls + 1)));
  }

  /** From every reachable state of an accepting host with an idle worker, a runtime call that is submitted goes through
      the runtime's request to the service call on the loop, and leaves nothing else behind. */
  lemma {:induction false} SubmittedCallGoesOut(events: seq<Event>)
    requires var s := Run(START, events); s.accepting && s.exec.worker == Idle && s.exec.queue == []
    ensures var s := Run(START, events);
      Run(s, [SubmitLogical(s.generation, RuntimeCall), StartOp] + [RequestOutput, DispatchOutput, RuntimeReturns])
        == s.(seen := s.seen.(admitted := s.seen.admitted + 1, calls := s.seen.calls + 1))
  {
    hide Apply, Run, Inv, PassInv;
    var s := Run(START, events);
    StartIsSound();
    RunKeepsInv(START, events);
    RunConcat(s, [SubmitLogical(s.generation, RuntimeCall), StartOp], [RequestOutput, DispatchOutput, RuntimeReturns]);
    AcceptingIsOpen(s);
    IsAdmitted(s, RuntimeCall);
    CallGoesOut(Admitted(s, InRuntime));
  }

  lemma ClosedPortRefuses(s: State)
    requires s.portQuiescent
    ensures s.exec.worker == InRuntime ==> Apply(s, RequestOutput) == s
    ensures s.exec.worker.Requesting? ==> Apply(s, DispatchOutput) == WithWorker(s, InRuntime)
  {}

  /** Whatever happens after a stop request, a request of the runtime is refused on the spot, and one that waited for
      the loop returns without a service call. */
  lemma {:induction false} NoRequestAfterStop(events: seq<Event>, later: seq<Event>)
    ensures var s := Run(Apply(Run(START, events), StopRequest), later);
      && (s.exec.worker == InRuntime ==> Apply(s, RequestOutput) == s)
      && (s.exec.worker.Requesting? ==> Apply(s, DispatchOutput) == WithWorker(s, InRuntime))
  {
    hide Run, Apply;
    PortStaysClosed(events, later);
    ClosedPortRefuses(Run(Apply(Run(START, events), StopRequest), later));
  }

  /** So there is a run from the start that makes its one call. */
  lemma FirstCallGoesOut()
    ensures Run(START, [SubmitLogical(0, RuntimeCall), StartOp] + [RequestOutput, DispatchOutput, RuntimeReturns])
         == START.(seen := START.seen.(admitted := 1, calls := 1))
  {
    hide Apply;
    RunNothing(START);
    hide Run;
    SubmittedCallGoesOut([]);
  }

  /** The tracked timers without the deadline's. */
  function Undue(s: State): set<nat> {
    if s.deadline.Some? then s.timers.handles - {s.deadline.value} else s.timers.handles
  }

  lemma CurrentIsCancelled(s: State)
    requires s.exec.worker == Rescheduling(Cancelling)
    ensures Apply(s, CancelCurrent(true))
         == s.(exec := s.exec.(worker := Rescheduling(Checking)), deadline := None,
               timers := s.timers.(handles := Undue(s)))
  {}

  lemma DueIsChecked(s: State, due: bool)
    requires s.accepting && s.exec.worker == Rescheduling(Checking)
    ensures Apply(s, CheckAdmission(due)) == WithWorker(s, if due then Rescheduling(Arming) else Idle)
  {}

  lemma DeadlineIsCancelled(s: State, due: bool)
    requires s.accepting && s.exec.worker == Rescheduling(Cancelling)
    ensures Run(s, [CancelCurrent(true), CheckAdmission(due)])
         == s.(exec := s.exec.(worker := if due then Rescheduling(Arming) else Idle), deadline := None,
               timers := s.timers.(handles := Undue(s)))
  {
    hide Apply, Run, Undue;
    RunTwo(s, CancelCurrent(true), CheckAdmission(due));
    CurrentIsCancelled(s);
    DueIsChecked(Apply(s, CancelCurrent(true)), due);
  }

  lemma Arm(s: State, timer: nat)
    requires s.exec.worker == Rescheduling(Arming) && !s.timers.closed
    requires timer !in s.timers.handles + s.timers.lost
    ensures Apply(s, ArmTimer(timer, true))
         == s.(exec := s.exec.(worker := Rescheduling(Storing(timer))),
               timers := s.timers.(handles := s.timers.handles + {timer}),
               seen := s.seen.(armed := s.seen.armed + 1))
  {}

  lemma Store(s: State, timer: nat)
    requires s.exec.worker == Rescheduling(Storing(timer))
    ensures Apply(s, StoreDeadline) == s.(exec := s.exec.(worker := Idle), deadline := Some(timer))
  {}

  lemma TimerIsArmed(s: State, timer: nat)
    requires s.exec.worker == Rescheduling(Arming) && !s.timers.closed
    requires timer !in s.timers.handles + s.timers.lost
    ensures Run(s, [ArmTimer(timer, true), StoreDeadline])
         == s.(exec := s.exec.(worker := Idle), deadline := Some(timer),
               timers := s.timers.(handles := s.timers.handles + {timer}),
               seen := s.seen.(armed := s.seen.armed + 1))
  {
    hide Apply, Run;
    RunTwo(s, ArmTimer(timer, true), StoreDeadline);
    Arm(s, timer);
    Store(Apply(s, ArmTimer(timer, true)), timer);
  }

  /** A reschedule that is submitted to such a host replaces the deadline: the timer there was is cancelled and gone,
      and the new one is tracked and becomes the deadline, or there is none if the runtime wants none. When the
      new timer fires, its callback task is there. */
  lemma {:induction false} RescheduleReplacesTheDeadline(events: seq<Event>, timer: nat, task: nat)
    requires var s := Run(START, events); s.accepting && s.exec.worker == Idle && s.exec.queue == []
    requires timer !in Run(START, events).timers.handles + Run(START, events).timers.lost
    ensures var s := Run(START, events);
      var submitted := [SubmitLogical(s.generation, Reschedule), StartOp];
      var t := Run(s, submitted + [CancelCurrent(true), CheckAdmission(true)] + [ArmTimer(timer, true), StoreDeadline]);
      && t == s.(deadline := Some(timer), timers := s.timers.(handles := Undue(s) + {timer}),
                 seen := s.seen.(admitted := s.seen.admitted + 1, armed := s.seen.armed + 1))
      && Apply(t, TimerFires(timer, task, true)) ==
           t.(timers := s.timers.(handles := Undue(s)), callbacks := s.callbacks + {task})
      && Run(s, submitted + [CancelCurrent(true), CheckAdmission(false)]) ==
           s.(deadline := None, timers := s.timers.(handles := Undue(s)),
              seen := s.seen.(admitted := s.seen.admitted + 1))
  {
    hide Apply, Run, Inv, PassInv;
    var s := Run(START, events);
    StartIsSound();
    RunKeepsInv(START, events);
    AcceptingIsOpen(s);
    var a: seq<Event> := [SubmitLogical(s.generation, Reschedule), StartOp];
    var b: seq<Event> := [CancelCurrent(true), CheckAdmission(true)];
    var r := Admitted(s, Rescheduling(Cancelling));
    IsAdmitted(s, Reschedule);
    RunConcat(s, a, b);
    RunConcat(s, a + b, [ArmTimer(timer, true), StoreDeadline]);
    RunConcat(s, a, [CancelCurrent(true), CheckAdmission(false)]);
    DeadlineIsCancelled(r, true);
    DeadlineIsCancelled(r, false);
    TimerIsArmed(Run(r, b), timer);
    TimerIsDelivered(s, timer, task);
  }

  lemma TimerIsDelivered(s: State, timer: nat, task: nat)
    requires s.accepting && timer !in s.timers.handles
    ensures var t := s.(deadline := Some(timer), timers := s.timers.(handles := Undue(s) + {timer}),
                        seen := s.seen.(admitted := s.seen.admitted + 1, armed := s.seen.armed + 1));
      Apply(t, TimerFires(timer, task, true)) ==
        t.(timers := s.timers.(handles := Undue(s)), callbacks := s.callbacks + {task})
  {
    assert Undue(s) + {timer} - {timer} == Undue(s);
  }

  // ----- the start

  /** The state of a start that waits for its snapshot: subscribed, over whatever subscription there was. */
  function Begun(s: State): State {
    s.(listener := true, leaked := s.leaked + (if s.listener then 1 else 0), lock := Initializing)
  }

  lemma Begins(s: State, unsubscribed: bool)
    requires s.lock.Free? && !s.initialized && !s.stopping && !s.stopped
    ensures Apply(s, InitBegin(false, unsubscribed)) == Begun(s)
    ensures Apply(s, InitBegin(true, unsubscribed)) == Retire(s.(listener := s.listener && !unsubscribed))
  {
    hide Retire;
  }

  lemma Initializes(s: State, unsubscribed: bool)
    requires s.lock.Initializing?
    ensures Apply(s, InitEnds) == s.(initialized := true, lock := Free)
    ensures Apply(s, InitFails(unsubscribed)) == Retire(s.(listener := s.listener && !unsubscribed, lock := Free))
  {
    hide Retire;
  }

  /** A start that finds its turn takes the subscription and, unless it fails, leaves the host initialized. One that
      fails keeps the subscription exactly if it cannot unsubscribe, and retires admission. */
  lemma StartTakesItsTurn(s: State, unsubscribed: bool)
    requires s.lock.Free? && !s.initialized && !s.stopping && !s.stopped
    ensures Run(s, [InitBegin(false, unsubscribed), InitEnds]) == Begun(s).(initialized := true, lock := Free)
    ensures Run(s, [InitBegin(false, unsubscribed), InitFails(unsubscribed)]) ==
            Retire(Begun(s).(listener := !unsubscribed, lock := Free))
    ensures Apply(s, InitBegin(true, unsubscribed)) == Retire(s.(listener := s.listener && !unsubscribed))
  {
    hide Apply, Run, Retire;
    RunTwo(s, InitBegin(false, unsubscribed), InitEnds);
    RunTwo(s, InitBegin(false, unsubscribed), InitFails(unsubscribed));
    Begins(s, unsubscribed);
    Initializes(Begun(s), unsubscribed);
  }

  /** The generation tells whether admission was retired, and it is retired once. */
  lemma {:induction false} RetiredOnce(events: seq<Event>)
    ensures var s := Run(START, events); s.generation == if s.accepting then 0 else 1
    decreases |events|
  {
    hide Run, Apply;
    if events == [] {
      RunNothing(START);
    } else {
      var before := events[..|events| - 1];
      RetiredOnce(before);
      LastStep(events);
      StepCounts(Run(START, before), events[|events| - 1]);
    }
  }
}
