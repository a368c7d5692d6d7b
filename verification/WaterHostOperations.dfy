/** The cleanup tasks of the Water Safety host and their operations on the way through the executor. Cancelling
    a cleanup task does not recall an operation the worker is inside, and that alone can put two operations of
    one step in flight. */
module WaterHostOperations {
  import opened Wrappers
  import opened WaterHost
  import opened WaterHostInvariant
  import opened WaterHostPasses
  import opened WaterHostProofs

  /** The task's operation is queued or running. */
  predicate InFlight(s: State, t: TaskRef) {
    s.exec.worker == Cleaning(t) || CleanupOp(t) in s.exec.queue
  }

  predicate NoCleanupOpTwice(queue: seq<Op>) {
    forall i, j | 0 <= i < j < |queue| :: queue[i].CleanupOp? ==> queue[i] != queue[j]
  }

  /** Every cleanup operation is in the executor at most once, and one whose task has already ended belongs to
      a task that was cancelled. */
  ghost predicate Single(s: State) {
    && NoCleanupOpTwice(s.exec.queue)
    && (s.exec.worker.Cleaning? ==> CleanupOp(s.exec.worker.task) !in s.exec.queue)
    && (forall op <- s.exec.queue :: op.CleanupOp? && op.task in s.results ==> op.task in s.seen.cancelled)
    && (s.exec.worker.Cleaning? && s.exec.worker.task in s.results ==> s.exec.worker.task in s.seen.cancelled)
  }

  /** No operation came or went except by ending, and no task ended. */
  predicate SameWork(s: State, t: State) {
    && t.exec.queue == s.exec.queue
    && (t.exec.worker.Cleaning? ==> t.exec.worker == s.exec.worker)
    && t.results == s.results && t.submitted == s.submitted && s.seen.cancelled <= t.seen.cancelled
  }

  lemma SameWorkKeepsSingle(s: State, t: State)
    requires Single(s) && SameWork(s, t)
    ensures Single(t)
  {}

  lemma SelfIsSameWork(s: State)
    ensures SameWork(s, s)
  {}

  lemma FiringIsSameWork(s: State, timer: nat, t: nat, runs: bool)
    ensures SameWork(s, OnTimer(s, timer, t, runs))
  {
    hide SameWork;
    SelfIsSameWork(s);
    if timer in s.timers.handles {
      OutsideIsSameWork(s, OnTimer(s, timer, t, runs));
    }
  }

  lemma EntryIsSameWork(s: State, e: Event)
    requires EntryEvent(e)
    ensures SameWork(s, EntryStep(s, e))
  {
    hide SameWork, OnTimer;
    SelfIsSameWork(s);
    match e
    case StateChange(t) => OutsideIsSameWork(s, AddCallback(s, t));
    case TimerFires(timer, t, runs) => FiringIsSameWork(s, timer, t, runs);
    case EnqueueTick(t) => OutsideIsSameWork(s, AddCallback(s, t));
    case CallbackDone(t) => OutsideIsSameWork(s, OnCallbackDone(s, t));
  }

  lemma OutsideIsSameWork(s: State, t: State)
    requires t.exec == s.exec && t.results == s.results && t.submitted == s.submitted && t.seen == s.seen
    ensures SameWork(s, t)
  {}

  /** The worker goes on within its operation, or ends one that is no cleanup. */
  lemma WorkerIsSameWork(s: State, t: State, w: Worker)
    requires t.exec == s.exec.(worker := w) && !w.Cleaning?
    requires t.results == s.results && t.submitted == s.submitted && t.seen.cancelled == s.seen.cancelled
    ensures SameWork(s, t)
  {}

  lemma DispatchIsSameWork(s: State)
    ensures SameWork(s, Dispatch(s))
  {
    hide SameWork;
    SelfIsSameWork(s);
    if s.exec.worker.Requesting? {
      WorkerIsSameWork(s, Dispatch(s), InRuntime);
    }
  }

  lemma RuntimeIsSameWork(s: State)
    ensures SameWork(s, Request(s)) && SameWork(s, ReturnFromRuntime(s))
  {
    hide SameWork;
    SelfIsSameWork(s);
    WorkerIsSameWork(s, WithWorker(s, Requesting), Requesting);
    WorkerIsSameWork(s, WithWorker(s, Idle), Idle);
  }

  lemma DropKeepsWork(s: State)
    ensures var t := DropDeadline(s);
      t.exec == s.exec && t.results == s.results && t.submitted == s.submitted && t.seen == s.seen
  {
    if s.deadline.None? {
      assert DropDeadline(s) == s;
    }
  }

  lemma CancelCurrentIsSameWork(s: State, ok: bool)
    ensures SameWork(s, CancelCurrentStep(s, ok))
  {
    hide SameWork, DropDeadline;
    SelfIsSameWork(s);
    DropKeepsWork(s);
    WorkerIsSameWork(s, WithWorker(s, Idle), Idle);
    WorkerIsSameWork(s, WithWorker(DropDeadline(s), Rescheduling(Checking)), Rescheduling(Checking));
  }

  lemma CheckIsSameWork(s: State, due: bool)
    ensures SameWork(s, CheckStep(s, due))
  {
    hide SameWork;
    SelfIsSameWork(s);
    WorkerIsSameWork(s, WithWorker(s, Idle), Idle);
    WorkerIsSameWork(s, WithWorker(s, Rescheduling(Arming)), Rescheduling(Arming));
  }

  lemma ArmIsSameWork(s: State, timer: nat, ok: bool)
    ensures SameWork(s, ArmStep(s, timer, ok))
  {
    hide SameWork;
    SelfIsSameWork(s);
    WorkerIsSameWork(s, WithWorker(s, Idle), Idle);
    if ArmStep(s, timer, ok).exec == s.exec.(worker := Rescheduling(Storing(timer))) {
      WorkerIsSameWork(s, ArmStep(s, timer, ok), Rescheduling(Storing(timer)));
    }
  }

  lemma MissIsSameWork(s: State, t: nat, timer: nat)
    ensures SameWork(s, FireEarly(s, t)) && SameWork(s, ArmMissedStep(s, timer))
  {
    hide SameWork;
    SelfIsSameWork(s);
    if s.exec.worker == Rescheduling(Arming) {
      WorkerIsSameWork(s, FireEarly(s, t), Rescheduling(Missed));
    } else if s.exec.worker == Rescheduling(Missed) && timer !in s.timers.handles + s.timers.lost {
      WorkerIsSameWork(s, ArmMissedStep(s, timer), Rescheduling(Storing(timer)));
    }
  }

  lemma StoreIsSameWork(s: State)
    ensures SameWork(s, StoreStep(s))
  {
    hide SameWork;
    SelfIsSameWork(s);
    if s.exec.worker.Rescheduling? && s.exec.worker.stage.Storing? {
      WorkerIsSameWork(s, StoreStep(s), Idle);
    }
  }

  lemma RescheduleIsSameWork(s: State, e: Event)
    requires RescheduleEvent(e)
    ensures SameWork(s, RescheduleStep(s, e))
  {
    hide SameWork, CancelCurrentStep, CheckStep, ArmStep, FireEarly, ArmMissedStep, StoreStep;
    match e
    case CancelCurrent(ok) => CancelCurrentIsSameWork(s, ok);
    case CheckAdmission(due) => CheckIsSameWork(s, due);
    case ArmTimer(timer, ok) => ArmIsSameWork(s, timer, ok);
    case FiresEarly(t) => MissIsSameWork(s, t, 0);
    case ArmMissed(timer) => MissIsSameWork(s, 0, timer);
    case StoreDeadline => StoreIsSameWork(s);
  }

  lemma SweepOneIsSameWork(s: State, timer: nat)
    ensures SameWork(s, SweepOneStep(s, timer))
  {
    hide SameWork;
    SelfIsSameWork(s);
    OutsideIsSameWork(s, s.(timers := s.timers.(handles := s.timers.handles - {timer})));
  }

  lemma StopRequestIsSameWork(s: State)
    ensures SameWork(s, RequestStop(s))
  {
    hide SameWork;
    OutsideIsSameWork(s, RequestStop(s));
  }

  /** The events by which an operation or a task's end can come or go. */
  predicate WorkEvent(e: Event) {
    e.SubmitLogical? || e.StartOp? || e.DeadlineCancelEnds? || e.SweepEnds? || TaskEvent(e)
  }

  lemma OtherStepsAreSameWork(s: State, e: Event)
    requires !WorkEvent(e)
    ensures SameWork(s, Apply(s, e))
  {
    hide SameWork, SameWorker, EntryStep, RescheduleStep, Dispatch, RequestStop, Request,
         ReturnFromRuntime, SweepOneStep;
    hide StartupStep, PassStartStep, PassExitStep, LateConsume, ResolveStep, PassEndStep;
    if EntryEvent(e) {
      EntryIsSameWork(s, e);
    } else if e.StopRequest? {
      StopRequestIsSameWork(s);
    } else if e.DispatchOutput? {
      DispatchIsSameWork(s);
    } else if RuntimeEvent(e) {
      RuntimeIsSameWork(s);
    } else if e.SweepOne? {
      SweepOneIsSameWork(s, e.timer);
    } else if RescheduleEvent(e) {
      RescheduleIsSameWork(s, e);
    } else {
      OtherIsSameWorker(s, e);
      SameWorkerIsSameWork(s, Apply(s, e));
    }
  }

  lemma SameWorkerIsSameWork(s: State, t: State)
    requires SameWorker(s, t)
    ensures SameWork(s, t)
  {}

  lemma AppendKeepsSingle(s: State, op: Op)
    requires Single(s)
    requires op.CleanupOp? ==> !InFlight(s, op.task) && op.task !in s.results
    ensures Single(s.(exec := s.exec.(queue := s.exec.queue + [op])))
  {}

  lemma SubmitKeepsSingle(s: State, generation: nat, call: Call)
    requires Single(s)
    ensures Single(Submit(s, generation, call))
  {
    hide Single;
    AppendKeepsSingle(s, Logical(generation, call));
  }

  /** A task's operation is queued once: its first submission is remembered. */
  lemma SubmittedOnce(s: State, t: TaskRef)
    requires Inv(s) && t !in s.submitted
    ensures !InFlight(s, t)
  {}

  lemma SubmittedKeepsSingle(s: State, t: TaskRef)
    requires Single(s)
    ensures Single(s.(submitted := s.submitted + {t}))
    ensures Single(s.(exec := s.exec.(closing := true), submitted := s.submitted + {t}))
  {}

  lemma SubmitTaskKeepsSingle(s: State, t: TaskRef)
    requires Inv(s) && Single(s)
    ensures Single(SubmitTask(s, t))
  {
    hide Inv, Single, InFlight, Finish;
    if Unsubmitted(s, t) {
      SubmittedOnce(s, t);
      FinishKeepsSingle(s, t, true);
      FinishKeepsSingle(s, t, false);
      AppendKeepsSingle(s, CleanupOp(t));
      SubmittedKeepsSingle(s, t);
      SubmittedKeepsSingle(s.(exec := s.exec.(queue := s.exec.queue + [CleanupOp(t)])), t);
    }
  }

  /** A task may end with a result once its operation has left the executor, or by being cancelled. */
  lemma FinishKeepsSingle(s: State, t: TaskRef, failed: bool)
    requires Single(s) && (!InFlight(s, t) || t in s.seen.cancelled)
    ensures Single(Finish(s, t, failed))
  {
    hide NoCleanupOpTwice;
    if t !in s.results {
      assert Finish(s, t, failed) == s.(results := s.results[t := failed]);
    }
  }

  lemma DroppedFirst(queue: seq<Op>)
    requires NoCleanupOpTwice(queue) && queue != []
    ensures NoCleanupOpTwice(queue[1..]) && (queue[0].CleanupOp? ==> queue[0] !in queue[1..])
  {}

  lemma PoppedKeepsSingle(s: State)
    requires Single(s) && s.exec.queue != [] && s.exec.worker == Idle
    ensures Single(Popped(s))
    ensures var op := s.exec.queue[0];
      op.CleanupOp? ==> op !in s.exec.queue[1..] && (op.task in s.results ==> op.task in s.seen.cancelled)
  {
    DroppedFirst(s.exec.queue);
  }

  lemma StartedKeepsSingle(s: State, op: Op)
    requires Single(s) && s.exec.worker == Idle
    requires op.CleanupOp? ==> op !in s.exec.queue && (op.task in s.results ==> op.task in s.seen.cancelled)
    ensures Single(StartedOp(s, op))
  {}

  lemma StartKeepsSingle(s: State)
    requires Single(s)
    ensures Single(StartNext(s))
  {
    hide Single, StartedOp;
    if s.exec.worker == Idle && s.exec.queue != [] {
      PoppedKeepsSingle(s);
      StartedKeepsSingle(Popped(s), s.exec.queue[0]);
    }
  }

  lemma EndOpKeepsSingle(s: State, failed: bool)
    requires Single(s) && s.exec.worker.Cleaning?
    ensures Single(Finish(WithWorker(s, Idle), s.exec.worker.task, failed))
  {
    hide Finish;
    WorkerIsSameWork(s, WithWorker(s, Idle), Idle);
    SameWorkKeepsSingle(s, WithWorker(s, Idle));
    FinishKeepsSingle(WithWorker(s, Idle), s.exec.worker.task, failed);
  }

  lemma DropKeepsSingle(s: State)
    requires Single(s)
    ensures Single(DropDeadline(s)) && DropDeadline(s).exec == s.exec
  {
    hide DropDeadline, NoCleanupOpTwice;
    DropKeepsWork(s);
  }

  lemma DeadlineCancelEndKeepsSingle(s: State, ok: bool)
    requires Single(s)
    ensures Single(DeadlineCancelEnd(s, ok))
  {
    hide Single, Finish, WithWorker, DropDeadline;
    if InCleanup(s, DeadlineCancel) {
      DropKeepsSingle(s);
      EndOpKeepsSingle(DropDeadline(s), false);
      EndOpKeepsSingle(s, true);
    }
  }

  lemma SweepEndKeepsSingle(s: State, ok: bool)
    requires Single(s)
    ensures Single(SweepEnd(s, ok))
  {
    hide Single, Finish, WithWorker;
    if InCleanup(s, SchedulerCancelAll) {
      EndOpKeepsSingle(s, !ok);
    }
  }

  lemma CloserIsNotQueued(s: State, t: TaskRef)
    requires Inv(s) && t.step.ExecutorClose?
    ensures !InFlight(s, t)
  {}

  lemma CloseEndKeepsSingle(s: State, t: TaskRef, ok: bool)
    requires Inv(s) && Single(s)
    ensures Single(CloseEnd(s, t, ok))
  {
    hide Inv, Finish, NoCleanupOpTwice;
    if t.step.ExecutorClose? {
      var closed := s.(exec := s.exec.(closed := true));
      CloserIsNotQueued(s, t);
      assert Single(closed);
      FinishKeepsSingle(s, t, true);
      FinishKeepsSingle(closed, t, false);
    }
  }

  lemma CancelKeepsSingle(s: State, t: TaskRef)
    requires Single(s)
    ensures Single(CancelTask(s, t))
  {
    hide Single, Finish;
    var r := s.(seen := s.seen.(cancelled := s.seen.cancelled + {t}));
    assert SameWork(s, r);
    SameWorkKeepsSingle(s, r);
    FinishKeepsSingle(r, t, true);
  }

  lemma WithoutKeepsSingle(queue: seq<Op>, k: nat)
    requires NoCleanupOpTwice(queue) && k < |queue|
    ensures NoCleanupOpTwice(Without(queue, k)) && (queue[k].CleanupOp? ==> queue[k] !in Without(queue, k))
  {}

  lemma RecallKeepsSingle(s: State, k: nat)
    requires Single(s)
    ensures Single(RecallStep(s, k))
  {
    hide NoCleanupOpTwice, Without;
    if k < |s.exec.queue| {
      WithoutKeepsSingle(s.exec.queue, k);
      WithoutKeepsMembers(s.exec.queue, k);
    }
  }

  lemma TaskKeepsSingle(s: State, e: Event)
    requires Inv(s) && Single(s) && TaskEvent(e)
    ensures Single(TaskStep(s, e))
  {
    hide Inv, Single, SubmitTask, CloseEnd, CancelTask, RecallStep;
    match e
    case TaskSubmits(t) => SubmitTaskKeepsSingle(s, t);
    case CloseEnds(t, ok) => CloseEndKeepsSingle(s, t, ok);
    case TaskCancelled(t) => CancelKeepsSingle(s, t);
    case Recall(k) => RecallKeepsSingle(s, k);
  }

  lemma WorkKeepsSingle(s: State, e: Event)
    requires Inv(s) && Single(s) && WorkEvent(e)
    ensures Single(Apply(s, e))
  {
    hide Inv, Single, Submit, StartNext, DeadlineCancelEnd, SweepEnd, TaskStep;
    if TaskEvent(e) {
      TaskKeepsSingle(s, e);
    } else {
      match e
      case SubmitLogical(generation, call) => SubmitKeepsSingle(s, generation, call);
      case StartOp => StartKeepsSingle(s);
      case DeadlineCancelEnds(ok) => DeadlineCancelEndKeepsSingle(s, ok);
      case SweepEnds(ok) => SweepEndKeepsSingle(s, ok);
    }
  }

  lemma ApplyKeepsSingle(s: State, e: Event)
    requires Inv(s) && Single(s)
    ensures Single(Apply(s, e))
  {
    hide Inv, Single, SameWork, Apply;
    if WorkEvent(e) {
      WorkKeepsSingle(s, e);
    } else {
      OtherStepsAreSameWork(s, e);
      SameWorkKeepsSingle(s, Apply(s, e));
    }
  }

  lemma {:induction false} RunKeepsSingle(s: State, events: seq<Event>)
    requires Inv(s) && Single(s)
    ensures Inv(Run(s, events)) && Single(Run(s, events))
    decreases |events|
  {
    hide Inv, Single, Apply;
    if events != [] {
      ApplyKeepsInv(s, events[0]);
      ApplyKeepsSingle(s, events[0]);
      RunKeepsSingle(Apply(s, events[0]), events[1..]);
    }
  }

  /** In every interleaving each cleanup operation is in the executor at most once, and of one step at most one
      whose task was not cancelled is in flight. */
  lemma {:induction false} OneOperationPerStep(events: seq<Event>)
    ensures Single(Run(START, events))
    ensures var s := Run(START, events);
      forall t <- s.seen.issued, u <- s.seen.issued ::
        (&& InFlight(s, t) && InFlight(s, u) && t.step == u.step
         && t !in s.seen.cancelled && u !in s.seen.cancelled) ==> t == u
  {
    hide Apply, Run;
    StartIsSound();
    assert Single(START);
    RunKeepsSingle(START, events);
  }

  // ----- operations recalled from the queue

  /** The task's operation has been submitted and is in the executor no more. */
  predicate Gone(s: State, t: TaskRef) {
    t in s.submitted && !InFlight(s, t)
  }

  lemma SameWorkKeepsGone(s: State, u: State, t: TaskRef)
    requires Gone(s, t) && SameWork(s, u)
    ensures Gone(u, t)
  {}

  /** The executor took in no operation of this task. */
  lemma NothingComesKeepsGone(s: State, u: State, t: TaskRef)
    requires Gone(s, t) && t in u.submitted && u.exec.worker != Cleaning(t)
    requires CleanupOp(t) !in u.exec.queue || u.exec.queue == s.exec.queue
    ensures Gone(u, t)
  {}

  lemma FinishKeepsGone(s: State, u: TaskRef, failed: bool, t: TaskRef)
    requires Gone(s, t)
    ensures Gone(Finish(s, u, failed), t)
  {
    NothingComesKeepsGone(s, Finish(s, u, failed), t);
  }

  lemma SubmitTaskKeepsGone(s: State, u: TaskRef, t: TaskRef)
    requires Gone(s, t)
    ensures Gone(SubmitTask(s, u), t)
  {
    hide Finish;
    FinishKeepsGone(s, u, true, t);
    FinishKeepsGone(s, u, false, t);
    if Unsubmitted(s, u) {
      var submitted := s.submitted + {u};
      NothingComesKeepsGone(s, s.(exec := s.exec.(closing := true), submitted := submitted), t);
      NothingComesKeepsGone(s, s.(exec := s.exec.(queue := s.exec.queue + [CleanupOp(u)]), submitted := submitted), t);
    }
  }

  lemma CloseEndKeepsGone(s: State, u: TaskRef, ok: bool, t: TaskRef)
    requires Gone(s, t)
    ensures Gone(CloseEnd(s, u, ok), t)
  {
    hide Finish;
    var closed := s.(exec := s.exec.(closed := true));
    NothingComesKeepsGone(s, closed, t);
    FinishKeepsGone(s, u, true, t);
    FinishKeepsGone(closed, u, false, t);
  }

  lemma CancelKeepsGone(s: State, u: TaskRef, t: TaskRef)
    requires Gone(s, t)
    ensures Gone(CancelTask(s, u), t)
  {
    hide Finish;
    var r := s.(seen := s.seen.(cancelled := s.seen.cancelled + {u}));
    NothingComesKeepsGone(s, r, t);
    FinishKeepsGone(r, u, true, t);
  }

  lemma RecallKeepsGone(s: State, k: nat, t: TaskRef)
    requires Gone(s, t)
    ensures Gone(RecallStep(s, k), t)
  {
    hide Without;
    if k < |s.exec.queue| {
      WithoutKeepsMembers(s.exec.queue, k);
    }
  }

  lemma TaskKeepsGone(s: State, e: Event, t: TaskRef)
    requires Gone(s, t) && TaskEvent(e)
    ensures Gone(TaskStep(s, e), t)
  {
    hide Gone, SubmitTask, CloseEnd, CancelTask, RecallStep;
    match e
    case TaskSubmits(u) => SubmitTaskKeepsGone(s, u, t);
    case CloseEnds(u, ok) => CloseEndKeepsGone(s, u, ok, t);
    case TaskCancelled(u) => CancelKeepsGone(s, u, t);
    case Recall(k) => RecallKeepsGone(s, k, t);
  }

  lemma PoppedKeepsGone(s: State, t: TaskRef)
    requires Gone(s, t) && s.exec.queue != []
    ensures Gone(Popped(s), t) && s.exec.queue[0] != CleanupOp(t)
  {}

  lemma StartedKeepsGone(s: State, op: Op, t: TaskRef)
    requires Gone(s, t) && op != CleanupOp(t)
    ensures Gone(StartedOp(s, op), t)
  {
    NothingComesKeepsGone(s, StartedOp(s, op), t);
  }

  lemma StartKeepsGone(s: State, t: TaskRef)
    requires Gone(s, t)
    ensures Gone(StartNext(s), t)
  {
    hide Gone, StartedOp;
    if s.exec.worker == Idle && s.exec.queue != [] {
      PoppedKeepsGone(s, t);
      StartedKeepsGone(Popped(s), s.exec.queue[0], t);
    }
  }

  lemma EndKeepsGone(s: State, ok: bool, t: TaskRef)
    requires Gone(s, t)
    ensures Gone(DeadlineCancelEnd(s, ok), t) && Gone(SweepEnd(s, ok), t)
  {
    hide Finish;
    if s.exec.worker.Cleaning? {
      var u := s.exec.worker.task;
      NothingComesKeepsGone(s, WithWorker(s, Idle), t);
      NothingComesKeepsGone(s, WithWorker(DropDeadline(s), Idle), t);
      FinishKeepsGone(WithWorker(DropDeadline(s), Idle), u, false, t);
      FinishKeepsGone(WithWorker(s, Idle), u, true, t);
      FinishKeepsGone(WithWorker(s, Idle), u, !ok, t);
    }
  }

  lemma SubmitKeepsGone(s: State, generation: nat, call: Call, t: TaskRef)
    requires Gone(s, t)
    ensures Gone(Submit(s, generation, call), t)
  {
    NothingComesKeepsGone(s, s.(exec := s.exec.(queue := s.exec.queue + [Logical(generation, call)])), t);
  }

  lemma WorkKeepsGone(s: State, e: Event, t: TaskRef)
    requires Gone(s, t) && WorkEvent(e)
    ensures Gone(Apply(s, e), t)
  {
    hide Gone, Submit, StartNext, DeadlineCancelEnd, SweepEnd, TaskStep;
    if TaskEvent(e) {
      TaskKeepsGone(s, e, t);
    } else {
      match e
      case SubmitLogical(generation, call) => SubmitKeepsGone(s, generation, call, t);
      case StartOp => StartKeepsGone(s, t);
      case DeadlineCancelEnds(ok) => EndKeepsGone(s, ok, t);
      case SweepEnds(ok) => EndKeepsGone(s, ok, t);
    }
  }

  lemma {:induction false} GoneStays(s: State, events: seq<Event>, t: TaskRef)
    requires Gone(s, t)
    ensures Gone(Run(s, events), t)
    decreases |events|
  {
    hide Gone, SameWork, Apply;
    if events != [] {
      if WorkEvent(events[0]) {
        WorkKeepsGone(s, events[0], t);
      } else {
        OtherStepsAreSameWork(s, events[0]);
        SameWorkKeepsGone(s, Apply(s, events[0]), t);
      }
      GoneStays(Apply(s, events[0]), events[1..], t);
    }
  }

  /** A cancelled task's operation that is recalled from the queue never reaches the worker. */
  lemma {:induction false} RecalledNeverRuns(events: seq<Event>, k: nat, later: seq<Event>)
    requires var s := Run(START, events);
      k < |s.exec.queue| && s.exec.queue[k].CleanupOp? && s.exec.queue[k].task in s.seen.cancelled
    ensures var s := Run(START, events);
      !InFlight(Run(Apply(s, Recall(k)), later), s.exec.queue[k].task)
  {
    hide Run, PassInv, Effective, ConsumedOnce;
    var s := Run(START, events);
    StartIsSound();
    OneOperationPerStep(events);
    RunKeepsInv(START, events);
    WithoutKeepsSingle(s.exec.queue, k);
    assert Apply(s, Recall(k)) == RecallStep(s, k);
    GoneStays(Apply(s, Recall(k)), later, s.exec.queue[k].task);
  }

  // ----- two operations of one step in flight

  /** Cancelling a task whose operation the worker is inside leaves that operation there: if the step is needed
      again before the worker gets through, a second operation of it joins the first. */
  lemma CancellationDoublesAnOperation(s: State, t: TaskRef, id: nat)
    requires Inv(s) && s.lock == At(t.step) && Needed(s, t.step) && !t.step.ExecutorClose?
    requires s.exec.worker == Cleaning(t) && t.step !in s.cleanup && TaskRef(t.step, id) !in s.seen.issued
    ensures var u, r := TaskRef(t.step, id), Run(s, [BeginStep(id), TaskSubmits(TaskRef(t.step, id))]);
      t != u && r.exec.worker == Cleaning(t) && CleanupOp(u) in r.exec.queue
  {
    hide Inv, Needed, Apply, Run, Issue;
    var u := TaskRef(t.step, id);
    CleaningIsIssued(s);
    NeededFacts(s, t.step);
    OpenUnlessCloseReady(s);
    IssueKeepsExec(s, u);
    RunTwo(s, BeginStep(id), TaskSubmits(u));
    Issued(s, id);
    IssuedIsUnsubmitted(s, u);
    OperationIsQueued(Issue(s, u), u);
  }

  lemma OpenUnlessCloseReady(s: State)
    requires Inv(s)
    ensures s.exec.closing ==> CloseReady(s)
    ensures s.exec.worker.Cleaning? ==> !s.exec.closed
  {}

  lemma IssueKeepsExec(s: State, u: TaskRef)
    ensures Issue(s, u).exec == s.exec
  {}

  lemma IssuedIsUnsubmitted(s: State, u: TaskRef)
    requires Inv(s) && u !in s.seen.issued
    ensures Unsubmitted(Issue(s, u), u)
  {}

  lemma OperationIsQueued(s: State, u: TaskRef)
    requires Unsubmitted(s, u) && !u.step.ExecutorClose? && !s.exec.closing
    ensures Apply(s, TaskSubmits(u)) ==
            s.(exec := s.exec.(queue := s.exec.queue + [CleanupOp(u)]), submitted := s.submitted + {u})
  {
    hide Finish;
  }

  lemma CancelledTaskEnds(s: State, t: TaskRef)
    requires t in s.seen.issued && t !in s.results
    ensures Apply(s, TaskCancelled(t)) ==
            s.(results := s.results[t := true], seen := s.seen.(cancelled := s.seen.cancelled + {t}))
  {}

  /** A pass that awaits a cancelled task goes on at once and has consumed it, while the worker is still inside
      its operation. */
  lemma CancelledTaskIsConsumed(s: State, t: TaskRef)
    requires Inv(s) && s.lock == Await(t) && Current(s, t) && s.exec.worker == Cleaning(t) && t !in s.results
    ensures var r := Run(s, [TaskCancelled(t), Resolve]);
      && r.exec.worker == Cleaning(t) && r.lock == Next(t.step) && t.step !in r.cleanup
      && r.seen.consumed == s.seen.consumed + multiset{t} && t in r.seen.cancelled
  {
    hide Inv, Apply, Run;
    CleaningIsIssued(s);
    RunTwo(s, TaskCancelled(t), Resolve);
    CancelledTaskEnds(s, t);
    ResolvesAt(Apply(s, TaskCancelled(t)), t);
  }

  lemma ResolvesAt(s: State, t: TaskRef)
    requires s.lock == Await(t) && Current(s, t) && t in s.results
    ensures var r := Apply(s, Resolve);
      && r.exec == s.exec && r.lock == Next(t.step) && r.cleanup == s.cleanup - {t.step}
      && r.seen == s.seen.(consumed := s.seen.consumed + multiset{t})
  {
    hide Apply, Consume, FailIf;
    ConsumesCurrent(s, t);
    ResolveConsumes(s, t);
    FailFrame(Consume(s, t), s.results[t]);
  }

  lemma ResolveConsumes(s: State, t: TaskRef)
    requires s.lock == Await(t) && t in s.results
    ensures Apply(s, Resolve) == FailIf(Consume(s, t), s.results[t]).(lock := Next(t.step))
  {
    hide Consume, FailIf;
  }

  lemma ConsumesCurrent(s: State, t: TaskRef)
    requires Current(s, t) && t in s.results
    ensures Consume(s, t) ==
            s.(cleanup := s.cleanup - {t.step}, seen := s.seen.(consumed := s.seen.consumed + multiset{t}))
  {}

  const D0 := TaskRef(DeadlineCancel, 0)
  const D1 := TaskRef(DeadlineCancel, 1)

  // the reschedule arms the first deadline
  const ARMED := ADMITTED.(
    exec := START.exec, deadline := Some(0), timers := Timers({0}, {}, false), seen := ADMITTED.seen.(armed := 1))

  // a stop pass is cancelled while the worker is inside its deadline cancellation, and so is that task
  const PASS := ARMED.(
    accepting := false, generation := 1, portQuiescent := true, stopping := true, lock := AwaitCallbacks({}))
  const AWAITING := PASS.(
    lock := Await(D0), cleanup := map[DeadlineCancel := 0], seen := ARMED.seen.(issued := {D0}))
  const INSIDE := AWAITING.(exec := START.exec.(worker := Cleaning(D0)), submitted := {D0})
  const DROPPED := INSIDE.(
    lock := Free, results := map[D0 := true],
    seen := INSIDE.seen.(cancelled := {D0}, abandoned := {D0}),
    tally := START.tally.(troubled := true, failures := 1, unstopped := 1))

  // the next pass consumes the cancelled task and needs the step again
  const NEXT_PASS := DROPPED.(
    lock := AwaitCallbacks({}), cleanup := map[], seen := DROPPED.seen.(consumed := multiset{D0}),
    tally := DROPPED.tally.(troubled := false))

  const CANCELLED_TWICE: seq<Event> :=
    [SubmitLogical(0, Reschedule), StartOp] + [CancelCurrent(true), CheckAdmission(true)]
    + [ArmTimer(0, true), StoreDeadline] + [StopRequest, PassBegin(true)] + [CallbacksSettle, BeginStep(0)]
    + [TaskSubmits(D0), StartOp] + [PassCancelled, TaskCancelled(D0)] + [StopRequest, PassBegin(true)]

  lemma RescheduleArms()
    ensures Run(ARMING, [ArmTimer(0, true), StoreDeadline]) == ARMED
  {
    var stored := ARMED.(exec := START.exec.(worker := Rescheduling(Storing(0))), deadline := None);
    RunTwo(ARMING, ArmTimer(0, true), StoreDeadline);
    assert Apply(ARMING, ArmTimer(0, true)) == stored;
  }

  lemma PassBegins()
    ensures Run(ARMED, [StopRequest, PassBegin(true)]) == PASS
  {
    RunTwo(ARMED, StopRequest, PassBegin(true));
    var asked := ARMED.(accepting := false, generation := 1, portQuiescent := true, requests := 1);
    assert Apply(ARMED, StopRequest) == asked;
    hide Apply;
    Entered(asked);
  }

  lemma PassCancelsTheDeadline()
    ensures Run(PASS, [CallbacksSettle, BeginStep(0)]) == AWAITING
  {
    hide Apply;
    RunTwo(PASS, CallbacksSettle, BeginStep(0));
    Settled(PASS);
    Issued(PASS.(lock := At(DeadlineCancel)), 0);
  }

  lemma OperationStarts(s: State, u: TaskRef)
    requires s.exec.worker == Idle && s.exec.queue == [CleanupOp(u)] && u.step.DeadlineCancel?
    ensures Apply(s, StartOp) == s.(exec := s.exec.(queue := [], worker := Cleaning(u)))
  {}

  lemma WorkerIsInside()
    ensures Run(AWAITING, [TaskSubmits(D0), StartOp]) == INSIDE
  {
    var queued := AWAITING.(exec := START.exec.(queue := [CleanupOp(D0)]), submitted := {D0});
    RunTwo(AWAITING, TaskSubmits(D0), StartOp);
    hide Apply;
    OperationIsQueued(AWAITING, D0);
    assert AWAITING.submitted + {D0} == {D0} && AWAITING.exec.queue + [CleanupOp(D0)] == [CleanupOp(D0)];
    OperationStarts(queued, D0);
  }

  lemma CancelledWhileAwaiting(s: State)
    requires s.lock.Await?
    ensures Apply(s, PassCancelled) == CountUnstopped(Fail(s)).(
              lock := Free, seen := s.seen.(abandoned := s.seen.abandoned + {s.lock.task}))
  {
    hide CountUnstopped, Fail;
  }

  lemma PassAndTaskAreCancelled()
    ensures Run(INSIDE, [PassCancelled, TaskCancelled(D0)]) == DROPPED
  {
    hide Apply;
    var dropped := DROPPED.(results := map[], seen := INSIDE.seen.(abandoned := {D0}));
    RunTwo(INSIDE, PassCancelled, TaskCancelled(D0));
    CancelledWhileAwaiting(INSIDE);
    CancelledTaskEnds(dropped, D0);
    assert INSIDE.seen.abandoned + {D0} == {D0} && dropped.seen.cancelled + {D0} == {D0};
    assert dropped.results[D0 := true] == DROPPED.results;
  }

  lemma ConsumesItsOnlyTask(s: State, t: TaskRef)
    requires s.cleanup == map[t.step := t.id] && t in s.results
    ensures ConsumeFinished(s) == s.(cleanup := map[], seen := s.seen.(consumed := s.seen.consumed + multiset{t}))
  {
    hide ConsumeStep;
    var r := s.(cleanup := map[], seen := s.seen.(consumed := s.seen.consumed + multiset{t}));
    ConsumesNothing(s, r, t);
  }

  lemma ConsumesNothing(s: State, r: State, t: TaskRef)
    requires s.cleanup == map[t.step := t.id] && t in s.results
    requires r == s.(cleanup := map[], seen := s.seen.(consumed := s.seen.consumed + multiset{t}))
    ensures forall step :: ConsumeStep(s, step) == if step == t.step then r else s
    ensures forall step :: ConsumeStep(r, step) == r
  {
    assert s.cleanup - {t.step} == map[];
  }

  lemma NextPassBegins()
    ensures Run(DROPPED, [StopRequest, PassBegin(true)]) == NEXT_PASS
  {
    hide ConsumeFinished;
    var r := DROPPED.(stopping := true);
    RunTwo(DROPPED, StopRequest, PassBegin(true));
    Requested(DROPPED);
    ConsumesItsOnlyTask(r, D0);
    EntersBy(DROPPED.(requests := 1), r);
  }

  lemma EntersBy(s: State, r: State)
    requires s.lock.Free? && s.requests > 0 && !s.stopped && !s.accepting
    requires r == s.(stopping := true, requests := s.requests - 1)
    ensures Apply(s, PassBegin(true)) == EnterPass(ConsumeFinished(r), true)
  {
    hide ConsumeFinished, EnterPass;
    assert Retire(r) == r;
  }

  /** Such a state is reached: the second pass then has a second operation of the step queued behind the first. */
  lemma DoubledOperationIsReached()
    ensures var s := Run(Run(START, CANCELLED_TWICE), [CallbacksSettle] + [BeginStep(1), TaskSubmits(D1)]);
      s.exec.worker == Cleaning(D0) && CleanupOp(D1) in s.exec.queue
  {
    hide Apply, Run;
    ReachesTheNextPass();
    RunConcat(NEXT_PASS, [CallbacksSettle], [BeginStep(1), TaskSubmits(D1)]);
    RunOne(NEXT_PASS, CallbacksSettle);
    Settled(NEXT_PASS);
    StartIsSound();
    RunKeepsInv(START, CANCELLED_TWICE + [CallbacksSettle]);
    RunConcat(START, CANCELLED_TWICE, [CallbacksSettle]);
    CancellationDoublesAnOperation(NEXT_PASS.(lock := At(DeadlineCancel)), D0, 1);
  }

  lemma ReachesTheNextPass()
    ensures Run(START, CANCELLED_TWICE) == NEXT_PASS
  {
    hide Apply, Run;
    var a, b: seq<Event> := [SubmitLogical(0, Reschedule), StartOp], [CancelCurrent(true), CheckAdmission(true)];
    var c, d: seq<Event> := [ArmTimer(0, true), StoreDeadline], [StopRequest, PassBegin(true)];
    var e, f: seq<Event> := [CallbacksSettle, BeginStep(0)], [TaskSubmits(D0), StartOp];
    var g: seq<Event> := [PassCancelled, TaskCancelled(D0)];
    RunConcat(START, a, b);
    RunConcat(START, a + b, c);
    RunConcat(START, a + b + c, d);
    RunConcat(START, a + b + c + d, e);
    RunConcat(START, a + b + c + d + e, f);
    RunConcat(START, a + b + c + d + e + f, g);
    RunConcat(START, a + b + c + d + e + f + g, d);
    RescheduleIsAdmitted();
    RescheduleIsDue();
    RescheduleArms();
    PassBegins();
    PassCancelsTheDeadline();
    WorkerIsInside();
    PassAndTaskAreCancelled();
    NextPassBegins();
    assert Run(START, a + b + c) == ARMED;
    assert Run(START, a + b + c + d + e) == AWAITING;
    assert CANCELLED_TWICE == a + b + c + d + e + f + g + d;
  }

  // ----- supervised tasks are followed up

  /** Every supervised task is awaited by the pass in progress, or has the callback that consumes it when it
      ends late, unless the pass that awaited it was cancelled. */
  ghost predicate Followed(s: State) {
    forall step <- s.cleanup ::
      var t := TaskRef(step, s.cleanup[step]);
      s.lock == Await(t) || t in s.late || t in s.seen.abandoned
  }

  /** Steps that leave ownership, callbacks and the wait alone, or drop finished tasks. */
  predicate SameFollowing(s: State, t: State) {
    && t.cleanup.Keys <= s.cleanup.Keys && (forall step <- t.cleanup :: t.cleanup[step] == s.cleanup[step])
    && s.late <= t.late && s.seen.abandoned <= t.seen.abandoned
    && (t.lock == s.lock || !s.lock.Await?)
  }

  lemma SameFollowingKeeps(s: State, t: State)
    requires Followed(s) && SameFollowing(s, t)
    ensures Followed(t)
  {}

  lemma SideKeepsFollowed(s: State, e: Event)
    requires Inv(s) && Followed(s) && SideEvent(e)
    ensures Followed(Apply(s, e))
  {
    SideOnlyReleases(s, e);
    SameFollowingKeeps(s, Apply(s, e));
  }

  lemma StartupKeepsFollowed(s: State, e: Event)
    requires Followed(s) && StartupEvent(e)
    ensures Followed(StartupStep(s, e))
  {
    hide Followed;
    match e
    case InitBegin(raises, unsubscribed) =>
      LockOnlyKeepsFollowed(s, s);
      LockOnlyKeepsFollowed(s, Retire(s.(listener := s.listener && !unsubscribed)));
      LockOnlyKeepsFollowed(
        s, s.(listener := true, leaked := s.leaked + (if s.listener then 1 else 0), lock := Initializing));
    case InitFails(unsubscribed) =>
      LockOnlyKeepsFollowed(s, s);
      LockOnlyKeepsFollowed(s, Retire(s.(listener := s.listener && !unsubscribed, lock := Free)));
    case InitEnds =>
      LockOnlyKeepsFollowed(s, s);
      LockOnlyKeepsFollowed(s, s.(initialized := true, lock := Free));
  }

  lemma LockOnlyKeepsFollowed(s: State, t: State)
    requires Followed(s) && t.cleanup == s.cleanup && t.late == s.late && t.seen == s.seen
    ensures !s.lock.Await? || t.lock == s.lock ==> Followed(t)
  {}

  lemma ConsumeStepKeepsFollowed(s: State, step: CleanupStep)
    requires Followed(s) && !s.lock.Await?
    ensures Followed(ConsumeStep(s, step)) && ConsumeStep(s, step).lock == s.lock
  {
    ConsumeStepFrame(s, step);
  }

  lemma ConsumeFinishedKeepsFollowed(s: State)
    requires Followed(s) && !s.lock.Await?
    ensures Followed(ConsumeFinished(s))
  {
    var r := ConsumeStep(s, DeadlineCancel);
    ConsumeStepKeepsFollowed(s, DeadlineCancel);
    ConsumeStepKeepsFollowed(r, SchedulerCancelAll);
    ConsumeStepKeepsFollowed(ConsumeStep(r, SchedulerCancelAll), ExecutorClose);
  }

  lemma EnterKeepsFollowed(s: State, unsubscribed: bool)
    requires Followed(s) && !s.lock.Await?
    ensures Followed(EnterPass(s, unsubscribed))
  {
    assert SameFollowing(s, EnterPass(s, unsubscribed));
  }

  lemma AskedKeepsFollowed(s: State, r: State)
    requires Followed(s) && r.cleanup == s.cleanup && r.late == s.late && r.lock == s.lock && r.seen == s.seen
    ensures Followed(r)
  {}

  lemma PassBeginKeepsFollowed(s: State, unsubscribed: bool)
    requires Followed(s)
    ensures Followed(PassBeginStep(s, unsubscribed))
  {
    hide Followed, ConsumeFinished, EnterPass;
    if s.lock.Free? && s.requests > 0 {
      var r := Retire(s.(stopping := true, requests := s.requests - 1));
      AskedKeepsFollowed(s, r);
      AskedKeepsFollowed(s, s.(requests := s.requests - 1));
      ConsumeFinishedFrame(r);
      ConsumeFinishedKeepsFollowed(r);
      EnterKeepsFollowed(ConsumeFinished(r), unsubscribed);
    }
  }

  lemma SuperviseKeepsFollowed(s: State, step: CleanupStep, id: nat)
    requires Followed(s) && s.lock == At(step)
    ensures Followed(Supervise(s, step, id))
  {
    if step in s.cleanup {
      assert SameFollowing(s, s.(lock := Await(TaskRef(step, s.cleanup[step]))));
    } else {
      assert Followed(Issue(s, TaskRef(step, id)));
    }
  }

  lemma BeginCleanupKeepsFollowed(s: State, id: nat)
    requires Followed(s)
    ensures Followed(BeginCleanup(s, id))
  {
    if s.lock.At? {
      SuperviseKeepsFollowed(s, s.lock.step, id);
      assert SameFollowing(s, s.(lock := Next(s.lock.step))) && SameFollowing(s, Fail(s).(lock := Next(s.lock.step)));
    }
  }

  /** The awaited task is over: it is no longer supervised. */
  lemma ResolveKeepsFollowed(s: State)
    requires PassInv(s) && Followed(s)
    ensures Followed(ResolveStep(s))
  {
    if s.lock.Await? && s.lock.task in s.results {
      ResolvedKeepsFollowed(s, s.lock.task);
    }
  }

  lemma ConsumedKeepsFollowed(s: State, t: TaskRef, lock: Lock)
    requires Followed(s) && s.lock == Await(t) && t in s.results && (t.step in s.cleanup ==> s.cleanup[t.step] == t.id)
    ensures Followed(Consume(s, t).(lock := lock))
  {
    var r := Consume(s, t);
    assert r.cleanup == s.cleanup - {t.step} && r.late == s.late && r.seen.abandoned == s.seen.abandoned;
  }

  lemma TallyKeepsFollowed(s: State, tally: Tally)
    requires Followed(s)
    ensures Followed(s.(tally := tally))
  {}

  lemma ResolvedKeepsFollowed(s: State, t: TaskRef)
    requires Followed(s) && s.lock == Await(t) && t in s.results && (t.step in s.cleanup ==> s.cleanup[t.step] == t.id)
    ensures Followed(FailIf(Consume(s, t), s.results[t]).(lock := Next(t.step)))
  {
    var r := Consume(s, t).(lock := Next(t.step));
    ConsumedKeepsFollowed(s, t, Next(t.step));
    TallyKeepsFollowed(r, Fail(r).tally);
  }

  lemma TimeOutKeepsFollowed(s: State)
    requires Followed(s)
    ensures Followed(TimeOutStep(s))
  {
    if s.lock.Await? {
      assert Followed(Fail(s).(late := s.late + {s.lock.task}, lock := Next(s.lock.task.step)));
    }
  }

  lemma PassCancelKeepsFollowed(s: State)
    requires Followed(s)
    ensures Followed(PassCancelStep(s))
  {}

  /** The late callback goes away only with the task it consumes. */
  lemma LateConsumeKeepsFollowed(s: State, t: TaskRef)
    requires Followed(s)
    ensures Followed(LateConsume(s, t))
  {}

  lemma ConcludedKeepsFollowed(s: State)
    requires Followed(s) && !s.lock.Await?
    ensures Followed(Concluded(s.(stopping := false, lock := Free)))
  {
    var r := s.(stopping := false, lock := Free);
    assert SameFollowing(s, r) && SameFollowing(s, r.(stopped := true)) && SameFollowing(s, CountUnstopped(r));
  }

  lemma PassEndKeepsFollowed(s: State)
    requires Followed(s)
    ensures Followed(PassEndStep(s))
  {
    if s.lock.AtEnd? {
      ConsumeFinishedFrame(s);
      ConsumeFinishedKeepsFollowed(s);
      ConcludedKeepsFollowed(ConsumeFinished(s));
    }
  }

  lemma SettleKeepsFollowed(s: State)
    requires Followed(s)
    ensures Followed(SettleStep(s))
  {
    assert SameFollowing(s, SettleStep(s));
  }

  lemma PassStartKeepsFollowed(s: State, e: Event)
    requires Followed(s) && PassStartEvent(e)
    ensures Followed(PassStartStep(s, e))
  {
    hide Followed, PassBeginStep, SettleStep, BeginCleanup;
    match e
    case PassBegin(unsubscribed) => PassBeginKeepsFollowed(s, unsubscribed);
    case CallbacksSettle => SettleKeepsFollowed(s);
    case BeginStep(id) => BeginCleanupKeepsFollowed(s, id);
  }

  lemma PassExitKeepsFollowed(s: State, e: Event)
    requires Followed(s) && PassExitEvent(e)
    ensures Followed(PassExitStep(s, e))
  {
    hide Followed, TimeOutStep, PassCancelStep;
    match e
    case TimeOut => TimeOutKeepsFollowed(s);
    case PassCancelled => PassCancelKeepsFollowed(s);
  }

  lemma ApplyKeepsFollowed(s: State, e: Event)
    requires Inv(s) && PassInv(s) && Followed(s)
    ensures Followed(Apply(s, e))
  {
    hide Inv, PassInv, Followed, StartupStep, PassStartStep, PassExitStep, LateConsume, ResolveStep, PassEndStep;
    if SideEvent(e) {
      SideKeepsFollowed(s, e);
    } else if StartupEvent(e) {
      StartupKeepsFollowed(s, e);
    } else if PassStartEvent(e) {
      PassStartKeepsFollowed(s, e);
    } else if PassExitEvent(e) {
      PassExitKeepsFollowed(s, e);
    } else if e.LateCallback? {
      LateConsumeKeepsFollowed(s, e.task);
    } else if e.Resolve? {
      ResolveKeepsFollowed(s);
    } else {
      PassEndKeepsFollowed(s);
    }
  }

  lemma {:induction false} RunKeepsFollowed(s: State, events: seq<Event>)
    requires Inv(s) && PassInv(s) && Followed(s)
    ensures Followed(Run(s, events))
    decreases |events|
  {
    if events != [] {
      ApplyKeepsInv(s, events[0]);
      ApplyKeepsPass(s, events[0]);
      ApplyKeepsFollowed(s, events[0]);
      RunKeepsFollowed(Apply(s, events[0]), events[1..]);
    }
  }

  /** In every interleaving no supervised cleanup task is forgotten: it is awaited, or its late end will be
      consumed, unless a pass was cancelled while awaiting it; then the next pass consumes it. */
  lemma {:induction false} NoTaskIsForgotten(events: seq<Event>)
    ensures Followed(Run(START, events))
  {
    StartIsSound();
    RunKeepsFollowed(START, events);
  }
}
