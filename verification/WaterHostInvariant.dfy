/** What admission, ownership, cleanup results and the executor close of the Water Safety host guarantee each
    other, kept by every step. */
module WaterHostInvariant {
  import opened WaterHost
  import opened Wrappers

  predicate Current(s: State, t: TaskRef) {
    t.step in s.cleanup && s.cleanup[t.step] == t.id
  }

  /** Logical admission is closed for good once anything of the stop machinery exists, and once a start failed
      without getting rid of its subscription. */
  predicate Retired(s: State) {
    (|| s.requests > 0 || s.stopping || s.stopped || InPass(s) || s.seen.issued != {}
     || s.timers.closed || s.exec.closing || s.portQuiescent || s.leaked > 0
     || (s.listener && !s.initialized && !s.lock.Initializing?)) ==> !s.accepting
  }

  ghost predicate Owned(s: State) {
    && s.submitted <= s.seen.issued && s.results.Keys <= s.seen.issued && s.late <= s.seen.issued
    && (forall step <- s.cleanup :: TaskRef(step, s.cleanup[step]) in s.seen.issued)
    && (s.lock.Await? ==> s.lock.task in s.seen.issued)
    && (forall op <- s.exec.queue :: op.CleanupOp? ==> op.task in s.submitted && op.task.step != ExecutorClose)
    && (s.exec.worker.Cleaning? ==> s.exec.worker.task in s.submitted && s.exec.worker.task.step != ExecutorClose)
  }

  /** The state an executor close may start from; nothing can leave it again. */
  predicate CloseReady(s: State) {
    && !s.accepting && s.callbacks == {} && s.deadline.None? && Released(s)
    && DeadlineCancel !in s.cleanup && SchedulerCancelAll !in s.cleanup
  }

  /** A cleanup task that ended without an error did its work, and nothing undoes it. */
  ghost predicate Effective(s: State) {
    && (s.timers.closed ==> !s.exec.worker.Rescheduling?)
    && (InCleanup(s, SchedulerCancelAll) ==> s.timers.closed)
    && (forall t <- s.results :: t.step.DeadlineCancel? && !s.results[t] ==>
          s.deadline.None? && !s.exec.worker.Rescheduling?)
    && (forall t <- s.results :: t.step.SchedulerCancelAll? && !s.results[t] ==> Swept(s))
    && (forall t <- s.results :: t.step.ExecutorClose? && !s.results[t] ==> s.exec.closed)
    && (s.exec.closing ==> CloseReady(s))
    && (forall t <- s.submitted :: t.step.ExecutorClose? ==> s.exec.closing)
    && (forall t <- s.seen.issued :: t.step.ExecutorClose? ==> CloseReady(s))
    && (s.exec.closed ==> s.exec.closing && s.exec.queue == [] && s.exec.worker == Idle)
    && (s.stopped ==> AllReleased(s) && s.lock.Free? && !s.stopping)
  }

  /** Every cleanup task is either the one supervised for its step or has been consumed exactly once. */
  ghost predicate ConsumedOnce(s: State) {
    && (forall t: TaskRef :: s.seen.consumed[t] == if t in s.seen.issued && !Current(s, t) then 1 else 0)
    && (forall t <- s.seen.issued :: t !in s.results ==> Current(s, t))
  }

  ghost predicate Inv(s: State) {
    Retired(s) && Owned(s) && Effective(s) && ConsumedOnce(s)
  }

  // ----- every step keeps the invariant: one field at a time

  lemma TallyKeeps(s: State, tally: Tally)
    requires Inv(s)
    ensures Inv(s.(tally := tally))
  {}

  lemma LockKeeps(s: State, lock: Lock)
    requires Inv(s) && !s.accepting && !s.stopped && (lock.Await? ==> lock.task in s.seen.issued)
    ensures Inv(s.(lock := lock))
  {}

  lemma RetireKeeps(s: State)
    requires Inv(s)
    ensures Inv(Retire(s)) && !Retire(s).accepting
  {}

  lemma ListenerKeeps(s: State, listener: bool)
    requires Inv(s) && (listener ==> s.listener)
    ensures Inv(s.(listener := listener))
  {}

  lemma RequestsKeep(s: State, requests: nat)
    requires Inv(s) && !s.accepting
    ensures Inv(s.(requests := requests))
  {}

  lemma StoppingKeeps(s: State, stopping: bool)
    requires Inv(s) && !s.accepting && !s.stopped
    ensures Inv(s.(stopping := stopping))
  {}

  lemma CallsKeep(s: State, calls: nat, admitted: nat, armed: nat)
    requires Inv(s)
    ensures Inv(s.(seen := s.seen.(calls := calls, admitted := admitted, armed := armed)))
  {}

  lemma AsidesKeep(s: State, cancelled: set<TaskRef>, abandoned: set<TaskRef>)
    requires Inv(s)
    ensures Inv(s.(seen := s.seen.(cancelled := cancelled, abandoned := abandoned)))
  {}

  lemma LateKeeps(s: State, late: set<TaskRef>)
    requires Inv(s) && late <= s.seen.issued
    ensures Inv(s.(late := late))
  {}

  lemma CallbacksKeep(s: State, callbacks: set<nat>)
    requires Inv(s) && (s.accepting || callbacks <= s.callbacks)
    ensures Inv(s.(callbacks := callbacks))
  {}

  lemma HandlesKeep(s: State, handles: set<nat>)
    requires Inv(s) && (!s.timers.closed || handles <= s.timers.handles)
    ensures Inv(s.(timers := s.timers.(handles := handles)))
  {}

  lemma LostKeeps(s: State, lost: set<nat>)
    requires Inv(s) && !s.timers.closed
    ensures Inv(s.(timers := s.timers.(lost := lost)))
  {}

  lemma DeadlineKeeps(s: State, deadline: Option<nat>)
    requires Inv(s) && (deadline.None? || s.exec.worker.Rescheduling?)
    ensures Inv(s.(deadline := deadline))
  {}

  lemma WorkerKeeps(s: State, w: Worker)
    requires Inv(s)
    requires w.Idle? || (s.exec.worker != Idle && !w.Cleaning? && (w.Rescheduling? ==> s.exec.worker.Rescheduling?))
    ensures Inv(WithWorker(s, w))
  {}

  lemma QueueKeeps(s: State, queue: seq<Op>)
    requires Inv(s) && (s.exec.closed ==> queue == [])
    requires forall op <- queue :: op.CleanupOp? ==> op.task in s.submitted && op.task.step != ExecutorClose
    ensures Inv(s.(exec := s.exec.(queue := queue)))
  {}

  /** What a task may only report when its work is done. */
  predicate DoneFor(s: State, step: CleanupStep) {
    match step
    case DeadlineCancel => s.deadline.None? && !s.exec.worker.Rescheduling?
    case SchedulerCancelAll => Swept(s)
    case ExecutorClose => s.exec.closed
  }

  lemma ResultKeeps(s: State, t: TaskRef, failed: bool)
    requires Inv(s) && t in s.seen.issued && t !in s.results && (failed || DoneFor(s, t.step))
    ensures Inv(s.(results := s.results[t := failed]))
  {
    hide Effective;
    ResultIsEffective(s, t, failed);
  }

  lemma ResultIsEffective(s: State, t: TaskRef, failed: bool)
    requires Effective(s) && t !in s.results && (failed || DoneFor(s, t.step))
    ensures Effective(s.(results := s.results[t := failed]))
  {}

  lemma FinishKeeps(s: State, t: TaskRef, failed: bool)
    requires Inv(s) && t in s.seen.issued && (failed || DoneFor(s, t.step))
    ensures Inv(Finish(s, t, failed))
  {
    hide Inv, DoneFor;
    if t !in s.results {
      ResultKeeps(s, t, failed);
    }
  }

  // ----- every step keeps the invariant: the steps

  lemma StateChangeKeeps(s: State, t: nat)
    requires Inv(s)
    ensures Inv(OnStateChange(s, t)) && Inv(OnTick(s, t))
  {
    hide Inv;
    if s.accepting {
      CallbacksKeep(s, s.callbacks + {t});
    }
  }

  lemma OnTimerKeeps(s: State, timer: nat, t: nat, runs: bool)
    requires Inv(s)
    ensures Inv(OnTimer(s, timer, t, runs))
  {
    hide Inv;
    HandlesKeep(s, s.timers.handles - {timer});
    var r := s.(timers := s.timers.(handles := s.timers.handles - {timer}));
    if s.accepting {
      CallbacksKeep(r, s.callbacks + {t});
    }
  }

  lemma OnCallbackDoneKeeps(s: State, t: nat)
    requires Inv(s)
    ensures Inv(OnCallbackDone(s, t))
  {
    hide Inv;
    CallbacksKeep(s, s.callbacks - {t});
  }

  lemma SubmitKeeps(s: State, generation: nat, call: Call)
    requires Inv(s)
    ensures Inv(Submit(s, generation, call))
  {
    if !s.exec.closing {
      QueueKeeps(s, s.exec.queue + [Logical(generation, call)]);
    }
  }

  lemma DispatchKeeps(s: State)
    requires Inv(s)
    ensures Inv(Dispatch(s))
  {
    hide Inv;
    if s.exec.worker.Requesting? {
      WorkerKeeps(s, InRuntime);
      CallsKeep(WithWorker(s, InRuntime), s.seen.calls + 1, s.seen.admitted, s.seen.armed);
    }
  }

  lemma StartupKeeps(s: State)
    requires Inv(s) && s.lock.Free? && !s.initialized && !s.stopping && !s.stopped
    ensures Inv(s.(listener := true, leaked := s.leaked + (if s.listener then 1 else 0), lock := Initializing))
  {}

  lemma InitBeginKeeps(s: State, raises: bool, unsubscribed: bool)
    requires Inv(s)
    ensures Inv(InitBeginStep(s, raises, unsubscribed))
  {
    hide Inv;
    if s.lock.Free? && !s.initialized && !s.stopping && !s.stopped {
      StartupKeeps(s);
      RetireKeeps(s);
      ListenerKeeps(Retire(s), s.listener && !unsubscribed);
    }
  }

  lemma NotStoppedInStartup(s: State)
    requires Inv(s) && s.lock.Initializing?
    ensures !s.stopped
  {}

  lemma InitFailKeeps(s: State, unsubscribed: bool)
    requires Inv(s)
    ensures Inv(InitFailStep(s, unsubscribed))
  {
    hide Inv;
    if s.lock.Initializing? {
      var listener := s.listener && !unsubscribed;
      NotStoppedInStartup(s);
      RetireKeeps(s);
      ListenerKeeps(Retire(s), listener);
      LockKeeps(Retire(s).(listener := listener), Free);
      assert InitFailStep(s, unsubscribed) == Retire(s).(listener := listener, lock := Free);
    }
  }

  lemma InitEndKeeps(s: State)
    requires Inv(s)
    ensures Inv(InitEndStep(s))
  {
    if s.lock.Initializing? {
      assert Inv(s.(initialized := true, lock := Free));
    }
  }

  lemma RequestStopKeeps(s: State)
    requires Inv(s)
    ensures Inv(RequestStop(s))
  {
    hide Inv;
    RetireKeeps(s);
    RequestsKeep(Retire(s), s.requests + 1);
    PortKeeps(Retire(s).(requests := s.requests + 1));
    assert RequestStop(s) == Retire(s).(requests := s.requests + 1, portQuiescent := true);
  }

  lemma PortKeeps(s: State)
    requires Inv(s) && !s.accepting
    ensures Inv(s.(portQuiescent := true))
  {}

  lemma PoppedKeeps(s: State)
    requires Inv(s) && s.exec.queue != [] && s.exec.worker == Idle
    ensures Inv(Popped(s)) && !s.exec.closed
    ensures var op := s.exec.queue[0]; op.CleanupOp? ==> op.task in s.submitted && op.task.step != ExecutorClose
  {
    assert s.exec.queue[0] in s.exec.queue;
    QueueKeeps(s, s.exec.queue[1..]);
  }

  lemma StartedLogicalKeeps(s: State, generation: nat, call: Call)
    requires Inv(s)
    ensures Inv(StartedLogical(s, generation, call))
  {}

  lemma StartedCleanupKeeps(s: State, t: TaskRef)
    requires Inv(s) && !s.exec.closed && s.exec.worker == Idle && t in s.submitted && t.step != ExecutorClose
    ensures Inv(StartedCleanup(s, t))
  {}

  lemma StartNextKeeps(s: State)
    requires Inv(s)
    ensures Inv(StartNext(s))
  {
    hide Inv;
    if s.exec.worker == Idle && s.exec.queue != [] {
      PoppedKeeps(s);
      var op := s.exec.queue[0];
      if op.Logical? {
        StartedLogicalKeeps(Popped(s), op.generation, op.call);
      } else {
        StartedCleanupKeeps(Popped(s), op.task);
      }
    }
  }

  lemma RequestKeeps(s: State)
    requires Inv(s)
    ensures Inv(Request(s))
  {
    hide Inv;
    if s.exec.worker == InRuntime {
      WorkerKeeps(s, Requesting);
    }
  }

  lemma ReturnKeeps(s: State)
    requires Inv(s)
    ensures Inv(ReturnFromRuntime(s))
  {
    hide Inv;
    WorkerKeeps(s, Idle);
  }

  lemma DropDeadlineKeeps(s: State)
    requires Inv(s)
    ensures Inv(DropDeadline(s))
  {
    hide Inv;
    if s.deadline.Some? {
      HandlesKeep(s, s.timers.handles - {s.deadline.value});
      DeadlineKeeps(s.(timers := s.timers.(handles := s.timers.handles - {s.deadline.value})), None);
    }
  }

  lemma CancelCurrentKeeps(s: State, ok: bool)
    requires Inv(s)
    ensures Inv(CancelCurrentStep(s, ok))
  {
    hide Inv;
    if s.exec.worker == Rescheduling(Cancelling) {
      DropDeadlineKeeps(s);
      WorkerKeeps(if ok || s.deadline.None? then DropDeadline(s) else s,
                  if ok || s.deadline.None? then Rescheduling(Checking) else Idle);
    }
  }

  lemma CheckKeeps(s: State, due: bool)
    requires Inv(s)
    ensures Inv(CheckStep(s, due))
  {
    hide Inv;
    if s.exec.worker.Rescheduling? {
      WorkerKeeps(s, if s.accepting && due then Rescheduling(Arming) else Idle);
    }
  }

  lemma ClosedMeansNoReschedule(s: State)
    requires Inv(s)
    ensures s.timers.closed ==> !s.exec.worker.Rescheduling?
  {}

  lemma ArmKeeps(s: State, timer: nat, ok: bool)
    requires Inv(s)
    ensures Inv(ArmStep(s, timer, ok))
  {
    hide Inv;
    WorkerKeeps(s, Idle);
    if s.exec.worker.Rescheduling? {
      var r := WithWorker(s, Rescheduling(Storing(timer)));
      ClosedMeansNoReschedule(s);
      WorkerKeeps(s, Rescheduling(Storing(timer)));
      HandlesKeep(r, s.timers.handles + {timer});
      CallsKeep(r.(timers := s.timers.(handles := s.timers.handles + {timer})),
                s.seen.calls, s.seen.admitted, s.seen.armed + 1);
    }
  }

  lemma FireEarlyKeeps(s: State, t: nat)
    requires Inv(s)
    ensures Inv(FireEarly(s, t))
  {
    hide Inv;
    if s.exec.worker.Rescheduling? {
      WorkerKeeps(s, Rescheduling(Missed));
      if s.accepting {
        CallbacksKeep(WithWorker(s, Rescheduling(Missed)), s.callbacks + {t});
      }
    }
  }

  lemma ArmMissedKeeps(s: State, timer: nat)
    requires Inv(s)
    ensures Inv(ArmMissedStep(s, timer))
  {
    hide Inv;
    if s.exec.worker.Rescheduling? {
      var r := WithWorker(s, Rescheduling(Storing(timer)));
      ClosedMeansNoReschedule(s);
      WorkerKeeps(s, Rescheduling(Storing(timer)));
      LostKeeps(r, s.timers.lost + {timer});
      CallsKeep(r.(timers := s.timers.(lost := s.timers.lost + {timer})),
                s.seen.calls, s.seen.admitted, s.seen.armed + 1);
    }
  }

  lemma StoreKeeps(s: State)
    requires Inv(s)
    ensures Inv(StoreStep(s))
  {
    hide Inv;
    if s.exec.worker.Rescheduling? && s.exec.worker.stage.Storing? {
      DeadlineKeeps(s, Some(s.exec.worker.stage.timer));
      WorkerKeeps(s.(deadline := Some(s.exec.worker.stage.timer)), Idle);
    }
  }

  lemma CleaningIsIssued(s: State)
    requires Inv(s) && s.exec.worker.Cleaning?
    ensures s.exec.worker.task in s.seen.issued
    ensures s.exec.worker.task.step.SchedulerCancelAll? ==> s.timers.closed
  {}

  lemma EndOpKeeps(s: State, failed: bool)
    requires Inv(s) && s.exec.worker.Cleaning? && (failed || DoneFor(s, s.exec.worker.task.step))
    requires s.exec.worker.task.step != ExecutorClose
    ensures Inv(Finish(WithWorker(s, Idle), s.exec.worker.task, failed))
  {
    hide Inv;
    CleaningIsIssued(s);
    WorkerKeeps(s, Idle);
    FinishKeeps(WithWorker(s, Idle), s.exec.worker.task, failed);
  }

  lemma DeadlineCancelEndKeeps(s: State, ok: bool)
    requires Inv(s)
    ensures Inv(DeadlineCancelEnd(s, ok))
  {
    hide Inv, Finish, WithWorker;
    if InCleanup(s, DeadlineCancel) {
      assert DropDeadline(s).exec == s.exec;
      if ok || s.deadline.None? {
        DropDeadlineKeeps(s);
        EndOpKeeps(DropDeadline(s), false);
      } else {
        EndOpKeeps(s, true);
      }
    }
  }

  lemma SweepOneKeeps(s: State, timer: nat)
    requires Inv(s)
    ensures Inv(SweepOneStep(s, timer))
  {
    hide Inv;
    HandlesKeep(s, s.timers.handles - {timer});
  }

  lemma SweepEndKeeps(s: State, ok: bool)
    requires Inv(s)
    ensures Inv(SweepEnd(s, ok))
  {
    hide Inv;
    if InCleanup(s, SchedulerCancelAll) && (!ok || s.timers.handles == {}) {
      CleaningIsIssued(s);
      EndOpKeeps(s, !ok);
    }
  }

  lemma SubmittedKeeps(s: State, t: TaskRef)
    requires Inv(s) && t in s.seen.issued && (t.step.ExecutorClose? ==> s.exec.closing)
    ensures Inv(s.(submitted := s.submitted + {t}))
  {
    hide ConsumedOnce;
    ConsumedFrame(s, s.(submitted := s.submitted + {t}));
  }

  lemma ConsumedFrame(s: State, t: State)
    requires ConsumedOnce(s) && t.seen == s.seen && t.cleanup == s.cleanup && t.results == s.results
    ensures ConsumedOnce(t)
  {}

  lemma ClosingKeeps(s: State, t: TaskRef)
    requires Inv(s) && t in s.seen.issued && t.step.ExecutorClose?
    ensures Inv(s.(exec := s.exec.(closing := true)))
  {}

  lemma QueueTaskKeeps(s: State, t: TaskRef)
    requires Inv(s) && Unsubmitted(s, t) && !t.step.ExecutorClose? && !s.exec.closing
    ensures Inv(SubmitTask(s, t))
  {
    SubmittedKeeps(s, t);
    QueueKeeps(s.(submitted := s.submitted + {t}), s.exec.queue + [CleanupOp(t)]);
  }

  lemma BeginCloseKeeps(s: State, t: TaskRef)
    requires Inv(s) && Unsubmitted(s, t) && t.step.ExecutorClose? && !s.exec.closed
    ensures Inv(SubmitTask(s, t))
  {
    hide Inv;
    ClosingKeeps(s, t);
    SubmittedKeeps(s.(exec := s.exec.(closing := true)), t);
  }

  lemma SubmitTaskKeeps(s: State, t: TaskRef)
    requires Inv(s)
    ensures Inv(SubmitTask(s, t))
  {
    hide Inv;
    if Unsubmitted(s, t) {
      if t.step.ExecutorClose? {
        if s.exec.closed {
          FinishKeeps(s, t, false);
        } else {
          BeginCloseKeeps(s, t);
        }
      } else if s.exec.closing {
        FinishKeeps(s, t, true);
      } else {
        QueueTaskKeeps(s, t);
      }
    }
  }

  lemma ClosedKeeps(s: State, t: TaskRef)
    requires Inv(s) && t.step.ExecutorClose? && t in s.submitted && s.exec.queue == [] && s.exec.worker == Idle
    ensures Inv(s.(exec := s.exec.(closed := true)))
  {}

  lemma SubmittedIsIssued(s: State, t: TaskRef)
    requires Inv(s) && t in s.submitted
    ensures t in s.seen.issued
  {}

  lemma CloseEndKeeps(s: State, t: TaskRef, ok: bool)
    requires Inv(s)
    ensures Inv(CloseEnd(s, t, ok))
  {
    hide Inv;
    if t.step.ExecutorClose? && t in s.submitted && t !in s.results {
      SubmittedIsIssued(s, t);
      if !ok {
        FinishKeeps(s, t, true);
      } else if s.exec.queue == [] && s.exec.worker == Idle {
        ClosedKeeps(s, t);
        FinishKeeps(s.(exec := s.exec.(closed := true)), t, false);
      }
    }
  }

  lemma CancelTaskKeeps(s: State, t: TaskRef)
    requires Inv(s)
    ensures Inv(CancelTask(s, t))
  {
    hide Inv;
    if t in s.seen.issued {
      var r := s.(seen := s.seen.(cancelled := s.seen.cancelled + {t}));
      AsidesKeep(s, s.seen.cancelled + {t}, s.seen.abandoned);
      assert r == s.(seen := s.seen.(cancelled := s.seen.cancelled + {t}, abandoned := s.seen.abandoned));
      FinishKeeps(r, t, true);
    }
  }

  lemma WithoutKeepsMembers<T>(q: seq<T>, k: nat)
    requires k < |q|
    ensures forall x <- Without(q, k) :: x in q
  {}

  lemma RecallKeeps(s: State, k: nat)
    requires Inv(s)
    ensures Inv(RecallStep(s, k))
  {
    if k < |s.exec.queue| {
      WithoutKeepsMembers(s.exec.queue, k);
      QueueKeeps(s, Without(s.exec.queue, k));
    }
  }

  lemma ConsumeKeeps(s: State, t: TaskRef)
    requires Inv(s)
    ensures Inv(Consume(s, t))
  {}

  lemma LateConsumeKeeps(s: State, t: TaskRef)
    requires Inv(s)
    ensures Inv(LateConsume(s, t))
  {
    if t in s.late && t in s.results {
      LateKeeps(s, s.late - {t});
      ConsumeKeeps(s.(late := s.late - {t}), t);
    }
  }

  /** Consuming results touches nothing but the ownership table and its tally. */
  lemma ConsumeStepFrame(s: State, step: CleanupStep)
    ensures var r := ConsumeStep(s, step);
      && r == s.(cleanup := r.cleanup, seen := s.seen.(consumed := r.seen.consumed))
      && r.cleanup ==
           if step in s.cleanup && TaskRef(step, s.cleanup[step]) in s.results then s.cleanup - {step} else s.cleanup
  {}

  lemma ConsumeFinishedFrame(s: State)
    ensures var r := ConsumeFinished(s);
      && r == s.(cleanup := r.cleanup, seen := s.seen.(consumed := r.seen.consumed))
      && (forall step :: step in r.cleanup <==> step in s.cleanup && TaskRef(step, s.cleanup[step]) !in s.results)
  {
    hide ConsumeStep;
    var r := ConsumeStep(s, DeadlineCancel);
    var q := ConsumeStep(r, SchedulerCancelAll);
    ConsumeStepFrame(s, DeadlineCancel);
    ConsumeStepFrame(r, SchedulerCancelAll);
    ConsumeStepFrame(q, ExecutorClose);
    forall step: CleanupStep
      ensures step in ConsumeStep(q, ExecutorClose).cleanup <==>
              step in s.cleanup && TaskRef(step, s.cleanup[step]) !in s.results
    {
      assert step == DeadlineCancel || step == SchedulerCancelAll || step == ExecutorClose;
    }
  }

  lemma ConsumeStepKeeps(s: State, step: CleanupStep)
    requires Inv(s)
    ensures Inv(ConsumeStep(s, step))
  {
    hide Inv;
    if step in s.cleanup {
      ConsumeKeeps(s, TaskRef(step, s.cleanup[step]));
    }
  }

  lemma ConsumeFinishedKeeps(s: State)
    requires Inv(s)
    ensures Inv(ConsumeFinished(s))
  {
    hide Inv, ConsumeStep;
    var r := ConsumeStep(s, DeadlineCancel);
    ConsumeStepKeeps(s, DeadlineCancel);
    ConsumeStepKeeps(r, SchedulerCancelAll);
    ConsumeStepKeeps(ConsumeStep(r, SchedulerCancelAll), ExecutorClose);
  }

  lemma EnterPassKeeps(r: State, unsubscribed: bool)
    requires Inv(r) && !r.accepting && !r.stopped
    ensures Inv(EnterPass(r, unsubscribed))
  {
    hide Inv;
    var t := EnterPass(r, unsubscribed);
    TallyKeeps(r, t.tally);
    LockKeeps(r.(tally := t.tally), t.lock);
    ListenerKeeps(r.(tally := t.tally, lock := t.lock), t.listener);
  }

  lemma BeginPassKeeps(s: State, unsubscribed: bool)
    requires Inv(s) && s.requests > 0 && !s.stopped && !s.accepting
    ensures Inv(BeginPass(s, unsubscribed))
  {
    hide Inv, ConsumeFinished, EnterPass;
    var r := s.(requests := s.requests - 1, stopping := true);
    RequestsKeep(s, s.requests - 1);
    StoppingKeeps(s.(requests := s.requests - 1), true);
    ConsumeFinishedKeeps(r);
    ConsumeFinishedFrame(r);
    EnterPassKeeps(ConsumeFinished(r), unsubscribed);
    assert Retire(r) == r;
  }

  lemma AskedIsRetired(s: State)
    requires Inv(s) && s.requests > 0
    ensures !s.accepting
  {}

  lemma PassBeginKeeps(s: State, unsubscribed: bool)
    requires Inv(s)
    ensures Inv(PassBeginStep(s, unsubscribed))
  {
    hide Inv, BeginPass;
    if s.lock.Free? && s.requests > 0 {
      AskedIsRetired(s);
      if s.stopped {
        RequestsKeep(s, s.requests - 1);
      } else {
        BeginPassKeeps(s, unsubscribed);
      }
    }
  }

  lemma FailIfKeeps(s: State, failed: bool)
    requires Inv(s)
    ensures Inv(FailIf(s, failed))
  {
    hide Inv;
    if failed {
      TallyKeeps(s, Fail(s).tally);
    }
  }

  /** While a pass holds the lock, admission is retired and the host not stopped. */
  lemma InPassFacts(s: State)
    requires Inv(s) && InPass(s)
    ensures !s.accepting && !s.stopped && (s.lock.Await? ==> s.lock.task in s.seen.issued)
  {}

  lemma SettleKeeps(s: State)
    requires Inv(s)
    ensures Inv(SettleStep(s))
  {
    hide Inv;
    if s.lock.AwaitCallbacks? {
      var failed := s.callbacks * s.lock.cancelled != {};
      InPassFacts(s);
      FailIfKeeps(s, failed);
      LockKeeps(FailIf(s, failed), At(DeadlineCancel));
    }
  }

  lemma IssuedOnce(s: State, t: TaskRef)
    requires Owned(s) && ConsumedOnce(s) && t.step !in s.cleanup && t !in s.seen.issued
    ensures ConsumedOnce(s.(cleanup := s.cleanup[t.step := t.id], seen := s.seen.(issued := s.seen.issued + {t})))
  {}

  lemma IssuedKeeps(s: State, t: TaskRef)
    requires Inv(s) && !s.accepting && !s.stopped && t.step !in s.cleanup && t !in s.seen.issued
    requires t.step.ExecutorClose? <==> CloseReady(s)
    ensures Inv(s.(cleanup := s.cleanup[t.step := t.id], seen := s.seen.(issued := s.seen.issued + {t})))
  {
    hide ConsumedOnce;
    IssuedOnce(s, t);
  }

  /** A pass closes the executor exactly when nothing else is left to be done. */
  lemma NeededFacts(s: State, step: CleanupStep)
    requires Inv(s) && s.lock == At(step) && Needed(s, step)
    ensures step.ExecutorClose? <==> CloseReady(s)
  {}

  lemma IssueKeeps(s: State, t: TaskRef)
    requires Inv(s) && s.lock == At(t.step) && Needed(s, t.step)
    requires t.step !in s.cleanup && t !in s.seen.issued
    ensures Inv(Issue(s, t))
  {
    hide Inv, Needed, CloseReady;
    InPassFacts(s);
    NeededFacts(s, t.step);
    IssuedKeeps(s, t);
    LockKeeps(s.(cleanup := s.cleanup[t.step := t.id], seen := s.seen.(issued := s.seen.issued + {t})), Await(t));
  }

  lemma OwnedIsIssued(s: State, step: CleanupStep)
    requires Inv(s) && step in s.cleanup
    ensures TaskRef(step, s.cleanup[step]) in s.seen.issued
  {}

  lemma SuperviseKeeps(s: State, step: CleanupStep, id: nat)
    requires Inv(s) && s.lock == At(step) && Needed(s, step)
    ensures Inv(Supervise(s, step, id))
  {
    hide Inv, Needed;
    if step in s.cleanup {
      InPassFacts(s);
      OwnedIsIssued(s, step);
      LockKeeps(s, Await(TaskRef(step, s.cleanup[step])));
    } else if TaskRef(step, id) !in s.seen.issued {
      IssueKeeps(s, TaskRef(step, id));
    }
  }

  lemma BeginCleanupKeeps(s: State, id: nat)
    requires Inv(s)
    ensures Inv(BeginCleanup(s, id))
  {
    hide Inv, Needed, Supervise;
    if s.lock.At? {
      InPassFacts(s);
      if !Needed(s, s.lock.step) {
        LockKeeps(s, Next(s.lock.step));
      } else if s.exec.closed {
        FailIfKeeps(s, true);
        LockKeeps(Fail(s), Next(s.lock.step));
      } else {
        SuperviseKeeps(s, s.lock.step, id);
      }
    }
  }

  /** Consuming one result touches nothing but the ownership table and its tally. */
  lemma ConsumeFrame(s: State, t: TaskRef)
    ensures var r := Consume(s, t); r == s.(cleanup := r.cleanup, seen := s.seen.(consumed := r.seen.consumed))
  {}

  lemma ResolveKeeps(s: State)
    requires Inv(s)
    ensures Inv(ResolveStep(s))
  {
    hide Inv, Consume;
    if s.lock.Await? && s.lock.task in s.results {
      var r := Consume(s, s.lock.task);
      InPassFacts(s);
      ConsumeKeeps(s, s.lock.task);
      ConsumeFrame(s, s.lock.task);
      FailIfKeeps(r, s.results[s.lock.task]);
      LockKeeps(FailIf(r, s.results[s.lock.task]), Next(s.lock.task.step));
    }
  }

  lemma TimeOutKeeps(s: State)
    requires Inv(s)
    ensures Inv(TimeOutStep(s))
  {
    hide Inv;
    if s.lock.Await? {
      InPassFacts(s);
      FailIfKeeps(s, true);
      LateIsIssued(s);
      LateKeeps(Fail(s), s.late + {s.lock.task});
      LockKeeps(Fail(s).(late := s.late + {s.lock.task}), Next(s.lock.task.step));
    }
  }

  lemma LateIsIssued(s: State)
    requires Inv(s)
    ensures s.late <= s.seen.issued
  {}

  lemma StoppedKeeps(r: State)
    requires Inv(r) && r.lock.Free? && !r.stopping && !r.accepting && AllReleased(r)
    ensures Inv(r.(stopped := true))
  {}

  lemma ConcludedKeeps(r: State)
    requires Inv(r) && r.lock.Free? && !r.stopping && !r.accepting
    ensures Inv(Concluded(r))
  {
    hide Inv, AllReleased;
    if AllReleased(r) {
      StoppedKeeps(r);
    } else {
      TallyKeeps(r, CountUnstopped(r).tally);
    }
  }

  lemma PassEndKeeps(s: State)
    requires Inv(s)
    ensures Inv(PassEndStep(s))
  {
    hide Inv, ConsumeFinished, Concluded;
    if s.lock.AtEnd? {
      InPassFacts(s);
      ConsumeFinishedKeeps(s);
      ConsumeFinishedFrame(s);
      StoppingKeeps(ConsumeFinished(s), false);
      LockKeeps(ConsumeFinished(s).(stopping := false), Free);
      ConcludedKeeps(ConsumeFinished(s).(stopping := false, lock := Free));
    }
  }

  lemma PassCancelKeeps(s: State)
    requires Inv(s)
    ensures Inv(PassCancelStep(s))
  {
    hide Inv;
    if InPass(s) {
      InPassFacts(s);
      var tally := CountUnstopped(Fail(s)).tally;
      var r := s.(tally := tally, lock := Free);
      TallyKeeps(s, tally);
      LockKeeps(s.(tally := tally), Free);
      if s.lock.Await? {
        AsidesKeep(r, s.seen.cancelled, s.seen.abandoned + {s.lock.task});
        assert r.seen.(cancelled := s.seen.cancelled, abandoned := s.seen.abandoned + {s.lock.task})
            == s.seen.(abandoned := s.seen.abandoned + {s.lock.task});
      }
    }
  }
}
