/** Whatever has happened to a Water Safety host, it can still be stopped, unless a timer is lost: cancel what is under
    way, then let one pass go through undisturbed. */
module WaterHostStop {
  import opened Wrappers
  import opened WaterHost
  import opened WaterHostInvariant
  import opened WaterHostPasses
  import opened WaterHostProofs
  import opened WaterHostOperations
  import opened WaterHostProgress

  ghost predicate CanStop(s: State) {
    exists later :: Run(s, later).stopped
  }

  lemma StopsAfter(s: State, events: seq<Event>)
    requires CanStop(Run(s, events))
    ensures CanStop(s)
  {
    hide Run;
    var later :| Run(Run(s, events), later).stopped;
    RunConcat(s, events, later);
    assert Run(s, events + later).stopped;
  }

  lemma StopsAfterOne(s: State, e: Event)
    requires CanStop(Apply(s, e))
    ensures CanStop(s)
  {
    hide Run, Apply, CanStop;
    RunOne(s, e);
    StopsAfter(s, [e]);
  }

  // ----- a timer is lost, or about to be

  predicate Doomed(s: State) {
    s.timers.lost != {} || s.exec.worker == Rescheduling(Missed)
  }

  /** A timer that fired before its registration leaves the worker nothing but to register it. */
  lemma MissedStays(s: State, e: Event)
    requires Inv(s) && s.exec.worker == Rescheduling(Missed)
    ensures Doomed(Apply(s, e))
  {
    hide Inv, Doomed, SameWork;
    ClosedMeansNoReschedule(s);
    if e.ArmMissed? {
      MissedIsLost(s, e.timer);
    } else if SideEvent(e) {
      MissedWaits(s, e);
    } else {
      hide Apply;
      OtherIsSameWorker(s, e);
      StaysDoomed(s, Apply(s, e));
    }
  }

  lemma StaysDoomed(s: State, t: State)
    requires s.exec.worker == Rescheduling(Missed) && t.exec.worker == s.exec.worker
    ensures Doomed(t)
  {}

  lemma MissedIsLost(s: State, timer: nat)
    requires s.exec.worker == Rescheduling(Missed) && !s.timers.closed
    ensures Doomed(Apply(s, ArmMissed(timer)))
  {}

  lemma MissedWaits(s: State, e: Event)
    requires s.exec.worker == Rescheduling(Missed) && SideEvent(e) && !e.ArmMissed?
    ensures Doomed(Apply(s, e))
  {
    hide Doomed, EntryStep, TaskStep, SubmissionStep, RuntimeStep, RescheduleStep, CleanupOpStep;
    if TaskEvent(e) {
      MissedTaskWaits(s, e);
    } else if EntryEvent(e) || SubmissionEvent(e) {
      hide Apply;
      MissedEntryWaits(s, e);
    } else {
      MissedWorkerWaits(s, e);
    }
    StaysDoomed(s, Apply(s, e));
  }

  lemma MissedWorkerWaits(s: State, e: Event)
    requires s.exec.worker == Rescheduling(Missed) && !e.ArmMissed?
    ensures RuntimeEvent(e) ==> RuntimeStep(s, e) == s
    ensures RescheduleEvent(e) ==> RescheduleStep(s, e) == s
    ensures CleanupOpEvent(e) ==> CleanupOpStep(s, e) == s
  {}

  lemma MissedEntryWaits(s: State, e: Event)
    requires EntryEvent(e) || SubmissionEvent(e)
    requires s.exec.worker == Rescheduling(Missed)
    ensures Apply(s, e).exec.worker == s.exec.worker
  {
    hide SubmissionStep, EntryStep;
    if EntryEvent(e) {
      EntryKeepsWorker(s, e);
    } else {
      SubmissionKeepsMissed(s, e);
    }
  }

  lemma EntryKeepsWorker(s: State, e: Event)
    requires EntryEvent(e)
    ensures EntryStep(s, e).exec == s.exec
  {}

  lemma SubmissionKeepsMissed(s: State, e: Event)
    requires SubmissionEvent(e) && s.exec.worker == Rescheduling(Missed)
    ensures SubmissionStep(s, e).exec.worker == s.exec.worker
  {}

  lemma MissedTaskWaits(s: State, e: Event)
    requires s.exec.worker == Rescheduling(Missed) && TaskEvent(e)
    ensures TaskStep(s, e).exec.worker == s.exec.worker
  {
    hide SubmitTask, CloseEnd, CancelTask, RecallStep;
    match e
    case TaskSubmits(t) => SubmitKeepsWorker(s, t);
    case CloseEnds(t, ok) => CloseWaits(s, t, ok);
    case TaskCancelled(t) => CancelKeepsWorker(s, t);
    case Recall(k) => RecallKeepsWorker(s, k);
  }

  lemma SubmitKeepsWorker(s: State, t: TaskRef)
    ensures SubmitTask(s, t).exec.worker == s.exec.worker
  {
    hide SubmitTask, Unsubmitted;
    if Unsubmitted(s, t) && !t.step.ExecutorClose? && !s.exec.closing {
      QueuedKeepsWorker(s, t);
    } else {
      UnqueuedKeepsWorker(s, t);
    }
  }

  lemma QueuedKeepsWorker(s: State, t: TaskRef)
    requires Unsubmitted(s, t) && !t.step.ExecutorClose? && !s.exec.closing
    ensures SubmitTask(s, t).exec.worker == s.exec.worker
  {
    hide Unsubmitted, Finish;
  }

  lemma UnqueuedKeepsWorker(s: State, t: TaskRef)
    requires !(Unsubmitted(s, t) && !t.step.ExecutorClose? && !s.exec.closing)
    ensures SubmitTask(s, t).exec.worker == s.exec.worker
  {
    hide Unsubmitted, Finish;
    FinishKeepsQueue(s, t, true);
    FinishKeepsQueue(s, t, false);
  }

  lemma CloseWaits(s: State, t: TaskRef, ok: bool)
    requires s.exec.worker != Idle
    ensures CloseEnd(s, t, ok).exec.worker == s.exec.worker
  {
    hide Finish;
    FinishKeepsQueue(s, t, true);
  }

  lemma CancelKeepsWorker(s: State, t: TaskRef)
    ensures CancelTask(s, t).exec.worker == s.exec.worker
  {
    hide Finish;
    FinishKeepsQueue(s.(seen := s.seen.(cancelled := s.seen.cancelled + {t})), t, true);
  }

  lemma RecallKeepsWorker(s: State, k: nat)
    ensures RecallStep(s, k).exec.worker == s.exec.worker
  {
    hide Without;
  }

  lemma {:induction false} DoomedStays(s: State, later: seq<Event>)
    requires Inv(s) && Doomed(s)
    ensures !Run(s, later).stopped
    decreases |later|
  {
    hide Inv, Apply;
    if later == [] {
      DoomedIsNotStopped(s);
    } else {
      if s.exec.worker == Rescheduling(Missed) {
        MissedStays(s, later[0]);
      } else {
        StepKeepsLost(s, later[0]);
      }
      ApplyKeepsInv(s, later[0]);
      DoomedStays(Apply(s, later[0]), later[1..]);
    }
  }

  lemma DoomedIsNotStopped(s: State)
    requires Inv(s) && Doomed(s)
    ensures !s.stopped
  {}

  // ----- clearing what is under way

  function WorkLeft(w: Worker): nat {
    match w
    case Idle => 0
    case Requesting => 2
    case Rescheduling(stage) => if stage.Cancelling? then 2 else 1
    case _ => 1
  }

  function Unresolved(s: State): set<TaskRef> {
    s.seen.issued - s.results.Keys
  }

  predicate Cleared(s: State) {
    && s.exec.worker.Idle? && s.lock.Free? && Unresolved(s) == {} && s.exec.queue == [] && s.callbacks == {}
  }

  /** There is a step by which the worker gets on with what it is inside. */
  lemma WorkerGetsOn(s: State) returns (e: Event)
    requires Inv(s) && !Doomed(s) && !s.exec.worker.Idle?
    ensures GetsOn(s, Apply(s, e))
  {
    hide Inv, Apply, GetsOn;
    match s.exec.worker {
      case Cleaning(t) => e := CleaningEnds(s, t);
      case Rescheduling(stage) => e := ReschedulingEnds(s);
      case Requesting =>
        RequestEnds(s);
        e := DispatchOutput;
      case InRuntime =>
        ReturnEnds(s);
        e := RuntimeReturns;
    }
  }

  predicate GetsOn(s: State, t: State) {
    !Doomed(t) && WorkLeft(t.exec.worker) < WorkLeft(s.exec.worker)
  }

  lemma WorkerOnlyGetsOn(s: State, w: Worker)
    requires !Doomed(s) && WorkLeft(w) < WorkLeft(s.exec.worker) && w != Rescheduling(Missed)
    ensures GetsOn(s, WithWorker(s, w))
  {}

  lemma ReturnEnds(s: State)
    requires !Doomed(s) && s.exec.worker.InRuntime?
    ensures GetsOn(s, Apply(s, RuntimeReturns))
  {
    hide Apply, GetsOn;
    Returns(s);
    WorkerOnlyGetsOn(s, Idle);
  }

  lemma RequestEnds(s: State)
    requires !Doomed(s) && s.exec.worker.Requesting?
    ensures GetsOn(s, Apply(s, DispatchOutput))
  {}

  lemma CleaningIsNoClose(s: State)
    requires Inv(s) && s.exec.worker.Cleaning?
    ensures s.exec.worker.task.step != ExecutorClose
  {}

  lemma FinishKeepsTimers(s: State, t: TaskRef, failed: bool)
    ensures Finish(s, t, failed).timers == s.timers && Finish(s, t, failed).exec == s.exec
  {}

  lemma CleaningEnds(s: State, t: TaskRef) returns (e: Event)
    requires Inv(s) && !Doomed(s) && s.exec.worker == Cleaning(t)
    ensures GetsOn(s, Apply(s, e))
  {
    hide Inv, Apply;
    CleaningIsNoClose(s);
    if t.step.DeadlineCancel? {
      CancelEnds(s, t);
      e := DeadlineCancelEnds(false);
    } else {
      SweepFails(s, t);
      e := SweepEnds(false);
    }
  }

  lemma CancelEnds(s: State, t: TaskRef)
    requires s.exec.worker == Cleaning(t) && t.step.DeadlineCancel?
    ensures var r := Apply(s, DeadlineCancelEnds(false)); r.exec == s.exec.(worker := Idle) && r.timers == s.timers
  {
    hide Finish, DropDeadline;
    FinishKeepsTimers(WithWorker(s, Idle), t, true);
    FinishKeepsTimers(WithWorker(s, Idle), t, false);
    if s.deadline.None? {
      NothingToDrop(s);
    }
  }

  lemma SweepFails(s: State, t: TaskRef)
    requires s.exec.worker == Cleaning(t) && t.step.SchedulerCancelAll?
    ensures var r := Apply(s, SweepEnds(false)); r.exec == s.exec.(worker := Idle) && r.timers == s.timers
  {
    hide Finish;
    FinishKeepsTimers(WithWorker(s, Idle), t, true);
  }

  lemma NothingToDrop(s: State)
    requires s.deadline.None?
    ensures DropDeadline(s) == s
  {}

  lemma CancelFails(s: State)
    requires s.exec.worker == Rescheduling(Cancelling)
    ensures Apply(s, CancelCurrent(false)) == WithWorker(s, if s.deadline.None? then Rescheduling(Checking) else Idle)
  {}

  lemma NothingIsDue(s: State)
    requires s.exec.worker == Rescheduling(Checking)
    ensures Apply(s, CheckAdmission(false)) == WithWorker(s, Idle)
  {}

  lemma ArmFails(s: State)
    requires s.exec.worker == Rescheduling(Arming)
    ensures Apply(s, ArmTimer(0, false)) == WithWorker(s, Idle)
  {}

  lemma ReschedulingEnds(s: State) returns (e: Event)
    requires !Doomed(s) && s.exec.worker.Rescheduling?
    ensures GetsOn(s, Apply(s, e))
  {
    hide Apply, GetsOn;
    match s.exec.worker.stage {
      case Cancelling =>
        CancelFails(s);
        WorkerOnlyGetsOn(s, if s.deadline.None? then Rescheduling(Checking) else Idle);
        e := CancelCurrent(false);
      case Checking =>
        NothingIsDue(s);
        WorkerOnlyGetsOn(s, Idle);
        e := CheckAdmission(false);
      case Storing(timer) =>
        StoreGetsOn(s, timer);
        e := StoreDeadline;
      case Arming =>
        ArmFails(s);
        WorkerOnlyGetsOn(s, Idle);
        e := ArmTimer(0, false);
      case Missed =>
        assert false;
    }
  }

  lemma StoreGetsOn(s: State, timer: nat)
    requires !Doomed(s) && s.exec.worker == Rescheduling(Storing(timer))
    ensures GetsOn(s, Apply(s, StoreDeadline))
  {
    hide Apply;
    Store(s, timer);
  }

  /** Whoever holds the lifecycle lock can fail or be cancelled. */
  lemma LockIsFreed(s: State) returns (e: Event)
    requires !s.lock.Free?
    ensures var t := Apply(s, e); t.lock.Free? && t.exec == s.exec && t.timers == s.timers
  {
    hide Apply;
    if s.lock.Initializing? {
      StartFails(s);
      e := InitFails(true);
    } else {
      PassIsCancelled(s);
      e := PassCancelled;
    }
  }

  lemma StartFails(s: State)
    requires s.lock.Initializing?
    ensures var t := Apply(s, InitFails(true)); t.lock.Free? && t.exec == s.exec && t.timers == s.timers
  {
    hide Retire;
    RetireOnly(s.(listener := false, lock := Free));
  }

  lemma PassIsCancelled(s: State)
    requires InPass(s)
    ensures var t := Apply(s, PassCancelled); t.lock.Free? && t.exec == s.exec && t.timers == s.timers
  {
    hide CountUnstopped, Fail;
    FailsOnly(s);
    CountsOnly(Fail(s));
  }

  lemma RetireOnly(s: State)
    ensures Retire(s) == s.(accepting := Retire(s).accepting, generation := Retire(s).generation)
  {}

  lemma TaskIsCancelled(s: State, t: TaskRef)
    requires t in Unresolved(s)
    ensures var r := Apply(s, TaskCancelled(t));
      && r.lock == s.lock && r.exec == s.exec && r.timers == s.timers && Unresolved(r) == Unresolved(s) - {t}
  {
    CancelledTaskEnds(s, t);
    hide Apply;
  }

  lemma QueuedIsCancelled(s: State)
    requires Inv(s) && Single(s) && Unresolved(s) == {} && s.exec.queue != []
    ensures s.exec.queue[0].CleanupOp? ==> s.exec.queue[0].task in s.seen.cancelled
  {
    hide ConsumedOnce, Effective, NoCleanupOpTwice;
    var op := s.exec.queue[0];
    assert op in s.exec.queue;
    if op.CleanupOp? {
      assert op.task in s.seen.issued && op.task !in Unresolved(s);
    }
  }

  lemma FirstIsRecalled(s: State)
    requires s.exec.queue != [] && (s.exec.queue[0].CleanupOp? ==> s.exec.queue[0].task in s.seen.cancelled)
    ensures Apply(s, Recall(0)) == s.(exec := s.exec.(queue := Without(s.exec.queue, 0)))
  {
    hide Without;
  }

  lemma WithoutIsShorter<T>(q: seq<T>)
    requires q != []
    ensures |Without(q, 0)| < |q|
  {}

  /** Once no task is unresolved, whatever is still queued can be recalled. */
  lemma QueueIsRecalled(s: State)
    requires Inv(s) && Single(s) && Unresolved(s) == {} && s.exec.queue != []
    ensures var t := Apply(s, Recall(0));
      t == s.(exec := s.exec.(queue := t.exec.queue)) && |t.exec.queue| < |s.exec.queue|
  {
    hide Inv, Single, Unresolved, Apply, Without;
    QueuedIsCancelled(s);
    FirstIsRecalled(s);
    WithoutIsShorter(s.exec.queue);
  }

  lemma CallbackEnds(s: State, t: nat)
    requires t in s.callbacks
    ensures Apply(s, CallbackDone(t)) == s.(callbacks := s.callbacks - {t})
  {}

  lemma {:induction false} StopsOnceCleared(s: State)
    requires Inv(s) && Single(s) && !Doomed(s)
    ensures CanStop(s)
    decreases WorkLeft(s.exec.worker), if s.lock.Free? then 0 else 1, |Unresolved(s)|, |s.exec.queue|, |s.callbacks|
  {
    hide Inv, Single, Apply, Run, CanStop;
    var e: Event := StopRequest;
    if !s.exec.worker.Idle? {
      e := WorkerGetsOn(s);
    } else if !s.lock.Free? {
      e := LockIsFreed(s);
    } else if Unresolved(s) != {} {
      var t :| t in Unresolved(s);
      e := TaskCancelled(t);
      TaskIsCancelled(s, t);
    } else if s.exec.queue != [] {
      e := Recall(0);
      QueueIsRecalled(s);
    } else if s.callbacks != {} {
      var t :| t in s.callbacks;
      e := CallbackDone(t);
      CallbackEnds(s, t);
    } else {
      ClearedStops(s);
      return;
    }
    ApplyKeepsInv(s, e);
    ApplyKeepsSingle(s, e);
    StopsOnceCleared(Apply(s, e));
    StopsAfterOne(s, e);
  }

  // ----- an undisturbed pass

  /** A pass has come as far as `lock` with nothing of the host's own in flight. */
  ghost predicate Undisturbed(s: State, lock: Lock) {
    && Inv(s) && s.lock == lock && s.exec.worker.Idle? && s.exec.queue == [] && s.callbacks == {}
    && s.cleanup == map[] && !s.listener && s.timers.lost == {}
  }

  lemma NothingIsLeftToConsume(s: State)
    requires Inv(s) && Unresolved(s) == {}
    ensures ConsumeFinished(s).cleanup == map[]
  {
    hide ConsumeFinished, ConsumedOnce, Effective;
    ConsumeFinishedFrame(s);
    forall step ensures step !in ConsumeFinished(s).cleanup {
      if step in s.cleanup {
        assert TaskRef(step, s.cleanup[step]) in s.seen.issued;
        assert TaskRef(step, s.cleanup[step]) !in Unresolved(s);
      }
    }
  }

  lemma PassIsUndisturbed(s: State)
    requires Inv(s) && Cleared(s) && !s.stopped && s.timers.lost == {} && s.requests > 0
    ensures Undisturbed(Apply(s, PassBegin(true)), AwaitCallbacks({}))
  {
    hide Inv, ConsumeFinished, Apply;
    var r := Retire(s.(stopping := true, requests := s.requests - 1));
    ApplyKeepsInv(s, PassBegin(true));
    PassEnters(s);
    AskedIsRetired(s);
    assert r == s.(stopping := true, requests := s.requests - 1);
    NothingIsLeft(s, r);
    ConsumeFinishedFrame(r);
  }

  lemma PassEnters(s: State)
    requires s.lock.Free? && !s.stopped && s.requests > 0
    ensures Apply(s, PassBegin(true)) == BeginPass(s, true)
  {
    hide BeginPass;
  }

  lemma NothingIsLeft(s: State, r: State)
    requires Inv(s) && Unresolved(s) == {}
    requires r.cleanup == s.cleanup && r.results == s.results && r.seen == s.seen
    ensures ConsumeFinished(r).cleanup == map[]
  {
    hide Inv, ConsumeFinished;
    NothingIsLeftToConsume(s);
    ConsumeFinishedFrame(s);
    ConsumeFinishedFrame(r);
    assert forall step :: step in ConsumeFinished(r).cleanup <==> step in ConsumeFinished(s).cleanup;
    assert ConsumeFinished(r).cleanup.Keys == {};
  }

  lemma RequestKeepsCleared(s: State)
    requires Cleared(s)
    ensures var t := Apply(s, StopRequest);
      Cleared(t) && t.requests > 0 && t.timers == s.timers && t.stopped == s.stopped
  {}

  lemma ClearedStops(s: State)
    requires Inv(s) && Cleared(s) && !Doomed(s)
    ensures CanStop(s)
  {
    hide Inv, Apply, CanStop, Cleared, Undisturbed;
    if s.stopped {
      RunNothing(s);
      StoppedCanStop(s);
    } else {
      var t := Apply(s, StopRequest);
      RequestKeepsCleared(s);
      ApplyKeepsInv(s, StopRequest);
      PassIsUndisturbed(t);
      PassStops(Apply(t, PassBegin(true)));
      StopsAfterOne(t, PassBegin(true));
      StopsAfterOne(s, StopRequest);
    }
  }

  lemma StoppedCanStop(s: State)
    requires s.stopped
    ensures CanStop(s)
  {
    RunNothing(s);
    assert Run(s, []).stopped;
  }

  lemma PassStops(s: State)
    requires Undisturbed(s, AwaitCallbacks({}))
    ensures CanStop(s)
  {
    hide Inv, Apply, CanStop;
    ApplyKeepsInv(s, CallbacksSettle);
    Settled(s);
    DeadlineStepStops(Apply(s, CallbacksSettle));
    StopsAfterOne(s, CallbacksSettle);
  }

  /** There is always a number no task of the step has had. */
  lemma {:induction false} FreshId(issued: set<TaskRef>, step: CleanupStep) returns (id: nat)
    ensures TaskRef(step, id) !in issued
    ensures forall t <- issued :: t.id < id
    decreases |issued|
  {
    if issued == {} {
      id := 0;
    } else {
      var t :| t in issued;
      var below := FreshId(issued - {t}, step);
      id := if t.id < below then below else t.id + 1;
      forall u <- issued ensures u.id < id {
        assert u != t ==> u in issued - {t};
      }
    }
  }

  /** The supervised operation of a needed step gets to the worker. */
  lemma OperationBegins(s: State, id: nat)
    requires s.lock.At? && !s.lock.step.ExecutorClose? && Undisturbed(s, s.lock) && Needed(s, s.lock.step)
    requires TaskRef(s.lock.step, id) !in s.seen.issued
    ensures var t := TaskRef(s.lock.step, id);
      Run(s, [BeginStep(id), TaskSubmits(t), StartOp]) ==
        StartedCleanup(Issue(s, t).(submitted := s.submitted + {t}), t)
    ensures !s.exec.closing
  {
    hide Inv, Needed, Apply, Run, Issue, StartedCleanup, Unsubmitted;
    var t := TaskRef(s.lock.step, id);
    var issued := Issue(s, t);
    NeededFacts(s, s.lock.step);
    OpenUnlessCloseReady(s);
    NotClosed(s);
    RunThree(s, BeginStep(id), TaskSubmits(t), StartOp);
    Issued(s, id);
    IssueKeepsExec(s, t);
    IssuedIsUnsubmitted(s, t);
    OperationIsQueued(issued, t);
    IssueKeepsSubmitted(s, t);
    CleanupStarts(issued.(submitted := s.submitted + {t}), t);
    assert s.exec.queue + [CleanupOp(t)] == [CleanupOp(t)];
  }

  lemma NotClosed(s: State)
    requires Inv(s) && !s.exec.closing
    ensures !s.exec.closed
  {}

  lemma IssueKeepsSubmitted(s: State, t: TaskRef)
    ensures Issue(s, t).submitted == s.submitted
  {}

  lemma CleanupStarts(s: State, t: TaskRef)
    requires s.exec.worker.Idle? && s.exec.queue == []
    ensures Apply(s.(exec := s.exec.(queue := [CleanupOp(t)])), StartOp) == StartedCleanup(s, t)
  {
    hide StartedCleanup, Apply, Popped;
    PoppedBack(s, CleanupOp(t));
    StartApplies(s.(exec := s.exec.(queue := [CleanupOp(t)])));
  }

  /** A finished task that is awaited is consumed, and nothing else has changed. */
  lemma OperationIsConsumed(s: State, t: TaskRef)
    requires Inv(s) && s.lock == Await(t) && s.cleanup == map[t.step := t.id] && t in s.results && !s.results[t]
    ensures var r := Apply(s, Resolve);
      && r.lock == Next(t.step) && r.cleanup == map[] && r.exec == s.exec && r.callbacks == s.callbacks
      && r.listener == s.listener && r.timers == s.timers && r.deadline == s.deadline
  {
    hide Inv, Apply, Consume;
    assert Current(s, t);
    ConsumesCurrent(s, t);
    ResolveConsumes(s, t);
    assert s.cleanup - {t.step} == map[];
  }

  lemma DroppedIs(s: State)
    ensures DropDeadline(s) == s.(deadline := None, timers := s.timers.(handles := Undue(s)))
  {}

  lemma FinishedIs(s: State, t: TaskRef, failed: bool)
    requires t !in s.results
    ensures Finish(s, t, failed) == s.(results := s.results[t := failed])
  {}

  lemma DeadlineIsDropped(s: State, t: TaskRef)
    requires s.exec.worker == Cleaning(t) && t.step.DeadlineCancel? && t !in s.results
    ensures Apply(s, DeadlineCancelEnds(true))
         == s.(exec := s.exec.(worker := Idle), deadline := None, results := s.results[t := false],
               timers := s.timers.(handles := Undue(s)))
  {
    hide Finish, DropDeadline, Undue;
    DroppedIs(s);
    FinishedIs(WithWorker(DropDeadline(s), Idle), t, false);
  }

  lemma {:induction false} DeadlineStepStops(s: State)
    requires Undisturbed(s, At(DeadlineCancel))
    ensures CanStop(s)
  {
    hide Inv, Apply, Run, CanStop, Needed, Issue;
    if s.deadline.None? {
      assert !Needed(s, DeadlineCancel) by { NeedsDeadline(s); }
      Skipped(s, 0);
      ApplyKeepsInv(s, BeginStep(0));
      SweepStepStops(Apply(s, BeginStep(0)));
      StopsAfterOne(s, BeginStep(0));
    } else {
      var id := FreshId(s.seen.issued, DeadlineCancel);
      var t := TaskRef(DeadlineCancel, id);
      NeedsDeadline(s);
      OperationBegins(s, id);
      var begun: seq<Event> := [BeginStep(id), TaskSubmits(t), StartOp];
      var r := Run(s, begun);
      RunKeepsInvariant(s, begun);
      InsideOperation(s, r, t);
      DeadlineIsDropped(r, t);
      var done := Apply(r, DeadlineCancelEnds(true));
      ApplyKeepsInv(r, DeadlineCancelEnds(true));
      OperationIsConsumed(done, t);
      ApplyKeepsInv(done, Resolve);
      SweepStepStops(Apply(done, Resolve));
      StopsAfterOne(done, Resolve);
      StopsAfterOne(r, DeadlineCancelEnds(true));
      StopsAfter(s, begun);
    }
  }

  lemma NeedsDeadline(s: State)
    ensures Needed(s, DeadlineCancel) <==> s.deadline.Some?
  {}

  lemma {:induction false} RunKeepsInvariant(s: State, events: seq<Event>)
    requires Inv(s)
    ensures Inv(Run(s, events))
    decreases |events|
  {
    hide Inv, Apply;
    if events != [] {
      ApplyKeepsInv(s, events[0]);
      RunKeepsInvariant(Apply(s, events[0]), events[1..]);
    }
  }

  /** Where the host is once the worker is inside the supervised operation. */
  lemma InsideOperation(s: State, r: State, t: TaskRef)
    requires Undisturbed(s, At(t.step)) && t !in s.seen.issued
    requires r == StartedCleanup(Issue(s, t).(submitted := s.submitted + {t}), t)
    ensures r.lock == Await(t) && r.cleanup == map[t.step := t.id] && t !in r.results
    ensures r.exec == s.exec.(worker := Cleaning(t)) && r.callbacks == {} && !r.listener && r.deadline == s.deadline
    ensures r.timers == s.timers.(closed := s.timers.closed || t.step.SchedulerCancelAll?)
  {}

  lemma HandleIsSwept(s: State, t: TaskRef, timer: nat)
    requires s.exec.worker == Cleaning(t) && t.step.SchedulerCancelAll?
    ensures Apply(s, SweepOne(timer)) == s.(timers := s.timers.(handles := s.timers.handles - {timer}))
  {}

  lemma SweepIsOver(s: State, t: TaskRef)
    requires s.exec.worker == Cleaning(t) && t.step.SchedulerCancelAll? && t !in s.results && s.timers.handles == {}
    ensures Apply(s, SweepEnds(true)) == s.(exec := s.exec.(worker := Idle), results := s.results[t := false])
  {}

  lemma {:induction false} SweepStops(s: State, t: TaskRef)
    requires Inv(s) && s.lock == Await(t) && s.cleanup == map[t.step := t.id] && t !in s.results
    requires t.step.SchedulerCancelAll? && s.exec.worker == Cleaning(t) && s.exec.queue == [] && s.callbacks == {}
    requires !s.listener && s.deadline.None? && s.timers.closed && s.timers.lost == {}
    ensures CanStop(s)
    decreases |s.timers.handles|
  {
    hide Inv, Apply, Run, CanStop;
    if s.timers.handles == {} {
      SweepIsOver(s, t);
      var done := Apply(s, SweepEnds(true));
      ApplyKeepsInv(s, SweepEnds(true));
      OperationIsConsumed(done, t);
      ApplyKeepsInv(done, Resolve);
      CloseStepStops(Apply(done, Resolve));
      StopsAfterOne(done, Resolve);
      StopsAfterOne(s, SweepEnds(true));
    } else {
      var timer :| timer in s.timers.handles;
      HandleIsSwept(s, t, timer);
      ApplyKeepsInv(s, SweepOne(timer));
      SweepStops(Apply(s, SweepOne(timer)), t);
      StopsAfterOne(s, SweepOne(timer));
    }
  }

  lemma NeedsSweep(s: State)
    ensures Needed(s, SchedulerCancelAll) <==> !Released(s)
  {}

  lemma {:induction false} SweepStepStops(s: State)
    requires Undisturbed(s, At(SchedulerCancelAll)) && s.deadline.None?
    ensures CanStop(s)
  {
    hide Inv, Apply, Run, CanStop, Needed, Issue;
    NeedsSweep(s);
    if Released(s) {
      Skipped(s, 0);
      ApplyKeepsInv(s, BeginStep(0));
      CloseStepStops(Apply(s, BeginStep(0)));
      StopsAfterOne(s, BeginStep(0));
    } else {
      var id := FreshId(s.seen.issued, SchedulerCancelAll);
      var t := TaskRef(SchedulerCancelAll, id);
      OperationBegins(s, id);
      var begun: seq<Event> := [BeginStep(id), TaskSubmits(t), StartOp];
      RunKeepsInvariant(s, begun);
      InsideOperation(s, Run(s, begun), t);
      SweepStops(Run(s, begun), t);
      StopsAfter(s, begun);
    }
  }

  lemma NeedsClose(s: State)
    requires Undisturbed(s, At(ExecutorClose)) && s.deadline.None? && Released(s)
    ensures Needed(s, ExecutorClose) <==> !s.exec.closed
  {}

  lemma CloseBegins(s: State, t: TaskRef)
    requires Unsubmitted(s, t) && t.step.ExecutorClose? && !s.exec.closed
    ensures Apply(s, TaskSubmits(t)) == s.(exec := s.exec.(closing := true), submitted := s.submitted + {t})
  {
    hide Finish;
  }

  lemma CloseIsOver(s: State, t: TaskRef)
    requires t.step.ExecutorClose? && t in s.submitted && t !in s.results
    requires s.exec.queue == [] && s.exec.worker == Idle
    ensures Apply(s, CloseEnds(t, true)) == s.(exec := s.exec.(closed := true), results := s.results[t := false])
  {}

  lemma IssueFacts(s: State, t: TaskRef)
    requires s.cleanup == map[]
    ensures var r := Issue(s, t);
      && r.lock == Await(t) && r.cleanup == map[t.step := t.id] && r.exec == s.exec && r.results == s.results
      && r.callbacks == s.callbacks && r.listener == s.listener && r.deadline == s.deadline && r.timers == s.timers
  {}

  lemma {:induction false} CloseStepStops(s: State)
    requires Undisturbed(s, At(ExecutorClose)) && s.deadline.None? && Released(s)
    ensures CanStop(s)
  {
    hide Inv, Apply, Run, CanStop, Needed, Issue, Unsubmitted;
    NeedsClose(s);
    if s.exec.closed {
      Skipped(s, 0);
      ApplyKeepsInv(s, BeginStep(0));
      EndStops(Apply(s, BeginStep(0)));
      StopsAfterOne(s, BeginStep(0));
    } else {
      var id := FreshId(s.seen.issued, ExecutorClose);
      var t := TaskRef(ExecutorClose, id);
      Issued(s, id);
      IssueFacts(s, t);
      IssuedIsUnsubmitted(s, t);
      NotYetEnded(s, t);
      var issued := Apply(s, BeginStep(id));
      ApplyKeepsInv(s, BeginStep(id));
      CloseBegins(issued, t);
      var closing := Apply(issued, TaskSubmits(t));
      ApplyKeepsInv(issued, TaskSubmits(t));
      CloseIsOver(closing, t);
      var done := Apply(closing, CloseEnds(t, true));
      ApplyKeepsInv(closing, CloseEnds(t, true));
      OperationIsConsumed(done, t);
      ApplyKeepsInv(done, Resolve);
      EndStops(Apply(done, Resolve));
      StopsAfterOne(done, Resolve);
      StopsAfterOne(closing, CloseEnds(t, true));
      StopsAfterOne(issued, TaskSubmits(t));
      StopsAfterOne(s, BeginStep(id));
    }
  }

  lemma NotYetEnded(s: State, t: TaskRef)
    requires Inv(s) && t !in s.seen.issued
    ensures t !in s.results
  {}

  lemma EndStops(s: State)
    requires Undisturbed(s, AtEnd) && s.deadline.None? && Released(s) && s.exec.closed
    ensures CanStop(s)
  {
    hide Inv, CanStop;
    NothingToConsume(s);
    hide ConsumeFinished;
    assert AllReleased(s.(stopping := false, lock := Free));
    assert Apply(s, PassEnd).stopped;
    StoppedCanStop(Apply(s, PassEnd));
    StopsAfterOne(s, PassEnd);
  }

  /** Whatever has happened to it, a host can still be stopped exactly if no timer is lost and none has fired before
      its registration: no failure, timeout, cancelled pass or cancelled task, and nothing left in flight, ever makes
      its stop impossible. */
  lemma {:induction false} StoppableExactlyUnlessLost(events: seq<Event>)
    ensures var s := Run(START, events);
      CanStop(s) <==> s.timers.lost == {} && s.exec.worker != Rescheduling(Missed)
  {
    hide Inv, PassInv, Single, Run;
    var s := Run(START, events);
    StartIsSound();
    RunKeepsInv(START, events);
    OneOperationPerStep(events);
    if Doomed(s) {
      forall later ensures !Run(s, later).stopped {
        DoomedStays(s, later);
      }
    } else {
      StopsOnceCleared(s);
    }
  }
}
