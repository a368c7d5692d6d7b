/** What a stop pass of the Water Safety host has achieved by each of its stages, how passes that end unstopped
    add up, and that all other steps only ever release. */
module WaterHostPasses {
  import opened WaterHost
  import opened WaterHostInvariant
  import opened Wrappers

  function Stage(lock: Lock): nat {
    match lock
    case AwaitCallbacks(_) => 1
    case At(step) => if step.DeadlineCancel? then 2 else if step.SchedulerCancelAll? then 4 else 6
    case Await(task) => if task.step.DeadlineCancel? then 3 else if task.step.SchedulerCancelAll? then 5 else 7
    case AtEnd => 8
    case _ => 0
  }

  /** A pass in which nothing failed or timed out and that began without an earlier pass's operation. */
  predicate Quiet(s: State) {
    InPass(s) && !s.tally.troubled && !s.tally.leftover
  }

  /** What a quiet pass has achieved by each stage; `racing` passes leave the deadline out, and a lost timer
      keeps the executor open. */
  ghost predicate Progress(s: State) {
    && !s.listener
    && (forall step <- s.cleanup :: s.lock.Await? && step == s.lock.task.step)
    && (Stage(s.lock) >= 2 ==> s.callbacks == {})
    && (Stage(s.lock) >= 4 && !s.tally.racing ==> s.deadline.None?)
    && (Stage(s.lock) >= 6 ==> Swept(s))
    && (Stage(s.lock) == 8 && !s.tally.racing ==> s.exec.closed || s.timers.lost != {})
  }

  /** The failure still to be charged for operations an earlier pass left in flight. */
  function Debt(s: State): nat {
    if InPass(s) then (if s.tally.troubled || s.tally.leftover then 1 else 0)
    else if s.cleanup != map[] then 1 else 0
  }

  predicate Balanced(s: State) {
    && s.tally.unstopped + (if InPass(s) && s.tally.troubled then 1 else 0)
       <= s.tally.failures + s.tally.busy + s.tally.drained + s.tally.blocked + s.tally.quiet
    && s.tally.drained + Debt(s) <= s.tally.failures
    && s.tally.quiet <= 1
    && (s.tally.quiet == 1 ==> !s.accepting && !s.exec.worker.Rescheduling?)
    && (InPass(s) && s.tally.racing ==> s.tally.quiet == 0)
  }

  /** The wait and the stage of the pass fit the state. */
  ghost predicate Staged(s: State) {
    && (s.lock.AwaitCallbacks? ==> s.callbacks <= s.lock.cancelled)
    && (s.lock.Await? && s.lock.task.step in s.cleanup ==> s.cleanup[s.lock.task.step] == s.lock.task.id)
    && (InPass(s) && !s.tally.racing ==> !s.exec.worker.Rescheduling?)
    && (Quiet(s) ==> Progress(s))
  }

  ghost predicate PassInv(s: State) {
    Staged(s) && Balanced(s)
  }

  /** Both gates are shut: logical admission and the output port. */
  predicate Hushed(s: State) {
    s.portQuiescent && !s.accepting
  }

  /** A reschedule past its admission check, about to arm a timer. */
  function AboutToArm(s: State): nat {
    if s.exec.worker == Rescheduling(Arming) || s.exec.worker == Rescheduling(Missed) then 1 else 0
  }

  /** No service call began, no logical operation was admitted, and a timer was armed only by the reschedule
      that was already past its admission check, if there was one. */
  predicate Muted(s: State, t: State) {
    && t.seen.calls == s.seen.calls && t.seen.admitted == s.seen.admitted
    && t.seen.armed + AboutToArm(t) <= s.seen.armed + AboutToArm(s)
  }

  /** The fields that belong to the startup and the pass. */
  predicate SamePass(s: State, t: State) {
    && t.lock == s.lock && t.listener == s.listener && t.leaked == s.leaked
    && t.cleanup == s.cleanup && t.late == s.late
    && t.seen.abandoned == s.seen.abandoned && t.seen.issued == s.seen.issued && t.tally == s.tally
    && t.stopping == s.stopping && t.stopped == s.stopped
  }

  /** What is closed, swept or lost stays so. */
  predicate ClosedStays(s: State, t: State) {
    && (s.exec.closed ==> t.exec.closed) && (Swept(s) ==> Swept(t)) && s.timers.lost <= t.timers.lost
    && (s.timers.closed ==> t.timers.closed && t.timers.lost == s.timers.lost)
    && (s.portQuiescent ==> t.portQuiescent)
  }

  /** No reschedule starts, no deadline or callback comes back. */
  predicate NothingComesBack(s: State, t: State) {
    && !t.accepting && t.callbacks <= s.callbacks
    && (!s.exec.worker.Rescheduling? ==> !t.exec.worker.Rescheduling? && (s.deadline.None? ==> t.deadline.None?))
  }

  /** Steps of the worker, of cleanup tasks and of entry points leave the pass's own fields alone, and after
      retirement they only ever release. */
  predicate OnlyReleases(s: State, t: State) {
    && SamePass(s, t) && ClosedStays(s, t)
    && (!s.accepting ==> NothingComesBack(s, t))
    && (Hushed(s) ==> Hushed(t) && Muted(s, t))
  }

  lemma OnlyReleasesKeepsPass(s: State, t: State)
    requires PassInv(s) && OnlyReleases(s, t) && (InPass(s) ==> !s.accepting)
    ensures PassInv(t)
  {}

  lemma SelfOnlyReleases(s: State)
    ensures OnlyReleases(s, s)
  {}

  lemma ExecOnlyReleases(s: State, exec: Executor)
    requires (s.exec.closed ==> exec.closed) && (exec.worker.Rescheduling? ==> s.exec.worker.Rescheduling?)
    requires Hushed(s) ==> AboutToArm(s.(exec := exec)) <= AboutToArm(s)
    ensures OnlyReleases(s, s.(exec := exec))
  {}

  lemma CallbacksOnlyRelease(s: State, t: nat)
    ensures OnlyReleases(s, OnStateChange(s, t))
    ensures OnlyReleases(s, OnTick(s, t))
    ensures OnlyReleases(s, OnCallbackDone(s, t))
  {
    hide OnlyReleases;
    SelfOnlyReleases(s);
    CallbackSetOnlyReleases(s, s.callbacks - {t});
    if s.accepting {
      CallbackSetOnlyReleases(s, s.callbacks + {t});
    }
  }

  lemma CallbackSetOnlyReleases(s: State, callbacks: set<nat>)
    requires s.accepting || callbacks <= s.callbacks
    ensures OnlyReleases(s, s.(callbacks := callbacks))
  {}

  lemma FiringOnlyReleases(s: State, timer: nat, t: nat, runs: bool)
    ensures OnlyReleases(s, OnTimer(s, timer, t, runs))
  {
    SelfOnlyReleases(s);
    var r := s.(timers := s.timers.(handles := s.timers.handles - {timer}));
    assert OnlyReleases(s, r);
    assert s.accepting ==> OnlyReleases(s, r.(callbacks := s.callbacks + {t}));
  }

  lemma SweepOneOnlyReleases(s: State, timer: nat)
    ensures OnlyReleases(s, SweepOneStep(s, timer))
  {
    SelfOnlyReleases(s);
    assert OnlyReleases(s, s.(timers := s.timers.(handles := s.timers.handles - {timer})));
  }

  lemma SubmitOnlyReleases(s: State, generation: nat, call: Call)
    ensures OnlyReleases(s, Submit(s, generation, call))
  {
    hide OnlyReleases;
    SelfOnlyReleases(s);
    ExecOnlyReleases(s, s.exec.(queue := s.exec.queue + [Logical(generation, call)]));
  }

  lemma DispatchOnlyReleases(s: State)
    ensures OnlyReleases(s, Dispatch(s))
  {
    SelfOnlyReleases(s);
    ExecOnlyReleases(s, s.exec.(worker := InRuntime));
  }

  lemma RequestStopOnlyReleases(s: State)
    ensures OnlyReleases(s, RequestStop(s))
  {}

  lemma StartedOnlyReleases(s: State, op: Op)
    requires !s.exec.closed
    ensures OnlyReleases(s, StartedOp(s, op))
  {
    if op.Logical? {
      StartedLogicalOnlyReleases(s, op.generation, op.call);
    } else {
      StartedCleanupOnlyReleases(s, op.task);
    }
  }

  lemma StartedLogicalOnlyReleases(s: State, generation: nat, call: Call)
    ensures OnlyReleases(s, StartedLogical(s, generation, call))
  {
    SelfOnlyReleases(s);
    if s.accepting {
      var w := if call.RuntimeCall? then InRuntime else Rescheduling(Cancelling);
      AdmittedOnlyReleases(s, w);
    }
  }

  lemma AdmittedOnlyReleases(s: State, w: Worker)
    requires s.accepting
    ensures OnlyReleases(s, s.(exec := s.exec.(worker := w), seen := s.seen.(admitted := s.seen.admitted + 1)))
  {}

  lemma StartedCleanupOnlyReleases(s: State, t: TaskRef)
    ensures OnlyReleases(s, StartedCleanup(s, t))
  {}

  lemma StartOnlyReleases(s: State)
    requires s.exec.closed ==> s.exec.queue == []
    ensures OnlyReleases(s, StartNext(s))
  {
    if s.exec.worker == Idle && s.exec.queue != [] {
      StartedOnlyReleases(Popped(s), s.exec.queue[0]);
    }
  }

  lemma RequestOnlyReleases(s: State)
    ensures OnlyReleases(s, Request(s))
  {
    hide OnlyReleases;
    SelfOnlyReleases(s);
    ExecOnlyReleases(s, s.exec.(worker := Requesting));
  }

  lemma ReturnOnlyReleases(s: State)
    ensures OnlyReleases(s, ReturnFromRuntime(s))
  {
    hide OnlyReleases;
    SelfOnlyReleases(s);
    ExecOnlyReleases(s, s.exec.(worker := Idle));
  }

  lemma CheckOnlyReleases(s: State, due: bool)
    ensures OnlyReleases(s, CheckStep(s, due))
  {
    hide OnlyReleases;
    SelfOnlyReleases(s);
    if s.exec.worker.Rescheduling? {
      ExecOnlyReleases(s, s.exec.(worker := if s.accepting && due then Rescheduling(Arming) else Idle));
    }
  }

  lemma ArmOnlyReleases(s: State, timer: nat, ok: bool)
    requires s.timers.closed ==> !s.exec.worker.Rescheduling?
    ensures OnlyReleases(s, ArmStep(s, timer, ok))
  {
    SelfOnlyReleases(s);
    ExecOnlyReleases(s, s.exec.(worker := Idle));
    if s.exec.worker == Rescheduling(Arming) {
      assert OnlyReleases(s, s.(exec := s.exec.(worker := Rescheduling(Storing(timer))),
                                timers := s.timers.(handles := s.timers.handles + {timer}),
                                seen := s.seen.(armed := s.seen.armed + 1)));
    }
  }

  lemma FireEarlyOnlyReleases(s: State, t: nat)
    ensures OnlyReleases(s, FireEarly(s, t))
  {
    SelfOnlyReleases(s);
    if s.exec.worker == Rescheduling(Arming) {
      ExecOnlyReleases(s, s.exec.(worker := Rescheduling(Missed)));
      var r := WithWorker(s, Rescheduling(Missed));
      assert s.accepting ==> OnlyReleases(s, r.(callbacks := s.callbacks + {t}));
    }
  }

  lemma ArmMissedOnlyReleases(s: State, timer: nat)
    requires s.timers.closed ==> !s.exec.worker.Rescheduling?
    ensures OnlyReleases(s, ArmMissedStep(s, timer))
  {
    SelfOnlyReleases(s);
    if s.exec.worker == Rescheduling(Missed) {
      assert OnlyReleases(s, s.(exec := s.exec.(worker := Rescheduling(Storing(timer))),
                                timers := s.timers.(lost := s.timers.lost + {timer}),
                                seen := s.seen.(armed := s.seen.armed + 1)));
    }
  }

  lemma StoreOnlyReleases(s: State)
    ensures OnlyReleases(s, StoreStep(s))
  {
    SelfOnlyReleases(s);
    if s.exec.worker.Rescheduling? && s.exec.worker.stage.Storing? {
      assert OnlyReleases(s, s.(exec := s.exec.(worker := Idle), deadline := Some(s.exec.worker.stage.timer)));
    }
  }

  lemma ReleasesChain(s: State, t: State, u: State)
    requires OnlyReleases(s, t) && OnlyReleases(t, u)
    ensures OnlyReleases(s, u)
  {}

  lemma FinishOnlyReleases(s: State, t: TaskRef, failed: bool)
    ensures OnlyReleases(s, Finish(s, t, failed))
  {
    SelfOnlyReleases(s);
    assert OnlyReleases(s, s.(results := s.results[t := failed]));
  }

  lemma DropOnlyReleases(s: State)
    ensures OnlyReleases(s, DropDeadline(s)) && DropDeadline(s).exec == s.exec
  {
    SelfOnlyReleases(s);
    if s.deadline.Some? {
      assert OnlyReleases(
        s, s.(timers := s.timers.(handles := s.timers.handles - {s.deadline.value}), deadline := None));
    }
  }

  lemma CancelCurrentOnlyReleases(s: State, ok: bool)
    ensures OnlyReleases(s, CancelCurrentStep(s, ok))
  {
    hide OnlyReleases;
    SelfOnlyReleases(s);
    if s.exec.worker == Rescheduling(Cancelling) {
      DropOnlyReleases(s);
      ExecOnlyReleases(DropDeadline(s), s.exec.(worker := Rescheduling(Checking)));
      ReleasesChain(s, DropDeadline(s), WithWorker(DropDeadline(s), Rescheduling(Checking)));
      ExecOnlyReleases(s, s.exec.(worker := Idle));
    }
  }

  lemma EndOpOnlyReleases(s: State, t: TaskRef, failed: bool)
    ensures OnlyReleases(s, Finish(WithWorker(s, Idle), t, failed))
  {
    hide OnlyReleases;
    ExecOnlyReleases(s, s.exec.(worker := Idle));
    FinishOnlyReleases(WithWorker(s, Idle), t, failed);
    ReleasesChain(s, WithWorker(s, Idle), Finish(WithWorker(s, Idle), t, failed));
  }

  lemma DeadlineCancelOnlyReleases(s: State, ok: bool)
    ensures OnlyReleases(s, DeadlineCancelEnd(s, ok))
  {
    hide OnlyReleases;
    SelfOnlyReleases(s);
    if InCleanup(s, DeadlineCancel) {
      var t := s.exec.worker.task;
      DropOnlyReleases(s);
      EndOpOnlyReleases(DropDeadline(s), t, false);
      ReleasesChain(s, DropDeadline(s), Finish(WithWorker(DropDeadline(s), Idle), t, false));
      EndOpOnlyReleases(s, t, true);
    }
  }

  lemma SweepOnlyReleases(s: State, ok: bool)
    ensures OnlyReleases(s, SweepEnd(s, ok))
  {
    hide OnlyReleases;
    SelfOnlyReleases(s);
    if InCleanup(s, SchedulerCancelAll) {
      EndOpOnlyReleases(s, s.exec.worker.task, !ok);
    }
  }

  lemma QueueOnlyReleases(s: State, t: TaskRef)
    ensures OnlyReleases(s, s.(exec := s.exec.(closing := true), submitted := s.submitted + {t}))
    ensures OnlyReleases(s, s.(exec := s.exec.(queue := s.exec.queue + [CleanupOp(t)]), submitted := s.submitted + {t}))
  {}

  lemma SubmitTaskOnlyReleases(s: State, t: TaskRef)
    ensures OnlyReleases(s, SubmitTask(s, t))
  {
    hide OnlyReleases;
    SelfOnlyReleases(s);
    QueueOnlyReleases(s, t);
    FinishOnlyReleases(s, t, false);
    FinishOnlyReleases(s, t, true);
  }

  lemma CloseEndOnlyReleases(s: State, t: TaskRef, ok: bool)
    ensures OnlyReleases(s, CloseEnd(s, t, ok))
  {
    hide OnlyReleases;
    SelfOnlyReleases(s);
    FinishOnlyReleases(s, t, true);
    var closed := s.(exec := s.exec.(closed := true));
    ExecOnlyReleases(s, closed.exec);
    FinishOnlyReleases(closed, t, false);
    ReleasesChain(s, closed, Finish(closed, t, false));
  }

  lemma CancelTaskOnlyReleases(s: State, t: TaskRef)
    ensures OnlyReleases(s, CancelTask(s, t))
  {
    SelfOnlyReleases(s);
    var r := s.(seen := s.seen.(cancelled := s.seen.cancelled + {t}));
    FinishOnlyReleases(r, t, true);
    ReleasesChain(s, r, Finish(r, t, true));
  }

  lemma RecallOnlyReleases(s: State, k: nat)
    ensures OnlyReleases(s, RecallStep(s, k))
  {
    hide OnlyReleases;
    SelfOnlyReleases(s);
    if k < |s.exec.queue| {
      ExecOnlyReleases(s, s.exec.(queue := Without(s.exec.queue, k)));
    }
  }

  lemma LateConsumeKeepsPass(s: State, t: TaskRef)
    requires PassInv(s)
    ensures PassInv(LateConsume(s, t))
  {
    hide Balanced, Consume;
    if t in s.late && t in s.results {
      var r := s.(late := s.late - {t});
      BalancedFrame(s, r);
      assert Staged(r);
      ConsumeKeepsPass(r, t);
    }
  }

  lemma ConsumeKeepsPass(s: State, t: TaskRef)
    requires PassInv(s)
    ensures PassInv(Consume(s, t))
  {}

  lemma BalancedFrame(s: State, t: State)
    requires Balanced(s) && t.tally == s.tally && InPass(s) == InPass(t) && (t.cleanup != map[] ==> s.cleanup != map[])
    requires s.exec == t.exec && (t.accepting ==> s.accepting)
    ensures Balanced(t)
  {}

  /** Outside a pass only the balance counts. */
  lemma OutsideKeepsPass(s: State, t: State)
    requires PassInv(s) && !InPass(s) && !InPass(t)
    requires t.tally == s.tally && t.cleanup == s.cleanup && t.exec == s.exec && (t.accepting ==> s.accepting)
    ensures PassInv(t)
  {
    hide Balanced;
    BalancedFrame(s, t);
  }

  /** A failure in a pass ends its quiet; the pass then only has to go on. */
  lemma FailureKeepsPass(s: State, t: State)
    requires PassInv(s) && InPass(s) && (t.lock.At? || t.lock.AtEnd?)
    requires t.tally == Fail(s).tally && t.exec == s.exec && t.accepting == s.accepting
    ensures PassInv(t)
  {}

  lemma InitBeginKeepsPass(s: State, raises: bool, unsubscribed: bool)
    requires PassInv(s)
    ensures PassInv(InitBeginStep(s, raises, unsubscribed))
  {
    hide PassInv;
    if s.lock.Free? {
      OutsideKeepsPass(s, InitBeginStep(s, raises, unsubscribed));
    }
  }

  lemma InitFailKeepsPass(s: State, unsubscribed: bool)
    requires PassInv(s)
    ensures PassInv(InitFailStep(s, unsubscribed))
  {
    hide PassInv;
    if s.lock.Initializing? {
      OutsideKeepsPass(s, InitFailStep(s, unsubscribed));
    }
  }

  lemma InitEndKeepsPass(s: State)
    requires PassInv(s)
    ensures PassInv(InitEndStep(s))
  {
    hide PassInv;
    if s.lock.Initializing? {
      OutsideKeepsPass(s, InitEndStep(s));
    }
  }

  /** The pass starts out with its callbacks awaited and, if quiet, without a cleanup task of its own. */
  lemma EnterKeepsPass(r: State, unsubscribed: bool)
    requires Balanced(r) && !InPass(r) && !r.accepting
    ensures PassInv(EnterPass(r, unsubscribed))
  {}

  lemma PassBeginKeepsPass(s: State, unsubscribed: bool)
    requires Inv(s) && PassInv(s)
    ensures PassInv(PassBeginStep(s, unsubscribed))
  {
    hide Inv, Balanced, EnterPass, ConsumeFinished;
    if s.requests > 0 && s.lock.Free? {
      AskedIsRetired(s);
      if s.stopped {
        OutsideKeepsPass(s, s.(requests := s.requests - 1));
      } else {
        var r := s.(stopping := true, requests := s.requests - 1);
        assert Retire(r) == r;
        ConsumeFinishedFrame(r);
        BalancedFrame(s, ConsumeFinished(r));
        EnterKeepsPass(ConsumeFinished(r), unsubscribed);
      }
    }
  }

  lemma SettledKeepsPass(s: State)
    requires PassInv(s) && s.lock.AwaitCallbacks? && s.callbacks * s.lock.cancelled == {}
    ensures PassInv(s.(lock := At(DeadlineCancel)))
  {
    assert s.callbacks == {};
  }

  lemma SettleKeepsPass(s: State)
    requires PassInv(s)
    ensures PassInv(SettleStep(s))
  {
    hide PassInv;
    if s.lock.AwaitCallbacks? {
      if s.callbacks * s.lock.cancelled == {} {
        SettledKeepsPass(s);
      } else {
        FailureKeepsPass(s, SettleStep(s));
      }
    }
  }

  lemma TimeOutKeepsPass(s: State)
    requires PassInv(s)
    ensures PassInv(TimeOutStep(s))
  {
    hide PassInv;
    if s.lock.Await? && s.lock.task !in s.results {
      FailureKeepsPass(s, TimeOutStep(s));
    }
  }

  lemma CancelledKeepsPass(s: State, t: State)
    requires PassInv(s) && InPass(s) && t.lock.Free? && t.tally == CountUnstopped(Fail(s)).tally
    requires t.exec == s.exec && t.accepting == s.accepting
    ensures PassInv(t)
  {}

  lemma PassCancelKeepsPass(s: State)
    requires PassInv(s)
    ensures PassInv(PassCancelStep(s))
  {
    hide PassInv;
    if InPass(s) {
      CancelledKeepsPass(s, PassCancelStep(s));
    }
  }

  lemma SkipKeepsPass(s: State)
    requires Inv(s) && PassInv(s) && s.lock.At? && !Needed(s, s.lock.step)
    ensures PassInv(s.(lock := Next(s.lock.step)))
  {}

  lemma SupervisedKeepsPass(s: State, step: CleanupStep, id: nat)
    requires PassInv(s) && s.lock == At(step) && (step in s.cleanup ==> s.cleanup[step] == id)
    ensures PassInv(s.(cleanup := s.cleanup[step := id], lock := Await(TaskRef(step, id))))
  {
    var t := s.(cleanup := s.cleanup[step := id], lock := Await(TaskRef(step, id)));
    assert Staged(t);
    assert Balanced(t);
  }

  lemma SuperviseKeepsPass(s: State, step: CleanupStep, id: nat)
    requires PassInv(s) && s.lock == At(step)
    ensures PassInv(Supervise(s, step, id))
  {
    hide Balanced;
    if step in s.cleanup {
      SupervisedKeepsPass(s, step, s.cleanup[step]);
      assert s.cleanup[step := s.cleanup[step]] == s.cleanup;
    } else {
      var t := TaskRef(step, id);
      SupervisedKeepsPass(s, step, id);
      BalancedFrame(s.(cleanup := s.cleanup[step := id], lock := Await(t)), Issue(s, t));
      assert Staged(Issue(s, t));
    }
  }

  lemma BeginCleanupKeepsPass(s: State, id: nat)
    requires Inv(s) && PassInv(s)
    ensures PassInv(BeginCleanup(s, id))
  {
    hide Inv, PassInv, Supervise, Needed;
    if s.lock.At? {
      if !Needed(s, s.lock.step) {
        SkipKeepsPass(s);
      } else if s.exec.closed {
        FailureKeepsPass(s, BeginCleanup(s, id));
      } else {
        SuperviseKeepsPass(s, s.lock.step, id);
      }
    }
  }

  lemma ResolveKeepsPass(s: State)
    requires Inv(s) && PassInv(s)
    ensures PassInv(ResolveStep(s))
  {
    hide Inv, PassInv, Consume;
    if s.lock.Await? && s.lock.task in s.results {
      var t := s.lock.task;
      ConsumeKeepsPass(s, t);
      ConsumeFrame(s, t);
      if s.results[t] {
        FailureKeepsPass(Consume(s, t), ResolveStep(s));
      } else {
        ResolvedKeepsPass(s, t);
      }
    }
  }

  /** An awaited task that ended well has brought a quiet pass one stage further. */
  lemma ResolvedKeepsPass(s: State, t: TaskRef)
    requires Inv(s) && PassInv(s) && s.lock == Await(t) && t in s.results && !s.results[t] && PassInv(Consume(s, t))
    ensures PassInv(Consume(s, t).(lock := Next(t.step)))
  {
    hide Balanced, ConsumedOnce, Owned;
    BalancedFrame(Consume(s, t), Consume(s, t).(lock := Next(t.step)));
  }

  predicate SameSinceEnd(s: State, r: State) {
    && r.tally == s.tally && r.accepting == s.accepting && r.listener == s.listener && r.callbacks == s.callbacks
    && r.deadline == s.deadline && r.timers == s.timers && r.exec == s.exec
    && (r.cleanup != map[] ==> s.cleanup != map[])
  }

  /** A quiet pass leaves no cleanup task; one that ends unstopped and without a lost timer is the racing one. */
  lemma QuietEnd(s: State, r: State)
    requires Staged(s) && s.lock.AtEnd? && Quiet(s) && SameSinceEnd(s, r)
    ensures s.cleanup == map[] && r.timers.closed
    ensures !AllReleased(r) && s.timers.lost == {} ==> s.tally.racing
  {}

  lemma ConcludedKeepsPass(s: State, r: State)
    requires PassInv(s) && s.lock.AtEnd? && !s.accepting && (s.timers.closed ==> !s.exec.worker.Rescheduling?)
    requires r.lock.Free? && SameSinceEnd(s, r)
    ensures PassInv(Concluded(r))
  {
    hide Staged;
    if Quiet(s) {
      QuietEnd(s, r);
    }
    ConcludedIsBalanced(s, r);
    ConcludedIsStaged(r);
  }

  lemma ConcludedIsStaged(r: State)
    requires r.lock.Free?
    ensures Staged(Concluded(r))
  {}

  lemma ConcludedIsBalanced(s: State, r: State)
    requires Balanced(s) && s.lock.AtEnd? && !s.accepting && r.lock.Free? && SameSinceEnd(s, r)
    requires AllReleased(r) || Quiet(s) ==> r.cleanup == map[]
    requires !AllReleased(r) && Quiet(s) && s.timers.lost == {} ==> s.tally.racing && !s.exec.worker.Rescheduling?
    ensures Balanced(Concluded(r))
  {
    hide AllReleased;
    if AllReleased(r) {
      assert Balanced(r.(stopped := true));
    } else {
      assert Balanced(CountUnstopped(r));
    }
  }

  lemma PassEndKeepsPass(s: State)
    requires Inv(s) && PassInv(s)
    ensures PassInv(PassEndStep(s))
  {
    hide Inv, PassInv, ConsumeFinished, Concluded;
    if s.lock.AtEnd? {
      InPassFacts(s);
      ConsumeFinishedFrame(s);
      ClosedMeansNoReschedule(s);
      ConcludedKeepsPass(s, ConsumeFinished(s).(stopping := false, lock := Free));
    }
  }
}
