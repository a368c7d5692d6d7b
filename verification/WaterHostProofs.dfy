/** What every interleaving of the Water Safety host keeps, and what follows for its stop. */
module WaterHostProofs {
  import opened WaterHost
  import opened WaterHostInvariant
  import opened WaterHostPasses
  import opened Wrappers

  // ----- every event

  lemma EntryKeepsInv(s: State, e: Event)
    requires Inv(s) && EntryEvent(e)
    ensures Inv(EntryStep(s, e))
  {
    hide Inv, OnStateChange, OnTimer, OnTick, OnCallbackDone;
    match e
    case StateChange(t) => StateChangeKeeps(s, t);
    case TimerFires(timer, t, runs) => OnTimerKeeps(s, timer, t, runs);
    case EnqueueTick(t) => StateChangeKeeps(s, t);
    case CallbackDone(t) => OnCallbackDoneKeeps(s, t);
  }

  lemma SubmissionKeepsInv(s: State, e: Event)
    requires Inv(s) && SubmissionEvent(e)
    ensures Inv(SubmissionStep(s, e))
  {
    hide Inv, Submit, Dispatch, RequestStop;
    match e
    case SubmitLogical(generation, call) => SubmitKeeps(s, generation, call);
    case DispatchOutput => DispatchKeeps(s);
    case StopRequest => RequestStopKeeps(s);
  }

  lemma StartupKeepsInv(s: State, e: Event)
    requires Inv(s) && StartupEvent(e)
    ensures Inv(StartupStep(s, e))
  {
    hide Inv, InitBeginStep, InitFailStep, InitEndStep;
    match e
    case InitBegin(raises, unsubscribed) => InitBeginKeeps(s, raises, unsubscribed);
    case InitFails(unsubscribed) => InitFailKeeps(s, unsubscribed);
    case InitEnds => InitEndKeeps(s);
  }

  lemma RuntimeKeepsInv(s: State, e: Event)
    requires Inv(s) && RuntimeEvent(e)
    ensures Inv(RuntimeStep(s, e))
  {
    hide Inv, StartNext, Request, ReturnFromRuntime;
    match e
    case StartOp => StartNextKeeps(s);
    case RequestOutput => RequestKeeps(s);
    case RuntimeReturns => ReturnKeeps(s);
  }

  lemma RescheduleKeepsInv(s: State, e: Event)
    requires Inv(s) && RescheduleEvent(e)
    ensures Inv(RescheduleStep(s, e))
  {
    hide Inv, CancelCurrentStep, CheckStep, ArmStep, FireEarly, ArmMissedStep, StoreStep;
    match e
    case CancelCurrent(ok) => CancelCurrentKeeps(s, ok);
    case CheckAdmission(due) => CheckKeeps(s, due);
    case ArmTimer(timer, ok) => ArmKeeps(s, timer, ok);
    case FiresEarly(t) => FireEarlyKeeps(s, t);
    case ArmMissed(timer) => ArmMissedKeeps(s, timer);
    case StoreDeadline => StoreKeeps(s);
  }

  lemma CleanupOpKeepsInv(s: State, e: Event)
    requires Inv(s) && CleanupOpEvent(e)
    ensures Inv(CleanupOpStep(s, e))
  {
    hide Inv, DeadlineCancelEnd, SweepOneStep, SweepEnd;
    match e
    case DeadlineCancelEnds(ok) => DeadlineCancelEndKeeps(s, ok);
    case SweepOne(timer) => SweepOneKeeps(s, timer);
    case SweepEnds(ok) => SweepEndKeeps(s, ok);
  }

  lemma TaskKeepsInv(s: State, e: Event)
    requires Inv(s) && TaskEvent(e)
    ensures Inv(TaskStep(s, e))
  {
    hide Inv, SubmitTask, CloseEnd, CancelTask, RecallStep;
    match e
    case TaskSubmits(t) => SubmitTaskKeeps(s, t);
    case CloseEnds(t, ok) => CloseEndKeeps(s, t, ok);
    case TaskCancelled(t) => CancelTaskKeeps(s, t);
    case Recall(k) => RecallKeeps(s, k);
  }

  lemma PassStartKeepsInv(s: State, e: Event)
    requires Inv(s) && PassStartEvent(e)
    ensures Inv(PassStartStep(s, e))
  {
    hide Inv, PassBeginStep, SettleStep, BeginCleanup;
    match e
    case PassBegin(unsubscribed) => PassBeginKeeps(s, unsubscribed);
    case CallbacksSettle => SettleKeeps(s);
    case BeginStep(id) => BeginCleanupKeeps(s, id);
  }

  lemma PassExitKeepsInv(s: State, e: Event)
    requires Inv(s) && PassExitEvent(e)
    ensures Inv(PassExitStep(s, e))
  {
    hide Inv, TimeOutStep, PassCancelStep;
    match e
    case TimeOut => TimeOutKeeps(s);
    case PassCancelled => PassCancelKeeps(s);
  }

  lemma ApplyKeepsInv(s: State, e: Event)
    requires Inv(s)
    ensures Inv(Apply(s, e))
  {
    hide Inv;
    if EntryEvent(e) {
      EntryKeepsInv(s, e);
    } else if SubmissionEvent(e) {
      SubmissionKeepsInv(s, e);
    } else if StartupEvent(e) {
      StartupKeepsInv(s, e);
    } else if RuntimeEvent(e) {
      RuntimeKeepsInv(s, e);
    } else if RescheduleEvent(e) {
      RescheduleKeepsInv(s, e);
    } else if CleanupOpEvent(e) {
      CleanupOpKeepsInv(s, e);
    } else if TaskEvent(e) {
      TaskKeepsInv(s, e);
    } else if PassStartEvent(e) {
      PassStartKeepsInv(s, e);
    } else if PassExitEvent(e) {
      PassExitKeepsInv(s, e);
    } else if e.LateCallback? {
      LateConsumeKeeps(s, e.task);
    } else if e.Resolve? {
      ResolveKeeps(s);
    } else {
      PassEndKeeps(s);
    }
  }

  lemma EntryOnlyReleases(s: State, e: Event)
    requires EntryEvent(e)
    ensures OnlyReleases(s, EntryStep(s, e))
  {
    hide OnlyReleases, OnStateChange, OnTimer, OnTick, OnCallbackDone;
    match e
    case StateChange(t) => CallbacksOnlyRelease(s, t);
    case TimerFires(timer, t, runs) => FiringOnlyReleases(s, timer, t, runs);
    case EnqueueTick(t) => CallbacksOnlyRelease(s, t);
    case CallbackDone(t) => CallbacksOnlyRelease(s, t);
  }

  lemma SubmissionOnlyReleases(s: State, e: Event)
    requires SubmissionEvent(e)
    ensures OnlyReleases(s, SubmissionStep(s, e))
  {
    hide OnlyReleases, Submit, Dispatch, RequestStop;
    match e
    case SubmitLogical(generation, call) => SubmitOnlyReleases(s, generation, call);
    case DispatchOutput => DispatchOnlyReleases(s);
    case StopRequest => RequestStopOnlyReleases(s);
  }

  lemma RuntimeOnlyReleases(s: State, e: Event)
    requires RuntimeEvent(e)
    requires (s.timers.closed ==> !s.exec.worker.Rescheduling?) && (s.exec.closed ==> s.exec.queue == [])
    ensures OnlyReleases(s, RuntimeStep(s, e))
  {
    hide OnlyReleases, StartNext, Request, ReturnFromRuntime;
    match e
    case StartOp => StartOnlyReleases(s);
    case RequestOutput => RequestOnlyReleases(s);
    case RuntimeReturns => ReturnOnlyReleases(s);
  }

  lemma RescheduleOnlyReleases(s: State, e: Event)
    requires RescheduleEvent(e)
    requires (s.timers.closed ==> !s.exec.worker.Rescheduling?) && (s.exec.closed ==> s.exec.queue == [])
    ensures OnlyReleases(s, RescheduleStep(s, e))
  {
    hide OnlyReleases, CancelCurrentStep, CheckStep, ArmStep, FireEarly, ArmMissedStep, StoreStep;
    match e
    case CancelCurrent(ok) => CancelCurrentOnlyReleases(s, ok);
    case CheckAdmission(due) => CheckOnlyReleases(s, due);
    case ArmTimer(timer, ok) => ArmOnlyReleases(s, timer, ok);
    case FiresEarly(t) => FireEarlyOnlyReleases(s, t);
    case ArmMissed(timer) => ArmMissedOnlyReleases(s, timer);
    case StoreDeadline => StoreOnlyReleases(s);
  }

  lemma CleanupOpOnlyReleases(s: State, e: Event)
    requires CleanupOpEvent(e)
    ensures OnlyReleases(s, CleanupOpStep(s, e))
  {
    hide OnlyReleases, DeadlineCancelEnd, SweepOneStep, SweepEnd;
    match e
    case DeadlineCancelEnds(ok) => DeadlineCancelOnlyReleases(s, ok);
    case SweepOne(timer) => SweepOneOnlyReleases(s, timer);
    case SweepEnds(ok) => SweepOnlyReleases(s, ok);
  }

  lemma TaskOnlyReleases(s: State, e: Event)
    requires TaskEvent(e)
    ensures OnlyReleases(s, TaskStep(s, e))
  {
    hide OnlyReleases, SubmitTask, CloseEnd, CancelTask, RecallStep;
    match e
    case TaskSubmits(t) => SubmitTaskOnlyReleases(s, t);
    case CloseEnds(t, ok) => CloseEndOnlyReleases(s, t, ok);
    case TaskCancelled(t) => CancelTaskOnlyReleases(s, t);
    case Recall(k) => RecallOnlyReleases(s, k);
  }

  /** Every event that is neither the startup's nor the stop pass's own, nor a late consumption. */
  predicate SideEvent(e: Event) {
    EntryEvent(e) || SubmissionEvent(e) || RuntimeEvent(e) || RescheduleEvent(e) || CleanupOpEvent(e) || TaskEvent(e)
  }

  lemma SideOnlyReleases(s: State, e: Event)
    requires Inv(s) && SideEvent(e)
    ensures OnlyReleases(s, Apply(s, e))
  {
    hide OnlyReleases, EntryStep, SubmissionStep, RuntimeStep, RescheduleStep, CleanupOpStep, TaskStep;
    if EntryEvent(e) {
      EntryOnlyReleases(s, e);
    } else if SubmissionEvent(e) {
      SubmissionOnlyReleases(s, e);
    } else if RuntimeEvent(e) {
      RuntimeOnlyReleases(s, e);
    } else if RescheduleEvent(e) {
      RescheduleOnlyReleases(s, e);
    } else if CleanupOpEvent(e) {
      CleanupOpOnlyReleases(s, e);
    } else {
      TaskOnlyReleases(s, e);
    }
  }

  lemma StartupKeepsPass(s: State, e: Event)
    requires Inv(s) && PassInv(s) && StartupEvent(e)
    ensures PassInv(StartupStep(s, e))
  {
    hide Inv, PassInv, InitBeginStep, InitFailStep, InitEndStep;
    match e
    case InitBegin(raises, unsubscribed) => InitBeginKeepsPass(s, raises, unsubscribed);
    case InitFails(unsubscribed) => InitFailKeepsPass(s, unsubscribed);
    case InitEnds => InitEndKeepsPass(s);
  }

  lemma PassStartKeepsPass(s: State, e: Event)
    requires Inv(s) && PassInv(s) && PassStartEvent(e)
    ensures PassInv(PassStartStep(s, e))
  {
    hide Inv, PassInv, PassBeginStep, SettleStep, BeginCleanup;
    match e
    case PassBegin(unsubscribed) => PassBeginKeepsPass(s, unsubscribed);
    case CallbacksSettle => SettleKeepsPass(s);
    case BeginStep(id) => BeginCleanupKeepsPass(s, id);
  }

  lemma PassExitKeepsPass(s: State, e: Event)
    requires Inv(s) && PassInv(s) && PassExitEvent(e)
    ensures PassInv(PassExitStep(s, e))
  {
    hide Inv, PassInv, TimeOutStep, PassCancelStep;
    match e
    case TimeOut => TimeOutKeepsPass(s);
    case PassCancelled => PassCancelKeepsPass(s);
  }

  lemma ApplyKeepsPass(s: State, e: Event)
    requires Inv(s) && PassInv(s)
    ensures PassInv(Apply(s, e))
  {
    hide PassInv, OnlyReleases;
    if SideEvent(e) {
      SideOnlyReleases(s, e);
      OnlyReleasesKeepsPass(s, Apply(s, e));
    } else if StartupEvent(e) {
      StartupKeepsPass(s, e);
    } else if PassStartEvent(e) {
      PassStartKeepsPass(s, e);
    } else if PassExitEvent(e) {
      PassExitKeepsPass(s, e);
    } else if e.LateCallback? {
      LateConsumeKeepsPass(s, e.task);
    } else if e.Resolve? {
      ResolveKeepsPass(s);
    } else {
      PassEndKeepsPass(s);
    }
  }

  lemma StartIsSound()
    ensures Inv(START) && PassInv(START)
  {}

  lemma {:induction false} RunKeepsInv(s: State, events: seq<Event>)
    requires Inv(s) && PassInv(s)
    ensures Inv(Run(s, events)) && PassInv(Run(s, events))
    decreases |events|
  {
    hide Inv, PassInv, Apply;
    if events != [] {
      ApplyKeepsInv(s, events[0]);
      ApplyKeepsPass(s, events[0]);
      RunKeepsInv(Apply(s, events[0]), events[1..]);
    }
  }

  // ----- the results

  /** Nothing the host owned is left, and the worker has nothing to run. */
  predicate FullyStopped(s: State) {
    s.stopped && AllReleased(s) && s.exec.worker == Idle && s.exec.queue == []
  }

  lemma StoppedIsIdle(s: State)
    requires Inv(s) && s.stopped
    ensures s.exec.worker == Idle && s.exec.queue == [] && s.lock == Free
  {}

  lemma StartedPassStaysStopped(s: State, e: Event)
    requires s.stopped && s.lock.Free? && (StartupEvent(e) || PassStartEvent(e) || PassExitEvent(e))
    ensures Apply(s, e).stopped
  {
    hide BeginPass, EntryStep, SubmissionStep, RuntimeStep, RescheduleStep, CleanupOpStep, TaskStep, LateConsume;
  }

  lemma StoppedStays(s: State, e: Event)
    requires Inv(s) && s.stopped
    ensures Apply(s, e).stopped
  {
    hide Inv, ClosedStays, NothingComesBack, Hushed, Muted, StartupStep, PassStartStep, PassExitStep;
    StoppedIsIdle(s);
    if SideEvent(e) {
      SideOnlyReleases(s, e);
    } else if StartupEvent(e) || PassStartEvent(e) || PassExitEvent(e) {
      StartedPassStaysStopped(s, e);
    }
  }

  /** In every interleaving, a stopped host has released the listener, the deadline, every timer, every
      callback and cleanup task and the executor, and no later step of any thread takes any of them back. */
  lemma {:induction false} StoppedForGood(events: seq<Event>, later: seq<Event>)
    requires Run(START, events).stopped
    ensures FullyStopped(Run(Run(START, events), later))
  {
    StartIsSound();
    RunKeepsInv(START, events);
    StoppedRunStays(Run(START, events), later);
  }

  lemma {:induction false} StoppedRunStays(s: State, later: seq<Event>)
    requires Inv(s) && s.stopped
    ensures FullyStopped(Run(s, later))
    decreases |later|
  {
    if later != [] {
      ApplyKeepsInv(s, later[0]);
      StoppedStays(s, later[0]);
      StoppedRunStays(Apply(s, later[0]), later[1..]);
    }
  }

  /** The executor never starts closing while a deadline, a timer, a callback or a reschedule could still
      need it, so no interleaving strands a resource behind a closed executor. */
  lemma {:induction false} ClosingStrandsNothing(events: seq<Event>)
    ensures var s := Run(START, events);
      s.exec.closing ==> CloseReady(s) && !s.exec.worker.Rescheduling?
  {
    StartIsSound();
    RunKeepsInv(START, events);
  }

  /** A pass that ends without stopping the host had a failed or timed-out step, began while an operation of
      an earlier pass was still supervised, began while a reschedule was already running, or found a lost timer. */
  lemma {:induction false} UnstoppedPassHasACause(events: seq<Event>)
    requires Run(START, events).lock.AtEnd?
    ensures var s := Run(START, events);
      Apply(s, PassEnd).stopped || s.tally.troubled || s.tally.leftover || s.tally.racing || s.timers.lost != {}
  {
    hide Inv, PassInv, Run, PassEndStep;
    StartIsSound();
    RunKeepsInv(START, events);
    CausePerPass(Run(START, events));
  }

  lemma CausePerPass(s: State)
    requires Inv(s) && PassInv(s) && s.lock.AtEnd?
    ensures PassEndStep(s).stopped || s.tally.troubled || s.tally.leftover || s.tally.racing || s.timers.lost != {}
  {
    ConsumeFinishedFrame(s);
  }

  /** Over a whole run, at most twice as many passes end unstopped as steps failed or timed out, plus one
      pass for the racing reschedule, plus those that ended while the worker had not yet finished an
      operation left over from an earlier pass, plus those that only a lost timer kept from stopping. */
  lemma {:induction false} UnstoppedPassesAreBounded(events: seq<Event>)
    ensures var y := Run(START, events).tally; y.unstopped <= 2 * y.failures + y.busy + y.blocked + 1
  {
    hide Inv;
    StartIsSound();
    RunKeepsInv(START, events);
  }

  /** Every cleanup task ever issued is either still the one supervised for its step or has been consumed
      exactly once, however late it ended; at most one task of a step is unresolved at any moment. */
  lemma {:induction false} CleanupConsumedExactlyOnce(events: seq<Event>)
    ensures ConsumedOnce(Run(START, events))
    ensures var s := Run(START, events);
      forall t <- s.seen.issued, u <- s.seen.issued :: t.step == u.step && t !in s.results && u !in s.results ==> t == u
  {
    StartIsSound();
    RunKeepsInv(START, events);
  }


  /** A timer armed on an open scheduler is tracked, and keeps it from counting as released. */
  lemma ArmedTimerIsTracked(s: State, timer: nat)
    requires s.exec.worker == Rescheduling(Arming) && timer !in s.timers.handles + s.timers.lost && !s.timers.closed
    ensures var t := Apply(s, ArmTimer(timer, true));
      && timer in t.timers.handles && t.exec.worker == Rescheduling(Storing(timer))
      && Apply(t, StoreDeadline).deadline == Some(timer)
  {}

  /** A start that fails retires admission, whether its subscription raised or what came after. */
  lemma FailedStartRetires(s: State, unsubscribed: bool)
    ensures s.lock.Initializing? ==> !Apply(s, InitFails(unsubscribed)).accepting
    ensures s.lock.Free? && !s.initialized && !s.stopping && !s.stopped ==>
      !Apply(s, InitBegin(true, unsubscribed)).accepting
  {}

  // ----- what the startup and the stop pass leave alone

  /** The worker, the timers, the callback tasks, the progress of the cleanup tasks and the counts of what was begun;
      both gates only close. */
  predicate SameWorker(s: State, t: State) {
    && t.exec == s.exec && t.timers == s.timers
    && t.results == s.results && t.submitted == s.submitted && t.seen.cancelled == s.seen.cancelled
    && t.seen.calls == s.seen.calls && t.seen.admitted == s.seen.admitted && t.seen.armed == s.seen.armed
    && t.callbacks == s.callbacks && (s.portQuiescent ==> t.portQuiescent) && OnlyRetires(s, t)
  }

  /** Admission can only be retired, and then the generation moves on by one. */
  predicate OnlyRetires(s: State, t: State) {
    (t.accepting ==> s.accepting) && t.generation == s.generation + (if s.accepting && !t.accepting then 1 else 0)
  }

  /** A pass does not start a host, so it also leaks no subscription. */
  predicate OnlyThePass(s: State, t: State) {
    SameWorker(s, t) && t.leaked == s.leaked
  }

  lemma LeavesTheWorker(s: State, t: State)
    requires t.exec == s.exec && t.timers == s.timers
    requires t.results == s.results && t.submitted == s.submitted && t.seen.cancelled == s.seen.cancelled
    requires t.seen.calls == s.seen.calls && t.seen.admitted == s.seen.admitted && t.seen.armed == s.seen.armed
    requires t.portQuiescent == s.portQuiescent && t.callbacks == s.callbacks && OnlyRetires(s, t)
    ensures SameWorker(s, t) && (t.leaked == s.leaked ==> OnlyThePass(s, t))
  {}

  lemma InitBeginIsSameWorker(s: State, raises: bool, unsubscribed: bool)
    ensures SameWorker(s, InitBeginStep(s, raises, unsubscribed))
  {
    hide SameWorker;
    LeavesTheWorker(s, s);
    LeavesTheWorker(s, Retire(s.(listener := s.listener && !unsubscribed)));
    LeavesTheWorker(s, s.(listener := true, leaked := s.leaked + (if s.listener then 1 else 0), lock := Initializing));
  }

  lemma InitFailIsSameWorker(s: State, unsubscribed: bool)
    ensures SameWorker(s, InitFailStep(s, unsubscribed))
  {
    hide SameWorker;
    LeavesTheWorker(s, s);
    LeavesTheWorker(s, Retire(s.(listener := s.listener && !unsubscribed, lock := Free)));
  }

  lemma StartupIsSameWorker(s: State, e: Event)
    requires StartupEvent(e)
    ensures SameWorker(s, StartupStep(s, e))
  {
    hide SameWorker, InitBeginStep, InitFailStep;
    match e
    case InitBegin(raises, unsubscribed) => InitBeginIsSameWorker(s, raises, unsubscribed);
    case InitFails(unsubscribed) => InitFailIsSameWorker(s, unsubscribed);
    case InitEnds =>
      LeavesTheWorker(s, s);
      LeavesTheWorker(s, s.(initialized := true, lock := Free));
  }

  lemma PassBeginIsPassOnly(s: State, unsubscribed: bool)
    ensures OnlyThePass(s, PassBeginStep(s, unsubscribed))
  {
    hide OnlyThePass, ConsumeFinished;
    LeavesTheWorker(s, s);
    if s.requests > 0 {
      ConsumeFinishedFrame(Retire(s.(stopping := true, requests := s.requests - 1)));
      LeavesTheWorker(s, s.(requests := s.requests - 1));
      LeavesTheWorker(s, BeginPass(s, unsubscribed));
    }
  }

  lemma SettleIsPassOnly(s: State)
    ensures OnlyThePass(s, SettleStep(s))
  {
    hide OnlyThePass;
    LeavesTheWorker(s, s);
    LeavesTheWorker(s, s.(lock := At(DeadlineCancel)));
    LeavesTheWorker(s, Fail(s).(lock := At(DeadlineCancel)));
  }

  lemma SuperviseIsPassOnly(s: State, step: CleanupStep, id: nat)
    ensures OnlyThePass(s, Supervise(s, step, id))
  {
    hide OnlyThePass;
    LeavesTheWorker(s, s);
    LeavesTheWorker(s, Issue(s, TaskRef(step, id)));
    if step in s.cleanup {
      LeavesTheWorker(s, s.(lock := Await(TaskRef(step, s.cleanup[step]))));
    }
  }

  lemma BeginCleanupIsPassOnly(s: State, id: nat)
    ensures OnlyThePass(s, BeginCleanup(s, id))
  {
    hide OnlyThePass, Needed, Supervise;
    LeavesTheWorker(s, s);
    if s.lock.At? {
      LeavesTheWorker(s, s.(lock := Next(s.lock.step)));
      LeavesTheWorker(s, Fail(s).(lock := Next(s.lock.step)));
      SuperviseIsPassOnly(s, s.lock.step, id);
    }
  }

  lemma PassStartIsPassOnly(s: State, e: Event)
    requires PassStartEvent(e)
    ensures OnlyThePass(s, PassStartStep(s, e))
  {
    hide OnlyThePass, PassBeginStep, SettleStep, BeginCleanup;
    match e
    case PassBegin(unsubscribed) => PassBeginIsPassOnly(s, unsubscribed);
    case CallbacksSettle => SettleIsPassOnly(s);
    case BeginStep(id) => BeginCleanupIsPassOnly(s, id);
  }

  lemma TimeOutIsPassOnly(s: State)
    ensures OnlyThePass(s, TimeOutStep(s))
  {
    hide OnlyThePass;
    LeavesTheWorker(s, s);
    if s.lock.Await? {
      LeavesTheWorker(s, Fail(s).(late := s.late + {s.lock.task}, lock := Next(s.lock.task.step)));
    }
  }

  lemma PassCancelIsPassOnly(s: State)
    ensures OnlyThePass(s, PassCancelStep(s))
  {
    hide OnlyThePass, CountUnstopped, Fail;
    LeavesTheWorker(s, s);
    FailsOnly(s);
    CountsOnly(Fail(s));
    var r := CountUnstopped(Fail(s)).(lock := Free);
    LeavesTheWorker(s, r);
    if s.lock.Await? {
      LeavesTheWorker(s, r.(seen := s.seen.(abandoned := s.seen.abandoned + {s.lock.task})));
    }
  }

  lemma FailsOnly(s: State)
    ensures Fail(s) == s.(tally := Fail(s).tally)
  {}

  lemma CountsOnly(s: State)
    ensures CountUnstopped(s) == s.(tally := CountUnstopped(s).tally)
  {}

  lemma PassExitIsPassOnly(s: State, e: Event)
    requires PassExitEvent(e)
    ensures OnlyThePass(s, PassExitStep(s, e))
  {
    hide OnlyThePass, TimeOutStep, PassCancelStep;
    match e
    case TimeOut => TimeOutIsPassOnly(s);
    case PassCancelled => PassCancelIsPassOnly(s);
  }

  lemma LateConsumeIsPassOnly(s: State, t: TaskRef)
    ensures OnlyThePass(s, LateConsume(s, t))
  {
    hide OnlyThePass, Consume;
    var r := s.(late := s.late - {t});
    ConsumeFrame(r, t);
    LeavesTheWorker(s, s);
    LeavesTheWorker(s, Consume(r, t));
  }

  lemma FailFrame(s: State, failed: bool)
    ensures FailIf(s, failed) == s.(tally := FailIf(s, failed).tally)
  {}

  lemma ResolveIsPassOnly(s: State)
    ensures OnlyThePass(s, ResolveStep(s))
  {
    hide OnlyThePass, Consume, FailIf;
    LeavesTheWorker(s, s);
    if s.lock.Await? && s.lock.task in s.results {
      var (q, failed) := (Consume(s, s.lock.task), s.results[s.lock.task]);
      ConsumeFrame(s, s.lock.task);
      FailFrame(q, failed);
      LeavesTheWorker(s, FailIf(q, failed).(lock := Next(s.lock.task.step)));
    }
  }

  lemma PassEndIsPassOnly(s: State)
    ensures OnlyThePass(s, PassEndStep(s))
  {
    hide OnlyThePass, ConsumeFinished, AllReleased, CountUnstopped;
    var r := ConsumeFinished(s).(stopping := false, lock := Free);
    ConsumeFinishedFrame(s);
    CountsOnly(r);
    LeavesTheWorker(s, s);
    LeavesTheWorker(s, r.(stopped := true));
    LeavesTheWorker(s, CountUnstopped(r));
  }

  lemma PassIsPassOnly(s: State, e: Event)
    requires !SideEvent(e) && !StartupEvent(e)
    ensures OnlyThePass(s, Apply(s, e))
  {
    hide OnlyThePass, PassStartStep, PassExitStep, LateConsume, ResolveStep, PassEndStep;
    if PassStartEvent(e) {
      PassStartIsPassOnly(s, e);
    } else if PassExitEvent(e) {
      PassExitIsPassOnly(s, e);
    } else if e.LateCallback? {
      LateConsumeIsPassOnly(s, e.task);
    } else if e.Resolve? {
      ResolveIsPassOnly(s);
    } else {
      PassEndIsPassOnly(s);
    }
  }

  lemma OtherIsSameWorker(s: State, e: Event)
    requires !SideEvent(e)
    ensures SameWorker(s, Apply(s, e))
  {
    hide SameWorker, StartupStep, PassStartStep, PassExitStep, LateConsume, ResolveStep, PassEndStep;
    if StartupEvent(e) {
      StartupIsSameWorker(s, e);
    } else {
      PassIsPassOnly(s, e);
    }
  }

  // ----- after a stop request

  predicate StaysMuted(s: State, t: State) {
    Hushed(t) && Muted(s, t)
  }

  lemma HushedStepIsMuted(s: State, e: Event)
    requires Inv(s) && Hushed(s)
    ensures StaysMuted(s, Apply(s, e))
  {
    hide Inv, SamePass, ClosedStays, NothingComesBack, Apply;
    if SideEvent(e) {
      SideOnlyReleases(s, e);
    } else {
      OtherIsSameWorker(s, e);
    }
  }

  lemma {:induction false} HushedRunIsMuted(s: State, events: seq<Event>)
    requires Inv(s) && Hushed(s)
    ensures StaysMuted(s, Run(s, events))
    decreases |events|
  {
    hide Inv, Apply;
    if events != [] {
      HushedStepIsMuted(s, events[0]);
      ApplyKeepsInv(s, events[0]);
      HushedRunIsMuted(Apply(s, events[0]), events[1..]);
    }
  }

  /** From the stop request on, whatever was admitted, queued or waiting for the loop: no service call begins,
      no logical operation is admitted any more, and at most one timer is armed, by a reschedule that was
      already past its admission check. */
  lemma {:induction false} NothingBeginsAfterStopRequest(events: seq<Event>, later: seq<Event>)
    ensures Muted(Run(START, events), Run(Apply(Run(START, events), StopRequest), later))
  {
    hide Inv, PassInv, Run;
    StartIsSound();
    RunKeepsInv(START, events);
    RequestStopKeeps(Run(START, events));
    HushedRunIsMuted(Apply(Run(START, events), StopRequest), later);
  }

  lemma StepKeepsPort(s: State, e: Event)
    requires Inv(s) && s.portQuiescent
    ensures Apply(s, e).portQuiescent
  {
    hide Inv, SamePass, NothingComesBack, Hushed, Muted, Apply;
    if SideEvent(e) {
      SideOnlyReleases(s, e);
    } else {
      OtherIsSameWorker(s, e);
    }
  }

  lemma {:induction false} PortStays(s: State, events: seq<Event>)
    requires Inv(s) && s.portQuiescent
    ensures Run(s, events).portQuiescent
    decreases |events|
  {
    hide Inv, Apply;
    if events != [] {
      ApplyKeepsInv(s, events[0]);
      StepKeepsPort(s, events[0]);
      PortStays(Apply(s, events[0]), events[1..]);
    }
  }

  /** A stop request closes the output port for good. */
  lemma {:induction false} PortStaysClosed(events: seq<Event>, later: seq<Event>)
    ensures Run(Apply(Run(START, events), StopRequest), later).portQuiescent
  {
    hide Inv, PassInv, Run;
    StartIsSound();
    RunKeepsInv(START, events);
    RequestStopKeeps(Run(START, events));
    PortStays(Apply(Run(START, events), StopRequest), later);
  }

  // ----- a lost timer

  lemma StepKeepsLost(s: State, e: Event)
    requires Inv(s)
    ensures s.timers.lost <= Apply(s, e).timers.lost
  {
    hide Inv, SamePass, NothingComesBack, Hushed, Muted, Apply;
    if SideEvent(e) {
      SideOnlyReleases(s, e);
    } else {
      OtherIsSameWorker(s, e);
    }
  }

  lemma {:induction false} LostStays(s: State, events: seq<Event>)
    requires Inv(s)
    ensures s.timers.lost <= Run(s, events).timers.lost
    decreases |events|
  {
    hide Inv, Apply;
    if events != [] {
      ApplyKeepsInv(s, events[0]);
      StepKeepsLost(s, events[0]);
      LostStays(Apply(s, events[0]), events[1..]);
    }
  }

  /** Once a timer is lost, no run stops the host, however often it is asked to and whatever succeeds. */
  lemma {:induction false} LostTimerNeverStops(events: seq<Event>, later: seq<Event>)
    requires Run(START, events).timers.lost != {}
    ensures !Run(Run(START, events), later).stopped
  {
    hide Apply, Run, PassInv;
    StartIsSound();
    RunKeepsInv(START, events);
    RunKeepsInv(Run(START, events), later);
    LostStays(Run(START, events), later);
  }

  // a reschedule comes as far as arming its timer
  const ADMITTED := START.(
    exec := START.exec.(worker := Rescheduling(Cancelling)), seen := START.seen.(admitted := 1))
  const ARMING := ADMITTED.(exec := START.exec.(worker := Rescheduling(Arming)))

  lemma RescheduleIsAdmitted()
    ensures Run(START, [SubmitLogical(0, Reschedule), StartOp]) == ADMITTED
  {
    var queued := START.(exec := START.exec.(queue := [Logical(0, Reschedule)]));
    RunTwo(START, SubmitLogical(0, Reschedule), StartOp);
    assert Apply(START, SubmitLogical(0, Reschedule)) == queued;
    assert Apply(queued, StartOp) == ADMITTED;
  }

  lemma RescheduleIsDue()
    ensures Run(ADMITTED, [CancelCurrent(true), CheckAdmission(true)]) == ARMING
  {
    RunTwo(ADMITTED, CancelCurrent(true), CheckAdmission(true));
    assert Apply(ADMITTED, CancelCurrent(true)) == ADMITTED.(exec := START.exec.(worker := Rescheduling(Checking)));
  }

  const MISSING: seq<Event> :=
    [SubmitLogical(0, Reschedule), StartOp] + [CancelCurrent(true), CheckAdmission(true)]
    + [FiresEarly(0), ArmMissed(0)]

  lemma TimerIsMissed()
    ensures Run(ARMING, [FiresEarly(0), ArmMissed(0)]).timers.lost == {0}
  {
    RunTwo(ARMING, FiresEarly(0), ArmMissed(0));
  }

  /** Such a run: the timer fires, and is discarded, while the worker is still about to register it. */
  lemma LostTimerIsReached()
    ensures Run(START, MISSING).timers.lost == {0}
  {
    hide Apply, Run;
    var a, b: seq<Event> := [SubmitLogical(0, Reschedule), StartOp], [CancelCurrent(true), CheckAdmission(true)];
    RunConcat(START, a, b);
    RunConcat(START, a + b, [FiresEarly(0), ArmMissed(0)]);
    RescheduleIsAdmitted();
    RescheduleIsDue();
    TimerIsMissed();
    assert MISSING == a + b + [FiresEarly(0), ArmMissed(0)];
  }

  // ----- a leaked subscription

  /** A start that fails and cannot unsubscribe, then another one. */
  lemma LeakIsReached()
    ensures Run(START, [InitBegin(false, false)] + [InitFails(false), InitBegin(false, false)]).leaked == 1
  {
    hide Run, RequestStop, Submit, OnStateChange;
    RunConcat(START, [InitBegin(false, false)], [InitFails(false), InitBegin(false, false)]);
    RunOne(START, InitBegin(false, false));
    RunTwo(Apply(START, InitBegin(false, false)), InitFails(false), InitBegin(false, false));
  }

  /** A subscription is leaked exactly by a start that subscribes over one a failed start could not get rid of. */
  lemma LeakedExactlyByStartingAgain(s: State, e: Event)
    requires Inv(s)
    ensures Apply(s, e).leaked > s.leaked <==>
      && e.InitBegin? && !e.raises && s.listener
      && s.lock.Free? && !s.initialized && !s.stopping && !s.stopped
  {
    if SideEvent(e) {
      SideKeepsLeaked(s, e);
    } else if StartupEvent(e) {
      StartupLeaks(s, e);
    } else {
      hide Apply;
      PassIsPassOnly(s, e);
    }
  }

  lemma SideKeepsLeaked(s: State, e: Event)
    requires Inv(s) && SideEvent(e)
    ensures Apply(s, e).leaked == s.leaked
  {
    hide Inv, ClosedStays, NothingComesBack, Hushed, Muted, Apply;
    SideOnlyReleases(s, e);
  }

  lemma StartupLeaks(s: State, e: Event)
    requires StartupEvent(e)
    ensures StartupStep(s, e).leaked > s.leaked <==>
      && e.InitBegin? && !e.raises && s.listener
      && s.lock.Free? && !s.initialized && !s.stopping && !s.stopped
  {
    if e.InitBegin? {
      var t := StartupStep(s, e);
      assert e.raises ==> t.leaked == s.leaked;
    }
  }

  /** Such a subscription outlives even a stopped host, but delivers nothing: admission was retired before. */
  lemma {:induction false} LeakedIsSilent(events: seq<Event>, task: nat)
    requires Run(START, events).leaked > 0
    ensures var s := Run(START, events); Apply(s, StateChange(task)) == s
  {
    hide PassInv, Run, Owned, Effective, ConsumedOnce;
    StartIsSound();
    RunKeepsInv(START, events);
  }

  // ----- an earlier pass's operation alone keeps a pass from stopping

  lemma RunTwo(s: State, e: Event, f: Event)
    ensures Run(s, [e, f]) == Apply(Apply(s, e), f)
  {
    hide Apply;
    assert [e, f][1..] == [f] && [f][1..] == [];
    RunOne(Apply(s, e), f);
  }

  lemma RunOne(s: State, e: Event)
    ensures Run(s, [e]) == Apply(s, e)
  {
    hide Apply;
    assert [e][1..] == [];
    assert Run(Apply(s, e), []) == Apply(s, e);
  }

  lemma {:induction false} RunConcat(s: State, a: seq<Event>, b: seq<Event>)
    ensures Run(s, a + b) == Run(Run(s, a), b)
    decreases |a|
  {
    hide Apply;
    if a == [] {
      assert a + b == b;
    } else {
      assert (a + b)[0] == a[0] && (a + b)[1..] == a[1..] + b;
      RunConcat(Apply(s, a[0]), a[1..], b);
    }
  }

  const SWEEP := TaskRef(SchedulerCancelAll, 0)

  // one pass whose `cancel_all` times out while the worker is inside it
  const ASKED := START.(accepting := false, generation := 1, portQuiescent := true, requests := 1)
  const ENTERED := ASKED.(requests := 0, stopping := true, lock := AwaitCallbacks({}))
  const ISSUED := ENTERED.(
    lock := Await(SWEEP), cleanup := map[SchedulerCancelAll := 0], seen := START.seen.(issued := {SWEEP}))
  const QUEUED := ISSUED.(exec := START.exec.(queue := [CleanupOp(SWEEP)]), submitted := {SWEEP})
  const RUNNING := QUEUED.(exec := START.exec.(worker := Cleaning(SWEEP)), timers := Timers({}, {}, true))
  const TIMED_OUT := RUNNING.(
    lock := At(ExecutorClose), late := {SWEEP}, tally := START.tally.(troubled := true, failures := 1))
  const BEHIND := TIMED_OUT.(lock := Free, stopping := false, tally := TIMED_OUT.tally.(unstopped := 1))

  // a second pass that finds everything released but the first pass's operation
  const SECOND := BEHIND.(
    stopping := true, lock := AwaitCallbacks({}), tally := Tally(false, true, false, 1, 1, 0, 0, 0, 0))
  const STILL_BEHIND := BEHIND.(tally := Tally(false, true, false, 1, 2, 1, 0, 0, 0))

  const FIRST_PASS: seq<Event> :=
    [StopRequest, PassBegin(true)] + [CallbacksSettle, BeginStep(0)] + [BeginStep(0), TaskSubmits(SWEEP)]
    + [StartOp, TimeOut] + [BeginStep(0), PassEnd]
  const SECOND_PASS: seq<Event> :=
    [StopRequest, PassBegin(true)] + [CallbacksSettle, BeginStep(1)] + [BeginStep(1), BeginStep(1)] + [PassEnd]

  lemma NothingToConsume(s: State)
    requires forall step <- s.cleanup :: TaskRef(step, s.cleanup[step]) !in s.results
    ensures ConsumeFinished(s) == s
  {}

  // steps as they go when nothing is in their way

  lemma Requested(s: State)
    requires !s.accepting && s.portQuiescent
    ensures Apply(s, StopRequest) == s.(requests := s.requests + 1)
  {}

  lemma Entered(s: State)
    requires s.lock.Free? && s.requests > 0 && !s.stopped && !s.accepting && !s.listener
    requires forall step <- s.cleanup :: TaskRef(step, s.cleanup[step]) !in s.results
    ensures Apply(s, PassBegin(true)) == s.(
              requests := s.requests - 1, stopping := true, lock := AwaitCallbacks(s.callbacks),
              tally := s.tally.(troubled := false, leftover := s.cleanup != map[],
                                       racing := s.exec.worker.Rescheduling?))
  {
    hide ConsumeFinished;
    var r := s.(stopping := true, requests := s.requests - 1);
    NothingToConsume(r);
    assert Retire(r) == r;
    assert Apply(s, PassBegin(true)) == EnterPass(r, true);
  }

  lemma Settled(s: State)
    requires s.lock.AwaitCallbacks? && s.callbacks == {}
    ensures Apply(s, CallbacksSettle) == s.(lock := At(DeadlineCancel))
  {}

  lemma Skipped(s: State, id: nat)
    requires s.lock.At? && !Needed(s, s.lock.step)
    ensures Apply(s, BeginStep(id)) == s.(lock := Next(s.lock.step))
  {
    hide Needed, Supervise;
  }

  lemma Issued(s: State, id: nat)
    requires s.lock.At? && Needed(s, s.lock.step) && !s.exec.closed
    requires s.lock.step !in s.cleanup && TaskRef(s.lock.step, id) !in s.seen.issued
    ensures Apply(s, BeginStep(id)) == Issue(s, TaskRef(s.lock.step, id))
  {
    hide Needed, Issue;
  }

  lemma TimedOut(s: State)
    requires s.lock.Await? && s.lock.task !in s.results
    ensures Apply(s, TimeOut) == Fail(s).(late := s.late + {s.lock.task}, lock := Next(s.lock.task.step))
  {
    hide Fail;
  }

  lemma EndedUnstopped(s: State)
    requires s.lock.AtEnd? && s.cleanup != map[]
    requires forall step <- s.cleanup :: TaskRef(step, s.cleanup[step]) !in s.results
    ensures Apply(s, PassEnd) == CountUnstopped(s.(stopping := false, lock := Free))
  {
    hide ConsumeFinished, CountUnstopped;
    NothingToConsume(s);
    assert !AllReleased(s.(stopping := false, lock := Free));
  }

  lemma FirstPassBegins()
    ensures Run(START, [StopRequest, PassBegin(true)]) == ENTERED
  {
    RunTwo(START, StopRequest, PassBegin(true));
    assert Apply(START, StopRequest) == ASKED;
    hide Apply;
    Entered(ASKED);
  }

  lemma FirstPassReachesTheSweep()
    ensures Run(ENTERED, [CallbacksSettle, BeginStep(0)]) == ENTERED.(lock := At(SchedulerCancelAll))
  {
    hide Apply;
    RunTwo(ENTERED, CallbacksSettle, BeginStep(0));
    Settled(ENTERED);
    Skipped(ENTERED.(lock := At(DeadlineCancel)), 0);
  }

  lemma FirstPassSweeps()
    ensures Run(ENTERED.(lock := At(SchedulerCancelAll)), [BeginStep(0), TaskSubmits(SWEEP)]) == QUEUED
  {
    RunTwo(ENTERED.(lock := At(SchedulerCancelAll)), BeginStep(0), TaskSubmits(SWEEP));
    assert Apply(ISSUED, TaskSubmits(SWEEP)) == QUEUED;
    hide Apply;
    Issued(ENTERED.(lock := At(SchedulerCancelAll)), 0);
  }

  lemma FirstPassTimesOut()
    ensures Run(QUEUED, [StartOp, TimeOut]) == TIMED_OUT
  {
    RunTwo(QUEUED, StartOp, TimeOut);
    assert Apply(QUEUED, StartOp) == RUNNING;
    hide Apply;
    TimedOut(RUNNING);
  }

  lemma FirstPassEnds()
    ensures Run(TIMED_OUT, [BeginStep(0), PassEnd]) == BEHIND
  {
    hide Apply;
    RunTwo(TIMED_OUT, BeginStep(0), PassEnd);
    Skipped(TIMED_OUT, 0);
    assert SchedulerCancelAll in TIMED_OUT.cleanup;
    EndedUnstopped(TIMED_OUT.(lock := AtEnd));
  }

  /** The first pass of that run: its supervised `cancel_all` times out and stays supervised. */
  lemma FirstPassLeavesItsSweep()
    ensures Run(START, FIRST_PASS) == BEHIND
  {
    hide Apply, Run;
    var a, b: seq<Event> := [StopRequest, PassBegin(true)], [CallbacksSettle, BeginStep(0)];
    var c, d: seq<Event> := [BeginStep(0), TaskSubmits(SWEEP)], [StartOp, TimeOut];
    RunConcat(START, a, b);
    RunConcat(START, a + b, c);
    RunConcat(START, a + b + c, d);
    RunConcat(START, a + b + c + d, [BeginStep(0), PassEnd]);
    FirstPassBegins();
    FirstPassReachesTheSweep();
    FirstPassSweeps();
    FirstPassTimesOut();
    FirstPassEnds();
    assert Run(START, a + b) == ENTERED.(lock := At(SchedulerCancelAll));
    assert Run(START, a + b + c) == QUEUED;
    assert Run(START, a + b + c + d) == TIMED_OUT;
    assert FIRST_PASS == a + b + c + d + [BeginStep(0), PassEnd];
  }

  lemma SecondPassBegins()
    ensures Run(BEHIND, [StopRequest, PassBegin(true)]) == SECOND
  {
    hide Apply;
    RunTwo(BEHIND, StopRequest, PassBegin(true));
    Requested(BEHIND);
    assert SchedulerCancelAll in BEHIND.cleanup;
    Entered(BEHIND.(requests := 1));
  }

  lemma SecondPassReachesTheSweep()
    ensures Run(SECOND, [CallbacksSettle, BeginStep(1)]) == SECOND.(lock := At(SchedulerCancelAll))
  {
    hide Apply;
    RunTwo(SECOND, CallbacksSettle, BeginStep(1));
    Settled(SECOND);
    Skipped(SECOND.(lock := At(DeadlineCancel)), 1);
  }

  lemma SecondPassNeedsNothing()
    ensures Run(SECOND.(lock := At(SchedulerCancelAll)), [BeginStep(1), BeginStep(1)]) == SECOND.(lock := AtEnd)
  {
    hide Apply;
    RunTwo(SECOND.(lock := At(SchedulerCancelAll)), BeginStep(1), BeginStep(1));
    Skipped(SECOND.(lock := At(SchedulerCancelAll)), 1);
    Skipped(SECOND.(lock := At(ExecutorClose)), 1);
  }

  lemma SecondPassEnds()
    ensures Run(SECOND.(lock := AtEnd), [PassEnd]) == STILL_BEHIND
  {
    hide Apply;
    RunOne(SECOND.(lock := AtEnd), PassEnd);
    assert SchedulerCancelAll in SECOND.cleanup;
    EndedUnstopped(SECOND.(lock := AtEnd));
  }

  /** Asked to stop twice, nothing fails, times out or races in the second pass and no timer is lost, yet it
      ends unstopped: only the first pass's operation, which the worker is still inside, was in its way. */
  lemma LeftoverPassEndsUnstopped()
    ensures var s := Run(START, FIRST_PASS + SECOND_PASS);
      && s.lock.Free? && !s.stopped && !s.tally.troubled && !s.tally.racing && s.timers.lost == {}
      && s.tally.leftover && s.tally.busy == 1 && s.tally.unstopped == 2 && s.exec.worker == Cleaning(SWEEP)
  {
    hide Apply, Run;
    var a, b: seq<Event> := [StopRequest, PassBegin(true)], [CallbacksSettle, BeginStep(1)];
    var c: seq<Event> := [BeginStep(1), BeginStep(1)];
    FirstPassLeavesItsSweep();
    RunConcat(START, FIRST_PASS, SECOND_PASS);
    RunConcat(BEHIND, a, b);
    RunConcat(BEHIND, a + b, c);
    RunConcat(BEHIND, a + b + c, [PassEnd]);
    SecondPassBegins();
    SecondPassReachesTheSweep();
    SecondPassNeedsNothing();
    SecondPassEnds();
    assert Run(BEHIND, a + b) == SECOND.(lock := At(SchedulerCancelAll));
    assert Run(BEHIND, a + b + c) == SECOND.(lock := AtEnd);
    assert SECOND_PASS == a + b + c + [PassEnd];
  }
}
