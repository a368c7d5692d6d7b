/** The Water Safety host as the object it is: fields updated in place by the code between two awaits. Its
    blocks make up every run of the object (`Interleave`) and its stop pass (`AsyncStopOwnedResources`). */
module WaterHostObject {
  import opened WaterHost
  import opened Wrappers
  import opened WaterHostInvariant
  import opened WaterHostPasses
  import opened WaterHostProofs

  class OutputPort {
    var quiescent: bool

    constructor ()
      ensures !quiescent
    {
      quiescent := false;
    }

    method Quiesce()
      modifies this
      ensures quiescent
    {
      quiescent := true;
    }
  }

  class RuntimeExecutor {
    var closing: bool
    var closed: bool
    var queue: seq<Op>
    var worker: Worker

    function View(): Executor
      reads this
    {
      Executor(closing, closed, queue, worker)
    }

    constructor ()
      ensures View() == Executor(false, false, [], Idle)
    {
      closing, closed, queue, worker := false, false, [], Idle;
    }

    /** `async_submit` once it holds the submission lock: refused when closing, otherwise last in line. */
    method Enqueue(op: Op) returns (accepted: bool)
      modifies this`queue
      ensures accepted <==> !closing
      ensures queue == if accepted then old(queue) + [op] else old(queue)
    {
      accepted := !closing;
      if accepted {
        queue := queue + [op];
      }
    }
  }

  /** `HomeAssistantWaterSafetyHost`. The cleanup dictionary holds a task per step; `results`, `submitted` and
      `late` are those tasks' own progress; `seen` and `tally` only observe. */
  class Host {
    const port: OutputPort
    const executor: RuntimeExecutor
    var accepting: bool
    var generation: nat
    var listener: bool
    var leaked: nat
    var initialized: bool
    var callbacks: set<nat>
    var deadline: Option<nat>
    var cleanup: map<CleanupStep, nat>
    var results: map<TaskRef, bool>
    var submitted: set<TaskRef>
    var late: set<TaskRef>
    var stopping: bool
    var stopped: bool
    var lock: Lock
    var requests: nat
    var timers: Timers
    var seen: Seen
    var tally: Tally

    function View(): State
      reads this, port, executor
    {
      State(accepting, generation, port.quiescent, listener, leaked, initialized, callbacks, deadline, cleanup, results,
            submitted, late, stopping, stopped, lock, requests, executor.View(), timers, seen, tally)
    }

    constructor ()
      ensures View() == START
      ensures fresh(port) && fresh(executor)
    {
      port := new OutputPort();
      executor := new RuntimeExecutor();
      accepting, generation, listener, leaked, initialized := true, 0, false, 0, false;
      callbacks, deadline := {}, None;
      cleanup, results, submitted, late := map[], map[], {}, {};
      stopping, stopped, lock, requests := false, false, Free, 0;
      timers := Timers({}, {}, false);
      seen, tally := START.seen, START.tally;
    }

    // ----- blocks on the loop

    method RetireLogicalAdmission()
      modifies this`accepting, this`generation
      ensures View() == Retire(old(View()))
    {
      if accepting {
        generation := generation + 1;
      }
      accepting := false;
    }

    /** The synchronous part of `async_stop`, up to creating the cleanup pass. */
    method AsyncStop()
      modifies this, port
      ensures View() == RequestStop(old(View()))
    {
      port.Quiesce();
      RetireLogicalAdmission();
      requests := requests + 1;
    }

    /** `_on_state_change` once live, for a listener that is still subscribed. */
    method OnStateChange(task: nat)
      requires listener || leaked > 0
      modifies this`callbacks
      ensures View() == WaterHost.OnStateChange(old(View()), task)
    {
      if !accepting || stopping {
        return;
      }
      callbacks := callbacks + {task};
    }

    /** A timer leaves the scheduler; a claimed callback reaches `submit_scheduled_callback`. */
    method SubmitScheduledCallback(timer: nat, task: nat, runs: bool)
      requires timer in timers.handles
      modifies this`callbacks, this`timers
      ensures View() == OnTimer(old(View()), timer, task, runs)
    {
      timers := timers.(handles := timers.handles - {timer});
      if !accepting || !runs {
        return;
      }
      callbacks := callbacks + {task};
    }

    /** `enqueue_tick`. */
    method EnqueueTick(task: nat)
      modifies this`callbacks
      ensures View() == OnTick(old(View()), task)
    {
      if !accepting || stopping {
        return;
      }
      callbacks := callbacks + {task};
    }

    method SubmitLogical(captured: nat, call: Call) returns (accepted: bool)
      requires captured <= generation
      modifies executor
      ensures View() == Submit(old(View()), captured, call)
    {
      accepted := executor.Enqueue(Logical(captured, call));
    }

    method EntryBlock(e: Event)
      requires EntryEvent(e)
      modifies this`callbacks, this`timers
      ensures View() == EntryStep(old(View()), e)
    {
      hide WaterHost.OnStateChange, OnTimer, OnTick;
      match e {
        case StateChange(t) =>
          NotListening(View(), t);
          if listener || leaked > 0 { OnStateChange(t); }
        case TimerFires(timer, t, runs) =>
          NotTracked(View(), timer, t, runs);
          if timer in timers.handles { SubmitScheduledCallback(timer, t, runs); }
        case EnqueueTick(t) => EnqueueTick(t);
        case CallbackDone(t) => callbacks := callbacks - {t};
      }
    }

    /** The bridged request's last check, on the loop, and the service call. */
    method DispatchRequest()
      requires executor.worker.Requesting?
      modifies this`seen, executor`worker
      ensures View() == Dispatch(old(View()))
    {
      executor.worker := InRuntime;
      if !port.quiescent {
        seen := seen.(calls := seen.calls + 1);
      }
    }

    method SubmissionBlock(e: Event)
      requires SubmissionEvent(e)
      modifies this, port, executor
      ensures View() == SubmissionStep(old(View()), e)
    {
      hide Submit, Dispatch, RequestStop;
      NothingToSubmit(View(), e);
      match e {
        case SubmitLogical(captured, call) =>
          if captured <= generation { var _ := SubmitLogical(captured, call); }
        case DispatchOutput =>
          if executor.worker.Requesting? { DispatchRequest(); }
        case StopRequest => AsyncStop();
      }
    }

    // ----- blocks on the worker

    /** `execute_if_admitted` and the cleanup operations, as the worker picks them up. */
    method PickUp(op: Op)
      modifies this`timers, this`seen, executor`worker
      ensures View() == StartedOp(old(View()), op)
    {
      match op {
        case Logical(captured, call) =>
          if accepting && captured == generation {
            executor.worker := if call.RuntimeCall? then InRuntime else Rescheduling(Cancelling);
            seen := seen.(admitted := seen.admitted + 1);
          }
        case CleanupOp(task) =>
          executor.worker := Cleaning(task);
          if task.step.SchedulerCancelAll? {
            timers := timers.(closed := true);
          }
      }
    }

    method StartOp()
      requires executor.worker == Idle && executor.queue != []
      modifies this, executor
      ensures View() == StartNext(old(View()))
    {
      hide StartedOp;
      var op := executor.queue[0];
      executor.queue := executor.queue[1..];
      assert View() == Popped(old(View()));
      PickUp(op);
    }

    /** `_cancel_deadline`; a handle whose cancel raises stays the current deadline. */
    method CancelDeadline(ok: bool) returns (raised: bool)
      modifies this`deadline, this`timers
      ensures raised <==> !ok && old(deadline).Some?
      ensures View() == if raised then old(View()) else DropDeadline(old(View()))
    {
      raised := false;
      if deadline.Some? {
        if !ok {
          return true;
        }
        timers := timers.(handles := timers.handles - {deadline.value});
        deadline := None;
      }
    }

    /** `_reschedule_deadline` up to its admission check. */
    method RescheduleCancels(ok: bool)
      requires executor.worker == Rescheduling(Cancelling)
      modifies this, executor
      ensures View() == CancelCurrentStep(old(View()), ok)
    {
      var raised := CancelDeadline(ok);
      executor.worker := if raised then Idle else Rescheduling(Checking);
    }

    /** The admission check and the runtime's next deadline decide whether a timer is armed. */
    method RescheduleChecks(due: bool)
      requires executor.worker == Rescheduling(Checking)
      modifies executor
      ensures View() == CheckStep(old(View()), due)
    {
      executor.worker := Idle;
      if !accepting {
        return;
      }
      if !due {
        return;
      }
      executor.worker := Rescheduling(Arming);
    }

    /** `schedule_at` up to the registration of the handle. */
    method ScheduleAt(timer: nat)
      requires executor.worker == Rescheduling(Arming) && timer !in timers.handles + timers.lost
      modifies this`timers, this`seen, executor`worker
      ensures View() == ArmStep(old(View()), timer, true)
    {
      executor.worker := Rescheduling(Storing(timer));
      seen := seen.(armed := seen.armed + 1);
      if !timers.closed {
        timers := timers.(handles := timers.handles + {timer});
      }
    }

    /** The same for a timer that fired, and was discarded, before its registration. */
    method ScheduleAtMissed(timer: nat)
      requires executor.worker == Rescheduling(Missed) && timer !in timers.handles + timers.lost
      modifies this`timers, this`seen, executor`worker
      ensures View() == ArmMissedStep(old(View()), timer)
    {
      executor.worker := Rescheduling(Storing(timer));
      seen := seen.(armed := seen.armed + 1);
      if !timers.closed {
        timers := timers.(lost := timers.lost + {timer});
      }
    }

    method RescheduleStores(timer: nat)
      requires executor.worker == Rescheduling(Storing(timer))
      modifies this`deadline, executor
      ensures View() == StoreStep(old(View()))
    {
      deadline := Some(timer);
      executor.worker := Idle;
    }

    /** What a running reschedule does in one block, and the new timer's early firing. */
    method RescheduleBlock(e: Event)
      requires RescheduleEvent(e)
      modifies this, executor
      ensures View() == RescheduleStep(old(View()), e)
    {
      match e {
        case CancelCurrent(ok) =>
          if executor.worker == Rescheduling(Cancelling) { RescheduleCancels(ok); }
        case CheckAdmission(due) =>
          if executor.worker == Rescheduling(Checking) { RescheduleChecks(due); }
        case ArmTimer(timer, ok) =>
          if executor.worker == Rescheduling(Arming) {
            if !ok {
              executor.worker := Idle;
            } else if timer !in timers.handles + timers.lost {
              ScheduleAt(timer);
            }
          }
        case FiresEarly(t) =>
          if executor.worker == Rescheduling(Arming) {
            executor.worker := Rescheduling(Missed);
            if accepting { callbacks := callbacks + {t}; }
          }
        case ArmMissed(timer) =>
          if executor.worker == Rescheduling(Missed) && timer !in timers.handles + timers.lost {
            ScheduleAtMissed(timer);
          }
        case StoreDeadline =>
          if executor.worker.Rescheduling? && executor.worker.stage.Storing? {
            RescheduleStores(executor.worker.stage.timer);
          }
      }
    }

    method FinishTask(task: TaskRef, failed: bool)
      modifies this`results
      ensures View() == Finish(old(View()), task, failed)
    {
      if task !in results {
        results := results[task := failed];
      }
    }

    method RuntimeBlock(e: Event)
      requires RuntimeEvent(e)
      modifies this, executor
      ensures View() == RuntimeStep(old(View()), e)
    {
      hide StartedOp;
      match e {
        case StartOp =>
          if executor.worker == Idle && executor.queue != [] { StartOp(); }
        case RequestOutput =>
          if executor.worker == InRuntime && !port.quiescent { executor.worker := Requesting; }
        case RuntimeReturns =>
          if executor.worker == InRuntime { executor.worker := Idle; }
      }
    }

    /** The supervised `_cancel_deadline` comes to its end. */
    method EndDeadlineCancel(ok: bool)
      requires executor.worker.Cleaning? && executor.worker.task.step.DeadlineCancel?
      modifies this, executor
      ensures View() == DeadlineCancelEnd(old(View()), ok)
    {
      hide Finish, DropDeadline;
      var task := executor.worker.task;
      var raised := CancelDeadline(ok);
      DropKeepsExec(old(View()));
      executor.worker := Idle;
      FinishTask(task, raised);
    }

    /** `cancel_all` comes to its end. */
    method EndSweep(ok: bool)
      requires executor.worker.Cleaning? && executor.worker.task.step.SchedulerCancelAll?
      requires ok ==> timers.handles == {}
      modifies this, executor
      ensures View() == SweepEnd(old(View()), ok)
    {
      hide Finish;
      var task := executor.worker.task;
      executor.worker := Idle;
      FinishTask(task, !ok);
    }

    method CleanupOpBlock(e: Event)
      requires CleanupOpEvent(e)
      modifies this, executor
      ensures View() == CleanupOpStep(old(View()), e)
    {
      hide DeadlineCancelEnd, SweepEnd;
      NothingToClean(View(), e);
      match e {
        case DeadlineCancelEnds(ok) =>
          if executor.worker.Cleaning? && executor.worker.task.step.DeadlineCancel? { EndDeadlineCancel(ok); }
        case SweepOne(timer) =>
          if executor.worker.Cleaning? && executor.worker.task.step.SchedulerCancelAll? {
            timers := timers.(handles := timers.handles - {timer});
          }
        case SweepEnds(ok) =>
          if executor.worker.Cleaning? && executor.worker.task.step.SchedulerCancelAll?
             && (!ok || timers.handles == {}) {
            EndSweep(ok);
          }
      }
    }

    // ----- blocks of cleanup tasks

    /** A cleanup task's coroutine runs up to its wait for the executor. */
    method RunCleanupOperation(task: TaskRef)
      requires Unsubmitted(View(), task)
      modifies this, executor
      ensures View() == SubmitTask(old(View()), task)
    {
      if task.step.ExecutorClose? {
        if executor.closed {
          FinishTask(task, false);
        } else {
          executor.closing := true;
          submitted := submitted + {task};
        }
      } else {
        var accepted := executor.Enqueue(CleanupOp(task));
        if accepted {
          submitted := submitted + {task};
        } else {
          FinishTask(task, true);
        }
      }
    }

    /** `_consume_cleanup_result`: the result counts once, and only for the cleanup task still owned. */
    method ConsumeCleanupResult(task: TaskRef)
      requires task in results
      modifies this`cleanup, this`seen
      ensures View() == Consume(old(View()), task)
    {
      if task.step !in cleanup || cleanup[task.step] != task.id {
        return;
      }
      cleanup := cleanup - {task.step};
      seen := seen.(consumed := seen.consumed + multiset{task});
    }

    /** `async_close` once the shutdown of the executor has returned or raised. */
    method EndClose(task: TaskRef, ok: bool)
      requires task.step.ExecutorClose? && task in submitted && task !in results
      requires ok ==> executor.queue == [] && executor.worker == Idle
      modifies this`results, executor`closed
      ensures View() == CloseEnd(old(View()), task, ok)
    {
      if ok {
        executor.closed := true;
      }
      FinishTask(task, !ok);
    }

    method CancelCleanupTask(task: TaskRef)
      requires task in seen.issued && task !in results
      modifies this`results, this`seen
      ensures View() == CancelTask(old(View()), task)
    {
      seen := seen.(cancelled := seen.cancelled + {task});
      FinishTask(task, true);
    }

    /** What the cleanup tasks do in one block, and what cancels them. */
    method TaskBlock(e: Event)
      requires TaskEvent(e)
      modifies this, executor
      ensures View() == TaskStep(old(View()), e)
    {
      hide SubmitTask, CloseEnd, CancelTask;
      NothingOfTheTask(View(), e);
      match e {
        case TaskSubmits(task) =>
          if Unsubmitted(View(), task) { RunCleanupOperation(task); }
        case CloseEnds(task, ok) =>
          if task.step.ExecutorClose? && task in submitted && task !in results
             && (!ok || (executor.queue == [] && executor.worker == Idle)) {
            EndClose(task, ok);
          }
        case TaskCancelled(task) =>
          if task in seen.issued && task !in results { CancelCleanupTask(task); }
        case Recall(k) =>
          if k < |executor.queue| && (executor.queue[k].CleanupOp? ==> executor.queue[k].task in seen.cancelled) {
            executor.queue := Without(executor.queue, k);
          }
      }
    }

    method LateCallback(task: TaskRef)
      modifies this`late, this`cleanup, this`seen
      ensures View() == LateConsume(old(View()), task)
    {
      hide Consume;
      if task in late && task in results {
        late := late - {task};
        ConsumeCleanupResult(task);
      }
    }

    // ----- runs of the object

    /** Whatever the other tasks, threads and callbacks do while one task waits is a run of the system. */
    method Interleave(events: seq<Event>)
      requires Others(events)
      modifies this, port, executor
      ensures View() == Run(old(View()), events)
    {
      hide Apply;
      ghost var start := View();
      var i := 0;
      while i < |events|
        invariant 0 <= i <= |events| && View() == Run(start, events[..i])
      {
        var e := events[i];
        RunSnoc(start, events[..i], e);
        assert events[..i + 1] == events[..i] + [e];
        Perform(e);
        i := i + 1;
      }
      assert events[..|events|] == events;
    }

    method Perform(e: Event)
      requires OutsideEvent(e)
      modifies this, port, executor
      ensures View() == Apply(old(View()), e)
    {
      hide Apply, EntryStep, SubmissionStep, RuntimeStep, RescheduleStep, CleanupOpStep, TaskStep, LateConsume;
      if EntryEvent(e) {
        EntryApplies(View(), e);
        EntryBlock(e);
      } else if SubmissionEvent(e) {
        SubmissionApplies(View(), e);
        SubmissionBlock(e);
      } else if RuntimeEvent(e) {
        RuntimeApplies(View(), e);
        RuntimeBlock(e);
      } else if RescheduleEvent(e) {
        RescheduleApplies(View(), e);
        RescheduleBlock(e);
      } else if CleanupOpEvent(e) {
        CleanupOpApplies(View(), e);
        CleanupOpBlock(e);
      } else if TaskEvent(e) {
        TaskApplies(View(), e);
        TaskBlock(e);
      } else {
        LateApplies(View(), e.task);
        LateCallback(e.task);
      }
    }

    // ----- the stop pass

    /** `_consume_finished_cleanup_tasks`: over a copy of the dictionary, in whatever order. */
    method ConsumeFinishedCleanupTasks()
      modifies this`cleanup, this`seen
      ensures View() == ConsumeFinished(old(View()))
    {
      hide Consume, ConsumeStep;
      var todo := cleanup.Keys;
      while todo != {}
        invariant ConsumeFinished(View()) == ConsumeFinished(old(View()))
        invariant forall step <- cleanup :: step !in todo ==> TaskRef(step, cleanup[step]) !in results
        decreases |todo|
      {
        var step :| step in todo;
        todo := todo - {step};
        ConsumeAhead(View(), step);
        ConsumesIfFinished(View(), step);
        ConsumeStepFrame(View(), step);
        if step in cleanup {
          var task := TaskRef(step, cleanup[step]);
          if task in results {
            ConsumeCleanupResult(task);
          }
        }
      }
      NothingToConsume(View());
    }

    /** The listener goes unless its unsubscribe raises; then the callback tasks are cancelled and awaited. */
    method UnsubscribeAndCancelCallbacks(unsubscribed: bool)
      modifies this`listener, this`lock, this`tally
      ensures View() == EnterPass(old(View()), unsubscribed)
    {
      if listener && unsubscribed {
        listener := false;
      }
      tally := tally.(troubled := listener, failures := tally.failures + (if listener then 1 else 0),
                      leftover := cleanup != map[], racing := executor.worker.Rescheduling?);
      lock := AwaitCallbacks(callbacks);
    }

    /** The stop pass up to its first wait, for a host not stopped yet. */
    method BeginPass(unsubscribed: bool)
      requires requests > 0
      modifies this
      ensures View() == WaterHost.BeginPass(old(View()), unsubscribed)
    {
      hide ConsumeFinished, EnterPass;
      requests := requests - 1;
      stopping := true;
      ghost var asked := View();
      RetireLogicalAdmission();
      ConsumeFinishedCleanupTasks();
      UnsubscribeAndCancelCallbacks(unsubscribed);
      assert asked == old(View()).(stopping := true, requests := old(requests) - 1);
    }

    method RecordFailure()
      modifies this`tally
      ensures View() == Fail(old(View()))
    {
      tally := tally.(troubled := true, failures := tally.failures + 1);
    }

    method RecordIfFailed(failed: bool)
      modifies this`tally
      ensures View() == FailIf(old(View()), failed)
    {
      hide Fail;
      if failed {
        RecordFailure();
      }
    }

    method CountPass()
      modifies this`tally
      ensures View() == CountUnstopped(old(View()))
    {
      hide CountUnstopped;
      CountsOnly(View());
      tally := CountUnstopped(View()).tally;
    }

    /** The pass is cancelled at one of its waits: its lock is released, `stopping` is left set. */
    method CancelPass()
      requires InPass(View())
      modifies this
      ensures View() == PassCancelStep(old(View()))
    {
      hide Fail, CountUnstopped;
      RecordFailure();
      CountPass();
      if lock.Await? {
        seen := seen.(abandoned := seen.abandoned + {lock.task});
      }
      lock := Free;
    }

    /** The bounded wait for the cancelled callback tasks. */
    method AwaitCallbackTasks(wait: Wait) returns (ghost trace: seq<Event>)
      requires lock.AwaitCallbacks? && Others(wait.meanwhile) && Sound(View())
      modifies this, port, executor
      ensures View() == Run(old(View()), trace) && Sound(View()) && seen.issued == old(seen.issued)
      ensures if wait.cancelled then Abandoned(View()) else lock == At(DeadlineCancel)
    {
      hide Sound, Abandoned, SettleStep, PassCancelStep, Run, Apply;
      trace := wait.meanwhile + [if wait.cancelled then PassCancelled else CallbacksSettle];
      WaitEnds(View(), wait.meanwhile, trace[|wait.meanwhile|]);
      Interleave(wait.meanwhile);
      if wait.cancelled {
        CancelPass();
      } else {
        Settle();
      }
    }

    method Settle()
      requires lock.AwaitCallbacks?
      modifies this`lock, this`tally
      ensures View() == SettleStep(old(View()))
    {
      hide FailIf;
      RecordIfFailed(callbacks * lock.cancelled != {});
      lock := At(DeadlineCancel);
    }

    /** The conditions under which the pass has something to do at this step. */
    predicate StepNeeded(step: CleanupStep)
      reads this, executor
      ensures StepNeeded(step) == Needed(View(), step)
    {
      match step
      case DeadlineCancel => deadline.Some?
      case SchedulerCancelAll => !(timers.closed && timers.handles == {} && timers.lost == {})
      case ExecutorClose =>
        && callbacks == {} && deadline.None? && timers.closed && timers.handles == {} && timers.lost == {}
        && DeadlineCancel !in cleanup && SchedulerCancelAll !in cleanup && !executor.closed
    }

    /** `_async_supervise_cleanup` up to its wait, `id` naming the cleanup task it would create. */
    method SuperviseCleanup(step: CleanupStep, id: nat)
      requires TaskRef(step, id) !in seen.issued
      modifies this
      ensures View() == Supervise(old(View()), step, id)
    {
      if step !in cleanup {
        cleanup := cleanup[step := id];
        seen := seen.(issued := seen.issued + {TaskRef(step, id)});
      }
      lock := Await(TaskRef(step, cleanup[step]));
    }

    method BeginCleanupStep(id: nat)
      requires lock.At? && TaskRef(lock.step, id) !in seen.issued
      modifies this
      ensures View() == BeginCleanup(old(View()), id)
    {
      hide Needed, Supervise, Fail;
      var step := lock.step;
      if !StepNeeded(step) {
        lock := Next(step);
      } else if executor.closed {
        RecordFailure();
        lock := Next(step);
      } else {
        SuperviseCleanup(step, id);
      }
    }

    /** The awaited cleanup task has ended: its result is consumed. */
    method ConsumeAwaited(task: TaskRef)
      requires lock == Await(task) && task in results
      modifies this
      ensures View() == ResolveStep(old(View()))
    {
      hide Consume, FailIf, ResolveStep, Next;
      EndsBy(View(), task);
      ConsumeFrame(View(), task);
      ConsumeCleanupResult(task);
      RecordIfFailed(results[task]);
      lock := Next(task.step);
    }

    /** The awaited cleanup task has not ended in time: it stays supervised and gets a callback. */
    method LeaveSupervised(task: TaskRef)
      requires lock == Await(task) && task !in results
      modifies this
      ensures View() == TimeOutStep(old(View()))
    {
      hide Fail, TimeOutStep;
      EndsBy(View(), task);
      RecordFailure();
      late := late + {task};
      lock := Next(task.step);
    }

    /** The bounded wait for a supervised cleanup task. */
    method AwaitCleanupTask(task: TaskRef, wait: Wait) returns (ghost trace: seq<Event>)
      requires lock == Await(task) && Others(wait.meanwhile) && Sound(View())
      modifies this, port, executor
      ensures View() == Run(old(View()), trace) && Sound(View()) && seen.issued == old(seen.issued)
      ensures if wait.cancelled then Abandoned(View()) else lock == Next(task.step)
    {
      hide Sound, Abandoned, ResolveStep, TimeOutStep, PassCancelStep, Run, Apply, Next;
      ghost var start := View();
      Interleave(wait.meanwhile);
      OthersKeepTheWait(start, wait.meanwhile);
      ghost var end := if wait.cancelled then PassCancelled else if task in results then Resolve else TimeOut;
      trace := wait.meanwhile + [end];
      WaitEnds(start, wait.meanwhile, end);
      if wait.cancelled {
        CancelPass();
      } else if task in results {
        ConsumeAwaited(task);
      } else {
        LeaveSupervised(task);
      }
    }

    /** One step of the pass with its wait, if it needs one. */
    method RunStep(step: CleanupStep, id: nat, wait: Wait) returns (cancelled: bool, ghost trace: seq<Event>)
      requires lock == At(step) && TaskRef(step, id) !in seen.issued && Others(wait.meanwhile) && Sound(View())
      modifies this, port, executor
      ensures View() == Run(old(View()), trace) && Sound(View())
      ensures seen.issued <= old(seen.issued) + {TaskRef(step, id)}
      ensures if cancelled then Abandoned(View()) else lock == Next(step)
    {
      hide Sound, Abandoned, BeginCleanup, Run, Next;
      ghost var start := View();
      trace := [BeginStep(id)];
      BeginsOrSkips(start, id);
      BeginCleanupStep(id);
      cancelled := false;
      if lock.Await? {
        ghost var more := AwaitCleanupTask(lock.task, wait);
        RunConcat(start, trace, more);
        trace := trace + more;
        cancelled := wait.cancelled;
      }
    }

    predicate EverythingReleased()
      reads this, executor, port
      ensures EverythingReleased() == AllReleased(View())
    {
      && !listener && deadline.None? && timers.closed && timers.handles == {} && timers.lost == {}
      && callbacks == {} && cleanup == map[] && executor.closed
    }

    method Conclude()
      modifies this`stopped, this`tally
      ensures View() == Concluded(old(View()))
    {
      hide CountUnstopped, AllReleased;
      if EverythingReleased() {
        stopped := true;
      } else {
        CountPass();
      }
    }

    /** The end of the pass: what is left decides `stopped`. */
    method EndPass()
      requires lock.AtEnd?
      modifies this
      ensures View() == PassEndStep(old(View()))
    {
      hide ConsumeFinished, Concluded;
      ConsumeFinishedCleanupTasks();
      stopping := false;
      lock := Free;
      assert View() == ConsumeFinished(old(View())).(stopping := false, lock := Free);
      Conclude();
    }

    /** The three supervised steps, each with its wait if it needs one. */
    method RunSteps(o: Outcomes) returns (cancelled: bool, ghost trace: seq<Event>)
      requires lock == At(DeadlineCancel) && Sound(View())
      requires o.Possible() && forall t <- seen.issued :: t.id != o.id
      modifies this, port, executor
      ensures View() == Run(old(View()), trace) && Sound(View())
      ensures if cancelled then Abandoned(View()) else lock.AtEnd?
    {
      hide Sound, Abandoned, Run;
      ghost var start := View();
      ghost var more: seq<Event>;
      cancelled, trace := RunStep(DeadlineCancel, o.id, o.deadline);
      if !cancelled {
        cancelled, more := RunStep(SchedulerCancelAll, o.id, o.sweep);
        RunConcat(start, trace, more);
        trace := trace + more;
      }
      if !cancelled {
        cancelled, more := RunStep(ExecutorClose, o.id, o.close);
        RunConcat(start, trace, more);
        trace := trace + more;
      }
    }

    /** The stop pass, whatever the worker, the cleanup tasks, callbacks and entry points do while it waits and
        wherever it is cancelled. It is one run of the system. Unless cancelled it stops the host exactly when
        everything is released, and it fails to only for the four causes; a stopped host has nothing left. */
    method AsyncStopOwnedResources(o: Outcomes) returns (cancelled: bool, ghost trace: seq<Event>)
      requires lock.Free? && requests > 0 && Sound(View())
      requires o.Possible() && forall t <- seen.issued :: t.id != o.id
      modifies this, port, executor
      ensures View() == Run(old(View()), trace) && Sound(View()) && lock.Free?
      ensures stopped ==> FullyStopped(View())
      ensures !cancelled ==> !stopping && (stopped <==> AllReleased(View()))
      ensures !cancelled && !stopped ==> tally.troubled || tally.leftover || tally.racing || timers.lost != {}
      ensures cancelled ==> Abandoned(View())
      ensures old(stopped) ==> stopped && View() == old(View()).(requests := old(requests) - 1)
    {
      hide Inv, PassInv, WaterHost.BeginPass, PassEndStep, FullyStopped, AllReleased, Run, Apply;
      ghost var start := View();
      ghost var more: seq<Event>;
      trace, cancelled := [PassBegin(o.unsubscribed)], false;
      PassBeginsOrReturns(start, o.unsubscribed);
      if stopped {
        requests := requests - 1;
        assert View() == start.(requests := start.requests - 1);
        return;
      }
      BeginPass(o.unsubscribed);
      more := AwaitCallbackTasks(o.callbacks);
      RunConcat(start, trace, more);
      trace := trace + more;
      if o.callbacks.cancelled {
        return true, trace;
      }
      cancelled, more := RunSteps(o);
      RunConcat(start, trace, more);
      trace := trace + more;
      if !cancelled {
        PassEnds(View());
        RunConcat(start, trace, [PassEnd]);
        trace := trace + [PassEnd];
        EndPass();
      }
    }
  }

  /** What can happen while the pass waits: everything but a start and the pass's own steps. */
  predicate OutsideEvent(e: Event) {
    SideEvent(e) || e.LateCallback?
  }

  predicate Others(events: seq<Event>) {
    forall e <- events :: OutsideEvent(e)
  }

  /** A wait of the pass: what the others do meanwhile, and whether the pass is cancelled at its end. */
  datatype Wait = Wait(meanwhile: seq<Event>, cancelled: bool)

  /** What a stop pass meets. `id` names the cleanup tasks it creates. */
  datatype Outcomes = Outcomes(
    unsubscribed: bool, id: nat, callbacks: Wait, deadline: Wait, sweep: Wait, close: Wait)
  {
    predicate Possible() {
      Others(callbacks.meanwhile) && Others(deadline.meanwhile) && Others(sweep.meanwhile) && Others(close.meanwhile)
    }
  }

  ghost predicate Sound(s: State) {
    Inv(s) && PassInv(s)
  }

  /** A cancelled pass has given the lock back and left the host unstopped. */
  predicate Abandoned(s: State) {
    s.lock.Free? && !s.stopped && s.tally.troubled
  }

  lemma NotListening(s: State, t: nat)
    ensures !(s.listener || s.leaked > 0) ==> WaterHost.OnStateChange(s, t) == s
  {}

  lemma NotTracked(s: State, timer: nat, t: nat, runs: bool)
    ensures timer !in s.timers.handles ==> OnTimer(s, timer, t, runs) == s
  {}

  // every group of events has its own step

  lemma EntryApplies(s: State, e: Event)
    requires EntryEvent(e)
    ensures Apply(s, e) == EntryStep(s, e)
  {
    hide EntryStep;
  }

  lemma SubmissionApplies(s: State, e: Event)
    requires SubmissionEvent(e)
    ensures Apply(s, e) == SubmissionStep(s, e)
  {
    hide SubmissionStep;
  }

  lemma RuntimeApplies(s: State, e: Event)
    requires RuntimeEvent(e)
    ensures Apply(s, e) == RuntimeStep(s, e)
  {
    hide RuntimeStep;
  }

  lemma RescheduleApplies(s: State, e: Event)
    requires RescheduleEvent(e)
    ensures Apply(s, e) == RescheduleStep(s, e)
  {
    hide RescheduleStep;
  }

  lemma CleanupOpApplies(s: State, e: Event)
    requires CleanupOpEvent(e)
    ensures Apply(s, e) == CleanupOpStep(s, e)
  {
    hide CleanupOpStep;
  }

  lemma TaskApplies(s: State, e: Event)
    requires TaskEvent(e)
    ensures Apply(s, e) == TaskStep(s, e)
  {
    hide TaskStep;
  }

  lemma LateApplies(s: State, t: TaskRef)
    ensures Apply(s, LateCallback(t)) == LateConsume(s, t)
  {
    hide LateConsume;
  }

  // the events that find nothing to do

  lemma NothingToSubmit(s: State, e: Event)
    ensures e.SubmitLogical? && e.generation > s.generation ==> Submit(s, e.generation, e.call) == s
    ensures !s.exec.worker.Requesting? ==> Dispatch(s) == s
  {}

  lemma NothingToClean(s: State, e: Event)
    ensures e.DeadlineCancelEnds? && !InCleanup(s, DeadlineCancel) ==> DeadlineCancelEnd(s, e.ok) == s
    ensures e.SweepEnds? && (!InCleanup(s, SchedulerCancelAll) || (e.ok && s.timers.handles != {})) ==>
      SweepEnd(s, e.ok) == s
  {}

  lemma NothingOfTheTask(s: State, e: Event)
    ensures e.TaskSubmits? && !Unsubmitted(s, e.task) ==> SubmitTask(s, e.task) == s
    ensures e.TaskCancelled? && (e.task !in s.seen.issued || e.task in s.results) ==> CancelTask(s, e.task) == s
    ensures e.CloseEnds? && !(e.task.step.ExecutorClose? && e.task in s.submitted && e.task !in s.results) ==>
      CloseEnd(s, e.task, e.ok) == s
    ensures e.CloseEnds? && e.ok && (s.exec.queue != [] || s.exec.worker != Idle) ==> CloseEnd(s, e.task, e.ok) == s
  {}

  lemma DropKeepsExec(s: State)
    ensures DropDeadline(s).exec == s.exec
  {}

  lemma ConsumesIfFinished(s: State, step: CleanupStep)
    ensures ConsumeStep(s, step) ==
      if step in s.cleanup && TaskRef(step, s.cleanup[step]) in s.results then
        Consume(s, TaskRef(step, s.cleanup[step])) else s
  {}

  lemma RunSnoc(s: State, a: seq<Event>, e: Event)
    ensures Run(s, a + [e]) == Apply(Run(s, a), e)
  {
    hide Apply;
    RunConcat(s, a, [e]);
    RunOne(Run(s, a), e);
  }

  // ----- one wait

  lemma OneKeepsTheWait(s: State, e: Event)
    requires Sound(s) && OutsideEvent(e)
    ensures Sound(Apply(s, e)) && Apply(s, e).lock == s.lock && Apply(s, e).seen.issued == s.seen.issued
  {
    hide Inv, PassInv, ClosedStays, NothingComesBack, Hushed, Muted, Apply;
    ApplyKeepsInv(s, e);
    ApplyKeepsPass(s, e);
    if SideEvent(e) {
      SideOnlyReleases(s, e);
    } else {
      LateKeepsTheWait(s, e.task);
    }
  }

  lemma LateKeepsTheWait(s: State, t: TaskRef)
    ensures var r := Apply(s, LateCallback(t)); r.lock == s.lock && r.seen.issued == s.seen.issued
  {
    hide Consume;
    ConsumeFrame(s.(late := s.late - {t}), t);
  }

  /** Nothing that happens meanwhile ends the wait or issues a cleanup task. */
  lemma {:induction false} OthersKeepTheWait(s: State, events: seq<Event>)
    requires Sound(s) && Others(events)
    ensures var t := Run(s, events); Sound(t) && t.lock == s.lock && t.seen.issued == s.seen.issued
    decreases |events|
  {
    hide Sound, Apply;
    if events != [] {
      OneKeepsTheWait(s, events[0]);
      OthersKeepTheWait(Apply(s, events[0]), events[1..]);
    }
  }

  predicate EndsWait(lock: Lock, e: Event) {
    match e
    case PassCancelled => lock.AwaitCallbacks? || lock.Await?
    case CallbacksSettle => lock.AwaitCallbacks?
    case Resolve => lock.Await?
    case TimeOut => lock.Await?
    case _ => false
  }

  lemma WaitEnds(s: State, meanwhile: seq<Event>, end: Event)
    requires Sound(s) && Others(meanwhile) && EndsWait(s.lock, end)
    ensures var r := Run(s, meanwhile);
      && r.lock == s.lock && Run(s, meanwhile + [end]) == Apply(r, end)
      && Sound(Apply(r, end)) && Apply(r, end).seen.issued == s.seen.issued
      && Apply(r, PassCancelled) == PassCancelStep(r) && Apply(r, CallbacksSettle) == SettleStep(r)
      && Apply(r, Resolve) == ResolveStep(r) && Apply(r, TimeOut) == TimeOutStep(r)
      && (end.PassCancelled? ==> Abandoned(Apply(r, end)))
      && (end.CallbacksSettle? ==> Apply(r, end).lock == At(DeadlineCancel))
      && (end.Resolve? && s.lock.task in r.results ==> Apply(r, end).lock == Next(s.lock.task.step))
      && (end.TimeOut? && s.lock.task !in r.results ==> Apply(r, end).lock == Next(s.lock.task.step))
  {
    hide Inv, PassInv, Apply, Run, PassCancelStep, SettleStep, ResolveStep, TimeOutStep;
    var r := Run(s, meanwhile);
    OthersKeepTheWait(s, meanwhile);
    RunSnoc(s, meanwhile, end);
    ApplyKeepsInv(r, end);
    ApplyKeepsPass(r, end);
    CancelApplies(r);
    SettleApplies(r);
    ResolveApplies(r);
    TimeOutApplies(r);
    if end.PassCancelled? {
      AbandonedByCancel(r);
    } else if end.CallbacksSettle? {
      SettleEnds(r);
    } else if end.Resolve? {
      ResolveEnds(r);
    } else {
      TimeOutEnds(r);
    }
  }

  lemma CancelApplies(s: State)
    ensures Apply(s, PassCancelled) == PassCancelStep(s)
  {
    hide PassCancelStep;
  }

  lemma SettleApplies(s: State)
    ensures Apply(s, CallbacksSettle) == SettleStep(s)
  {
    hide SettleStep;
  }

  lemma ResolveApplies(s: State)
    ensures Apply(s, Resolve) == ResolveStep(s)
  {
    hide ResolveStep;
  }

  lemma TimeOutApplies(s: State)
    ensures Apply(s, TimeOut) == TimeOutStep(s)
  {
    hide TimeOutStep;
  }

  lemma AbandonedByCancel(s: State)
    requires Inv(s) && InPass(s)
    ensures Abandoned(PassCancelStep(s)) && PassCancelStep(s).seen.issued == s.seen.issued
  {
    hide Inv;
    InPassFacts(s);
  }

  lemma SettleEnds(s: State)
    requires s.lock.AwaitCallbacks?
    ensures SettleStep(s).lock == At(DeadlineCancel) && SettleStep(s).seen.issued == s.seen.issued
  {}

  lemma ResolveEnds(s: State)
    requires s.lock.Await?
    ensures s.lock.task in s.results ==> ResolveStep(s).lock == Next(s.lock.task.step)
    ensures ResolveStep(s).seen.issued == s.seen.issued
  {
    hide Consume;
    ConsumeFrame(s, s.lock.task);
  }

  lemma TimeOutEnds(s: State)
    requires s.lock.Await?
    ensures s.lock.task !in s.results ==> TimeOutStep(s).lock == Next(s.lock.task.step)
    ensures TimeOutStep(s).seen.issued == s.seen.issued
  {}

  // ----- the pass's own steps

  lemma PassBeginsOrReturns(s: State, unsubscribed: bool)
    requires Sound(s) && s.lock.Free? && s.requests > 0
    ensures Run(s, [PassBegin(unsubscribed)]) == PassBeginStep(s, unsubscribed)
    ensures var t := PassBeginStep(s, unsubscribed);
      && Sound(t)
      && (s.stopped ==> t == s.(requests := s.requests - 1) && FullyStopped(t) && AllReleased(t) && !t.stopping)
      && (!s.stopped ==> t == BeginPass(s, unsubscribed) && t.lock.AwaitCallbacks? && t.seen.issued == s.seen.issued)
  {
    hide Inv, PassInv, Run, Apply, AllReleased, EnterPass, ConsumeFinished;
    RunOne(s, PassBegin(unsubscribed));
    ApplyKeepsInv(s, PassBegin(unsubscribed));
    ApplyKeepsPass(s, PassBegin(unsubscribed));
    BeginApplies(s, unsubscribed);
    if s.stopped {
      StoppedFacts(s.(requests := s.requests - 1));
    } else {
      BegunFacts(s, unsubscribed);
    }
  }

  lemma BeginApplies(s: State, unsubscribed: bool)
    ensures Apply(s, PassBegin(unsubscribed)) == PassBeginStep(s, unsubscribed)
  {
    hide PassBeginStep;
  }

  lemma StoppedFacts(s: State)
    requires Inv(s) && s.stopped
    ensures FullyStopped(s) && !s.stopping && s.lock.Free?
  {}

  lemma BegunFacts(s: State, unsubscribed: bool)
    requires s.requests > 0
    ensures var t := BeginPass(s, unsubscribed); t.lock.AwaitCallbacks? && t.seen.issued == s.seen.issued
  {
    hide ConsumeFinished;
    ConsumeFinishedFrame(Retire(s.(stopping := true, requests := s.requests - 1)));
  }

  lemma BeginsOrSkips(s: State, id: nat)
    requires Sound(s) && s.lock.At? && TaskRef(s.lock.step, id) !in s.seen.issued
    ensures Run(s, [BeginStep(id)]) == BeginCleanup(s, id) && Sound(BeginCleanup(s, id))
    ensures var t := BeginCleanup(s, id);
      && t.seen.issued <= s.seen.issued + {TaskRef(s.lock.step, id)}
      && if t.lock.Await? then t.lock.task.step == s.lock.step else t.lock == Next(s.lock.step)
  {
    hide Inv, PassInv, Run, Apply, BeginCleanup;
    RunOne(s, BeginStep(id));
    ApplyKeepsInv(s, BeginStep(id));
    ApplyKeepsPass(s, BeginStep(id));
    BeginStepApplies(s, id);
    BeginCleanupFacts(s, id);
  }

  lemma BeginStepApplies(s: State, id: nat)
    ensures Apply(s, BeginStep(id)) == BeginCleanup(s, id)
  {
    hide BeginCleanup;
  }

  lemma EndsBy(s: State, t: TaskRef)
    requires s.lock == Await(t)
    ensures t in s.results ==> ResolveStep(s) == FailIf(Consume(s, t), s.results[t]).(lock := Next(t.step))
    ensures t !in s.results ==> TimeOutStep(s) == Fail(s).(late := s.late + {t}, lock := Next(t.step))
  {
    hide Consume, Fail;
  }

  lemma SuperviseFacts(s: State, step: CleanupStep, id: nat)
    requires TaskRef(step, id) !in s.seen.issued
    ensures var t := Supervise(s, step, id);
      t.lock.Await? && t.lock.task.step == step && t.seen.issued <= s.seen.issued + {TaskRef(step, id)}
  {
    if step in s.cleanup {
      assert Supervise(s, step, id) == s.(lock := Await(TaskRef(step, s.cleanup[step])));
    } else {
      assert Supervise(s, step, id) == Issue(s, TaskRef(step, id));
    }
  }

  lemma BeginCleanupFacts(s: State, id: nat)
    requires s.lock.At? && TaskRef(s.lock.step, id) !in s.seen.issued
    ensures var t := BeginCleanup(s, id);
      && t.seen.issued <= s.seen.issued + {TaskRef(s.lock.step, id)}
      && if t.lock.Await? then t.lock.task.step == s.lock.step else t.lock == Next(s.lock.step)
  {
    hide Needed, Supervise;
    if Needed(s, s.lock.step) && !s.exec.closed {
      SuperviseFacts(s, s.lock.step, id);
      assert BeginCleanup(s, id) == Supervise(s, s.lock.step, id);
    } else {
      SkipFacts(s, id);
    }
  }

  lemma SkipFacts(s: State, id: nat)
    requires s.lock.At? && (!Needed(s, s.lock.step) || s.exec.closed)
    ensures BeginCleanup(s, id).lock == Next(s.lock.step) && BeginCleanup(s, id).seen == s.seen
  {
    hide Needed, Supervise;
  }

  /** At its end the pass stops the host exactly when everything is released. */
  lemma PassEnds(s: State)
    requires Sound(s) && s.lock.AtEnd?
    ensures Run(s, [PassEnd]) == PassEndStep(s) && Sound(PassEndStep(s))
    ensures var t := PassEndStep(s);
      && t.lock.Free? && !t.stopping && (t.stopped <==> AllReleased(t)) && (t.stopped ==> FullyStopped(t))
      && (t.stopped || t.tally.troubled || t.tally.leftover || t.tally.racing || t.timers.lost != {})
  {
    hide Inv, PassInv, Run, Apply, PassEndStep, AllReleased;
    RunOne(s, PassEnd);
    ApplyKeepsInv(s, PassEnd);
    ApplyKeepsPass(s, PassEnd);
    assert Apply(s, PassEnd) == PassEndStep(s) by { EndApplies(s); }
    CausePerPass(s);
    EndDecides(s);
    if PassEndStep(s).stopped {
      StoppedFacts(PassEndStep(s));
    }
  }

  lemma EndApplies(s: State)
    ensures Apply(s, PassEnd) == PassEndStep(s)
  {
    hide PassEndStep;
  }

  lemma EndDecides(s: State)
    requires Inv(s) && s.lock.AtEnd?
    ensures var t := PassEndStep(s);
      && t.lock.Free? && !t.stopping && (t.stopped <==> AllReleased(t)) && t.timers == s.timers
      && t.tally.troubled == s.tally.troubled && t.tally.leftover == s.tally.leftover
      && t.tally.racing == s.tally.racing
  {
    hide Inv, ConsumeFinished;
    InPassFacts(s);
    ConsumeFinishedFrame(s);
  }

  /** Consuming one finished task first does not change what consuming them all leaves. */
  lemma ConsumeAhead(s: State, step: CleanupStep)
    ensures ConsumeFinished(ConsumeStep(s, step)) == ConsumeFinished(s)
  {
    match step
    case DeadlineCancel => Repeated(s, DeadlineCancel);
    case SchedulerCancelAll =>
      Commute(s, SchedulerCancelAll, DeadlineCancel);
      Repeated(ConsumeStep(s, DeadlineCancel), SchedulerCancelAll);
    case ExecutorClose =>
      Commute(s, ExecutorClose, DeadlineCancel);
      Commute(ConsumeStep(s, DeadlineCancel), ExecutorClose, SchedulerCancelAll);
      Repeated(ConsumeStep(ConsumeStep(s, DeadlineCancel), SchedulerCancelAll), ExecutorClose);
  }

  lemma Repeated(s: State, step: CleanupStep)
    ensures ConsumeStep(ConsumeStep(s, step), step) == ConsumeStep(s, step)
  {}

  predicate Finished(s: State, step: CleanupStep) {
    step in s.cleanup && TaskRef(step, s.cleanup[step]) in s.results
  }

  function Unowned(s: State, step: CleanupStep): State {
    if step !in s.cleanup then s
    else s.(cleanup := s.cleanup - {step},
            seen := s.seen.(consumed := s.seen.consumed + multiset{TaskRef(step, s.cleanup[step])}))
  }

  lemma ConsumeStepPops(s: State, step: CleanupStep)
    ensures ConsumeStep(s, step) == if Finished(s, step) then Unowned(s, step) else s
  {}

  lemma RemovalsCommute(m: map<CleanupStep, nat>, a: CleanupStep, b: CleanupStep)
    ensures m - {a} - {b} == m - {b} - {a}
  {}

  lemma AdditionsCommute(m: multiset<TaskRef>, a: TaskRef, b: TaskRef)
    ensures m + multiset{a} + multiset{b} == m + multiset{b} + multiset{a}
  {}

  lemma PopsCommute(s: State, a: CleanupStep, b: CleanupStep)
    requires a != b && a in s.cleanup && b in s.cleanup
    ensures Unowned(Unowned(s, a), b) == Unowned(Unowned(s, b), a)
  {
    var t, u := TaskRef(a, s.cleanup[a]), TaskRef(b, s.cleanup[b]);
    RemovalsCommute(s.cleanup, a, b);
    AdditionsCommute(s.seen.consumed, t, u);
    assert Unowned(Unowned(s, a), b) ==
      s.(cleanup := s.cleanup - {a} - {b}, seen := s.seen.(consumed := s.seen.consumed + multiset{t} + multiset{u}));
    assert Unowned(Unowned(s, b), a) ==
      s.(cleanup := s.cleanup - {b} - {a}, seen := s.seen.(consumed := s.seen.consumed + multiset{u} + multiset{t}));
  }

  lemma Commute(s: State, a: CleanupStep, b: CleanupStep)
    requires a != b
    ensures ConsumeStep(ConsumeStep(s, a), b) == ConsumeStep(ConsumeStep(s, b), a)
  {
    ConsumeStepPops(s, a);
    ConsumeStepPops(s, b);
    if Finished(s, a) && Finished(s, b) {
      ConsumeStepPops(Unowned(s, a), b);
      ConsumeStepPops(Unowned(s, b), a);
      PopsCommute(s, a, b);
    } else if Finished(s, a) {
      ConsumeStepPops(Unowned(s, a), b);
    } else if Finished(s, b) {
      ConsumeStepPops(Unowned(s, b), a);
    }
  }
}
