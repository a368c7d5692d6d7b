/** The Water Safety host: one event loop, one worker thread, retryable stop passes. Loop code between
    two awaits is one step, and so is every indivisible piece of a worker operation. Operations run on the
    worker first in, first out, one at a time; unsubscribe, cancel, install and cleanup operations may fail,
    waits may time out, and a task that awaits an operation may be cancelled: an operation the worker is inside
    runs on, one still queued is dropped. */
module WaterHost {

  import opened Wrappers

  datatype CleanupStep = DeadlineCancel | SchedulerCancelAll | ExecutorClose

  /** One supervised cleanup task; the number tells apart tasks of the same step. */
  datatype TaskRef = TaskRef(step: CleanupStep, id: nat)

  datatype Call = RuntimeCall | Reschedule

  datatype Op = Logical(generation: nat, call: Call) | CleanupOp(task: TaskRef)

  /** How far `_reschedule_deadline` has come on the worker. */
  datatype Stage =
    | Cancelling          // about to cancel the current deadline
    | Checking            // deadline gone, about to re-check admission
    | Arming              // inside schedule_at
    | Missed              // its timer has fired and was discarded before its handle is registered
    | Storing(timer: nat) // timer armed, handle not stored yet

  datatype Worker =
    | Idle
    | InRuntime                    // past admission, inside the runtime
    | Requesting                   // an output request waits for its turn on the loop
    | Rescheduling(stage: Stage)
    | Cleaning(task: TaskRef)      // inside `_cancel_deadline` or the scheduler's cancel_all

  datatype Executor = Executor(closing: bool, closed: bool, queue: seq<Op>, worker: Worker)

  /** The scheduler as the host sees it. It tracks `handles`, which leave when they finish, and `lost`, whose
      discard came before their registration and which nothing takes out any more. */
  datatype Timers = Timers(handles: set<nat>, lost: set<nat>, closed: bool)

  /** Who holds the lifecycle lock, and how far it has come. */
  datatype Lock =
    | Free
    | Initializing
    | AwaitCallbacks(cancelled: set<nat>)
    | At(step: CleanupStep)
    | Await(task: TaskRef)
    | AtEnd

  /** Observed: service calls begun, operations admitted, timers armed; cleanup tasks issued, consumed, cancelled
      before they had ended, and abandoned by a pass cancelled while it awaited them. */
  datatype Seen = Seen(
    calls: nat, admitted: nat, armed: nat,
    issued: set<TaskRef>, consumed: multiset<TaskRef>, cancelled: set<TaskRef>, abandoned: set<TaskRef>)

  /** Observed of the passes. The one in progress is `troubled` by a failed or timed-out step, `leftover` if
      an operation of an earlier pass was still supervised when it began, `racing` if a reschedule was
      already running then. The counters add up failures and the passes that ended unstopped; of the
      untroubled ones, `busy` ended with a leftover operation still in flight, `drained` with none left,
      and of those that had begun without any, `blocked` ended with a lost timer and `quiet` without. */
  datatype Tally = Tally(
    troubled: bool, leftover: bool, racing: bool,
    failures: nat, unstopped: nat, busy: nat, drained: nat, blocked: nat, quiet: nat)

  /** `leaked` counts the subscriptions a second start wrote over. */
  datatype State = State(
    accepting: bool, generation: nat, portQuiescent: bool,
    listener: bool, leaked: nat, initialized: bool, callbacks: set<nat>, deadline: Option<nat>,
    cleanup: map<CleanupStep, nat>, results: map<TaskRef, bool>, submitted: set<TaskRef>, late: set<TaskRef>,
    stopping: bool, stopped: bool, lock: Lock, requests: nat,
    exec: Executor, timers: Timers, seen: Seen, tally: Tally)

  const START := State(
    true, 0, false, false, 0, false, {}, None, map[], map[], {}, {}, false, false, Free, 0,
    Executor(false, false, [], Idle), Timers({}, {}, false),
    Seen(0, 0, 0, {}, multiset{}, {}, {}), Tally(false, false, false, 0, 0, 0, 0, 0, 0))

  datatype Event =
    // entry points and callback tasks, on the loop
    | StateChange(t: nat) | TimerFires(timer: nat, t: nat, runs: bool) | EnqueueTick(t: nat) | CallbackDone(t: nat)
    | SubmitLogical(generation: nat, call: Call) | DispatchOutput
    | InitBegin(raises: bool, unsubscribed: bool) | InitFails(unsubscribed: bool) | InitEnds
    | StopRequest
    // the worker thread
    | StartOp | RequestOutput | RuntimeReturns
    | CancelCurrent(ok: bool) | CheckAdmission(due: bool) | ArmTimer(timer: nat, ok: bool)
    | FiresEarly(t: nat) | ArmMissed(timer: nat) | StoreDeadline
    | DeadlineCancelEnds(ok: bool) | SweepOne(timer: nat) | SweepEnds(ok: bool)
    // supervised cleanup tasks
    | TaskSubmits(task: TaskRef) | CloseEnds(task: TaskRef, ok: bool) | TaskCancelled(task: TaskRef)
    | Recall(k: nat) | LateCallback(task: TaskRef)
    // the stop pass, which holds the lifecycle lock
    | PassBegin(unsubscribed: bool) | CallbacksSettle | BeginStep(id: nat) | Resolve | TimeOut
    | PassEnd | PassCancelled

  function Retire(s: State): State {
    if s.accepting then s.(accepting := false, generation := s.generation + 1) else s
  }

  /** What a sweep without a failure leaves. */
  predicate Swept(s: State) {
    s.timers.closed && s.timers.handles == {}
  }

  predicate Released(s: State) {
    Swept(s) && s.timers.lost == {}
  }

  predicate InPass(s: State) {
    !s.lock.Free? && !s.lock.Initializing?
  }

  function WithWorker(s: State, w: Worker): State {
    s.(exec := s.exec.(worker := w))
  }

  // ----- the loop

  function AddCallback(s: State, t: nat): State {
    s.(callbacks := s.callbacks + {t})
  }

  /** `_on_state_change` after startup. */
  function OnStateChange(s: State, t: nat): State {
    if (s.listener || s.leaked > 0) && s.accepting && !s.stopping then AddCallback(s, t) else s
  }

  /** A timer fires: it leaves the scheduler, and unless a cancel in progress kept its callback it reaches
      `submit_scheduled_callback`. */
  function OnTimer(s: State, timer: nat, t: nat, runs: bool): State {
    if timer !in s.timers.handles then s
    else s.(timers := s.timers.(handles := s.timers.handles - {timer}),
            callbacks := if s.accepting && runs then s.callbacks + {t} else s.callbacks)
  }

  /** `enqueue_tick`, on the loop again after the deadline callback ran on the worker. */
  function OnTick(s: State, t: nat): State {
    if s.accepting && !s.stopping then AddCallback(s, t) else s
  }

  function OnCallbackDone(s: State, t: nat): State {
    s.(callbacks := s.callbacks - {t})
  }

  /** A task that captured `generation` gets past the submission lock. */
  function Submit(s: State, generation: nat, call: Call): State {
    if s.exec.closing || generation > s.generation then s
    else s.(exec := s.exec.(queue := s.exec.queue + [Logical(generation, call)]))
  }

  /** The port's last check, on the loop, decides whether the service call begins. */
  function Dispatch(s: State): State {
    if !s.exec.worker.Requesting? then s
    else s.(exec := s.exec.(worker := InRuntime),
            seen := if s.portQuiescent then s.seen else s.seen.(calls := s.seen.calls + 1))
  }

  /** The start up to its first await. A subscription still held from a failed start is written over; when the
      new one raises, it is the one to be unsubscribed. */
  function InitBeginStep(s: State, raises: bool, unsubscribed: bool): State {
    if !s.lock.Free? || s.initialized || s.stopping || s.stopped then s
    else if raises then Retire(s.(listener := s.listener && !unsubscribed))
    else s.(listener := true, leaked := s.leaked + (if s.listener then 1 else 0), lock := Initializing)
  }

  function InitFailStep(s: State, unsubscribed: bool): State {
    if !s.lock.Initializing? then s
    else Retire(s.(listener := s.listener && !unsubscribed, lock := Free))
  }

  function InitEndStep(s: State): State {
    if !s.lock.Initializing? then s else s.(initialized := true, lock := Free)
  }

  /** The synchronous part of `async_stop`. */
  function RequestStop(s: State): State {
    Retire(s.(portQuiescent := true, requests := s.requests + 1))
  }

  // ----- the worker

  /** A finished task keeps its first result: a task already cancelled ignores its operation's end. */
  function Finish(s: State, task: TaskRef, failed: bool): State {
    if task in s.results then s else s.(results := s.results[task := failed])
  }

  function StartedLogical(s: State, generation: nat, call: Call): State {
    if !s.accepting || generation != s.generation then s
    else s.(exec := s.exec.(worker := if call.RuntimeCall? then InRuntime else Rescheduling(Cancelling)),
            seen := s.seen.(admitted := s.seen.admitted + 1))
  }

  function StartedCleanup(s: State, task: TaskRef): State {
    s.(exec := s.exec.(worker := Cleaning(task)),
       timers := s.timers.(closed := s.timers.closed || task.step.SchedulerCancelAll?))
  }

  function StartedOp(s: State, op: Op): State {
    if op.Logical? then StartedLogical(s, op.generation, op.call) else StartedCleanup(s, op.task)
  }

  function Popped(s: State): State
    requires s.exec.queue != []
  {
    s.(exec := s.exec.(queue := s.exec.queue[1..]))
  }

  /** The worker takes the next operation; admission is decided here. */
  function StartNext(s: State): State {
    if s.exec.worker != Idle || s.exec.queue == [] then s
    else StartedOp(Popped(s), s.exec.queue[0])
  }

  /** `request`: the port's first check, on the worker. */
  function Request(s: State): State {
    if s.exec.worker != InRuntime || s.portQuiescent then s else WithWorker(s, Requesting)
  }

  function ReturnFromRuntime(s: State): State {
    if s.exec.worker != InRuntime then s else WithWorker(s, Idle)
  }

  /** `_cancel_deadline` after its handle's cancel returned. */
  function DropDeadline(s: State): State {
    if s.deadline.None? then s
    else s.(timers := s.timers.(handles := s.timers.handles - {s.deadline.value}), deadline := None)
  }

  function CancelCurrentStep(s: State, ok: bool): State {
    if s.exec.worker != Rescheduling(Cancelling) then s
    else if ok || s.deadline.None? then WithWorker(DropDeadline(s), Rescheduling(Checking))
    else WithWorker(s, Idle)
  }

  function CheckStep(s: State, due: bool): State {
    if s.exec.worker != Rescheduling(Checking) then s
    else WithWorker(s, if s.accepting && due then Rescheduling(Arming) else Idle)
  }

  /** `schedule_at`: a closed scheduler cancels the new timer itself and still returns the handle. */
  function ArmStep(s: State, timer: nat, ok: bool): State {
    if s.exec.worker != Rescheduling(Arming) || (ok && timer in s.timers.handles + s.timers.lost) then s
    else if !ok then WithWorker(s, Idle)
    else s.(exec := s.exec.(worker := Rescheduling(Storing(timer))),
            timers := if s.timers.closed then s.timers else s.timers.(handles := s.timers.handles + {timer}),
            seen := s.seen.(armed := s.seen.armed + 1))
  }

  /** The new timer fires on the loop, and is discarded, before the worker registers its handle. */
  function FireEarly(s: State, t: nat): State {
    if s.exec.worker != Rescheduling(Arming) then s
    else s.(exec := s.exec.(worker := Rescheduling(Missed)),
            callbacks := if s.accepting then s.callbacks + {t} else s.callbacks)
  }

  /** `schedule_at` registers a handle that nothing discards any more. */
  function ArmMissedStep(s: State, timer: nat): State {
    if s.exec.worker != Rescheduling(Missed) || timer in s.timers.handles + s.timers.lost then s
    else s.(exec := s.exec.(worker := Rescheduling(Storing(timer))),
            timers := if s.timers.closed then s.timers else s.timers.(lost := s.timers.lost + {timer}),
            seen := s.seen.(armed := s.seen.armed + 1))
  }

  function StoreStep(s: State): State {
    if !(s.exec.worker.Rescheduling? && s.exec.worker.stage.Storing?) then s
    else s.(exec := s.exec.(worker := Idle), deadline := Some(s.exec.worker.stage.timer))
  }

  predicate InCleanup(s: State, step: CleanupStep) {
    s.exec.worker.Cleaning? && s.exec.worker.task.step == step
  }

  function DeadlineCancelEnd(s: State, ok: bool): State {
    if !InCleanup(s, DeadlineCancel) then s
    else if ok || s.deadline.None? then Finish(WithWorker(DropDeadline(s), Idle), s.exec.worker.task, false)
    else Finish(WithWorker(s, Idle), s.exec.worker.task, true)
  }

  function SweepOneStep(s: State, timer: nat): State {
    if !InCleanup(s, SchedulerCancelAll) then s else s.(timers := s.timers.(handles := s.timers.handles - {timer}))
  }

  function SweepEnd(s: State, ok: bool): State {
    if !InCleanup(s, SchedulerCancelAll) || (ok && s.timers.handles != {}) then s
    else Finish(WithWorker(s, Idle), s.exec.worker.task, !ok)
  }

  // ----- supervised cleanup tasks

  /** `_consume_cleanup_result`: only the cleanup task still owned for its step is popped, once. */
  function Consume(s: State, task: TaskRef): State {
    if task.step in s.cleanup && s.cleanup[task.step] == task.id && task in s.results
    then s.(cleanup := s.cleanup - {task.step},
            seen := s.seen.(consumed := s.seen.consumed + multiset{task}))
    else s
  }

  function ConsumeStep(s: State, step: CleanupStep): State {
    if step in s.cleanup then Consume(s, TaskRef(step, s.cleanup[step])) else s
  }

  function ConsumeFinished(s: State): State {
    ConsumeStep(ConsumeStep(ConsumeStep(s, DeadlineCancel), SchedulerCancelAll), ExecutorClose)
  }

  predicate Unsubmitted(s: State, task: TaskRef) {
    task in s.seen.issued && task !in s.results && task !in s.submitted
  }

  /** The task's coroutine runs: it queues its operation, or begins `async_close`. */
  function SubmitTask(s: State, task: TaskRef): State {
    if !Unsubmitted(s, task) then s
    else if task.step.ExecutorClose? then
      if s.exec.closed then Finish(s, task, false)
      else s.(exec := s.exec.(closing := true), submitted := s.submitted + {task})
    else if s.exec.closing then Finish(s, task, true)
    else s.(exec := s.exec.(queue := s.exec.queue + [CleanupOp(task)]), submitted := s.submitted + {task})
  }

  /** Shutdown waits for the whole queue; only then is the executor closed. */
  function CloseEnd(s: State, task: TaskRef, ok: bool): State {
    if !(task.step.ExecutorClose? && task in s.submitted && task !in s.results) then s
    else if !ok then Finish(s, task, true)
    else if s.exec.queue != [] || s.exec.worker != Idle then s
    else Finish(s.(exec := s.exec.(closed := true)), task, false)
  }

  /** Cancelling the awaiting task ends it with an error; an operation the worker is inside goes on. */
  function CancelTask(s: State, task: TaskRef): State {
    if task !in s.seen.issued || task in s.results then s
    else Finish(s.(seen := s.seen.(cancelled := s.seen.cancelled + {task})), task, true)
  }

  function Without<T>(q: seq<T>, k: nat): seq<T>
    requires k < |q|
  {
    q[..k] + q[k + 1..]
  }

  /** An operation still queued is dropped when the task that awaits it has been cancelled: a logical
      operation's caller at any time, a cleanup task as recorded. */
  function RecallStep(s: State, k: nat): State {
    if k >= |s.exec.queue| || (s.exec.queue[k].CleanupOp? && s.exec.queue[k].task !in s.seen.cancelled) then s
    else s.(exec := s.exec.(queue := Without(s.exec.queue, k)))
  }

  function LateConsume(s: State, task: TaskRef): State {
    if task in s.late && task in s.results then Consume(s.(late := s.late - {task}), task) else s
  }

  // ----- the stop pass

  function Fail(s: State): State {
    s.(tally := s.tally.(troubled := true, failures := s.tally.failures + 1))
  }

  function FailIf(s: State, failed: bool): State {
    if failed then Fail(s) else s
  }

  function Next(step: CleanupStep): Lock {
    match step
    case DeadlineCancel => At(SchedulerCancelAll)
    case SchedulerCancelAll => At(ExecutorClose)
    case ExecutorClose => AtEnd
  }

  /** Whether the pass has something to do at this step. */
  predicate Needed(s: State, step: CleanupStep) {
    match step
    case DeadlineCancel => s.deadline.Some?
    case SchedulerCancelAll => !Released(s)
    case ExecutorClose =>
      && s.callbacks == {} && s.deadline.None? && Released(s)
      && DeadlineCancel !in s.cleanup && SchedulerCancelAll !in s.cleanup && !s.exec.closed
  }

  function Issue(s: State, task: TaskRef): State {
    s.(cleanup := s.cleanup[task.step := task.id], lock := Await(task),
       seen := s.seen.(issued := s.seen.issued + {task}))
  }

  /** `_async_supervise_cleanup` up to its wait: the step's task is reused or created. */
  function Supervise(s: State, step: CleanupStep, id: nat): State {
    if step in s.cleanup then s.(lock := Await(TaskRef(step, s.cleanup[step])))
    else if TaskRef(step, id) in s.seen.issued then s
    else Issue(s, TaskRef(step, id))
  }

  predicate AllReleased(s: State) {
    && !s.listener && s.deadline.None? && Released(s) && s.callbacks == {} && s.cleanup == map[] && s.exec.closed
  }

  /** The bookkeeping of a pass that ends without having stopped the host. */
  function CountUnstopped(s: State): State {
    var behind := !s.tally.troubled && s.tally.leftover;
    var alone := !s.tally.troubled && !s.tally.leftover;
    s.(tally := s.tally.(
         unstopped := s.tally.unstopped + 1,
         busy := s.tally.busy + (if behind && s.cleanup != map[] then 1 else 0),
         drained := s.tally.drained + (if behind && s.cleanup == map[] then 1 else 0),
         blocked := s.tally.blocked + (if alone && s.timers.lost != {} then 1 else 0),
         quiet := s.tally.quiet + (if alone && s.timers.lost == {} then 1 else 0)))
  }

  /** The pass after it consumed what had finished: note its start, unsubscribe, cancel the callbacks. */
  function EnterPass(r: State, unsubscribed: bool): State {
    var failed := r.listener && !unsubscribed;
    r.(tally := r.tally.(troubled := failed, failures := r.tally.failures + (if failed then 1 else 0),
                         leftover := r.cleanup != map[], racing := r.exec.worker.Rescheduling?),
       lock := AwaitCallbacks(r.callbacks), listener := failed)
  }

  function BeginPass(s: State, unsubscribed: bool): State
    requires s.requests > 0
  {
    EnterPass(ConsumeFinished(Retire(s.(stopping := true, requests := s.requests - 1))), unsubscribed)
  }

  function PassBeginStep(s: State, unsubscribed: bool): State {
    if !s.lock.Free? || s.requests == 0 then s
    else if s.stopped then s.(requests := s.requests - 1)
    else BeginPass(s, unsubscribed)
  }

  /** The bounded wait for the cancelled callback tasks is over; a task still running counts as a timeout. */
  function SettleStep(s: State): State {
    if !s.lock.AwaitCallbacks? then s
    else FailIf(s, s.callbacks * s.lock.cancelled != {}).(lock := At(DeadlineCancel))
  }

  function BeginCleanup(s: State, id: nat): State {
    if !s.lock.At? then s
    else if !Needed(s, s.lock.step) then s.(lock := Next(s.lock.step))
    else if s.exec.closed then Fail(s).(lock := Next(s.lock.step))
    else Supervise(s, s.lock.step, id)
  }

  function ResolveStep(s: State): State {
    if !s.lock.Await? || s.lock.task !in s.results then s
    else FailIf(Consume(s, s.lock.task), s.results[s.lock.task]).(lock := Next(s.lock.task.step))
  }

  function TimeOutStep(s: State): State {
    if !s.lock.Await? || s.lock.task in s.results then s
    else Fail(s).(late := s.late + {s.lock.task}, lock := Next(s.lock.task.step))
  }

  function Concluded(r: State): State {
    if AllReleased(r) then r.(stopped := true) else CountUnstopped(r)
  }

  function PassEndStep(s: State): State {
    if !s.lock.AtEnd? then s
    else Concluded(ConsumeFinished(s).(stopping := false, lock := Free))
  }

  function PassCancelStep(s: State): State {
    if !InPass(s) then s
    else CountUnstopped(Fail(s)).(
           lock := Free,
           seen := if s.lock.Await? then s.seen.(abandoned := s.seen.abandoned + {s.lock.task}) else s.seen)
  }

  // ----- events by who makes them

  predicate EntryEvent(e: Event) {
    e.StateChange? || e.TimerFires? || e.EnqueueTick? || e.CallbackDone?
  }

  function EntryStep(s: State, e: Event): State
    requires EntryEvent(e)
  {
    match e
    case StateChange(t) => OnStateChange(s, t)
    case TimerFires(timer, t, runs) => OnTimer(s, timer, t, runs)
    case EnqueueTick(t) => OnTick(s, t)
    case CallbackDone(t) => OnCallbackDone(s, t)
  }

  predicate SubmissionEvent(e: Event) {
    e.SubmitLogical? || e.DispatchOutput? || e.StopRequest?
  }

  function SubmissionStep(s: State, e: Event): State
    requires SubmissionEvent(e)
  {
    match e
    case SubmitLogical(generation, call) => Submit(s, generation, call)
    case DispatchOutput => Dispatch(s)
    case StopRequest => RequestStop(s)
  }

  predicate StartupEvent(e: Event) {
    e.InitBegin? || e.InitFails? || e.InitEnds?
  }

  function StartupStep(s: State, e: Event): State
    requires StartupEvent(e)
  {
    match e
    case InitBegin(raises, unsubscribed) => InitBeginStep(s, raises, unsubscribed)
    case InitFails(unsubscribed) => InitFailStep(s, unsubscribed)
    case InitEnds => InitEndStep(s)
  }

  predicate RuntimeEvent(e: Event) {
    e.StartOp? || e.RequestOutput? || e.RuntimeReturns?
  }

  function RuntimeStep(s: State, e: Event): State
    requires RuntimeEvent(e)
  {
    match e
    case StartOp => StartNext(s)
    case RequestOutput => Request(s)
    case RuntimeReturns => ReturnFromRuntime(s)
  }

  predicate RescheduleEvent(e: Event) {
    e.CancelCurrent? || e.CheckAdmission? || e.ArmTimer? || e.FiresEarly? || e.ArmMissed? || e.StoreDeadline?
  }

  function RescheduleStep(s: State, e: Event): State
    requires RescheduleEvent(e)
  {
    match e
    case CancelCurrent(ok) => CancelCurrentStep(s, ok)
    case CheckAdmission(due) => CheckStep(s, due)
    case ArmTimer(timer, ok) => ArmStep(s, timer, ok)
    case FiresEarly(t) => FireEarly(s, t)
    case ArmMissed(timer) => ArmMissedStep(s, timer)
    case StoreDeadline => StoreStep(s)
  }

  predicate CleanupOpEvent(e: Event) {
    e.DeadlineCancelEnds? || e.SweepOne? || e.SweepEnds?
  }

  function CleanupOpStep(s: State, e: Event): State
    requires CleanupOpEvent(e)
  {
    match e
    case DeadlineCancelEnds(ok) => DeadlineCancelEnd(s, ok)
    case SweepOne(timer) => SweepOneStep(s, timer)
    case SweepEnds(ok) => SweepEnd(s, ok)
  }

  predicate TaskEvent(e: Event) {
    e.TaskSubmits? || e.CloseEnds? || e.TaskCancelled? || e.Recall?
  }

  function TaskStep(s: State, e: Event): State
    requires TaskEvent(e)
  {
    match e
    case TaskSubmits(task) => SubmitTask(s, task)
    case CloseEnds(task, ok) => CloseEnd(s, task, ok)
    case TaskCancelled(task) => CancelTask(s, task)
    case Recall(k) => RecallStep(s, k)
  }

  predicate PassStartEvent(e: Event) {
    e.PassBegin? || e.CallbacksSettle? || e.BeginStep?
  }

  function PassStartStep(s: State, e: Event): State
    requires PassStartEvent(e)
  {
    match e
    case PassBegin(unsubscribed) => PassBeginStep(s, unsubscribed)
    case CallbacksSettle => SettleStep(s)
    case BeginStep(id) => BeginCleanup(s, id)
  }

  predicate PassExitEvent(e: Event) {
    e.TimeOut? || e.PassCancelled?
  }

  function PassExitStep(s: State, e: Event): State
    requires PassExitEvent(e)
  {
    match e
    case TimeOut => TimeOutStep(s)
    case PassCancelled => PassCancelStep(s)
  }

  function Apply(s: State, e: Event): State {
    if EntryEvent(e) then EntryStep(s, e)
    else if SubmissionEvent(e) then SubmissionStep(s, e)
    else if StartupEvent(e) then StartupStep(s, e)
    else if RuntimeEvent(e) then RuntimeStep(s, e)
    else if RescheduleEvent(e) then RescheduleStep(s, e)
    else if CleanupOpEvent(e) then CleanupOpStep(s, e)
    else if TaskEvent(e) then TaskStep(s, e)
    else if PassStartEvent(e) then PassStartStep(s, e)
    else if PassExitEvent(e) then PassExitStep(s, e)
    else if e.LateCallback? then LateConsume(s, e.task)
    else if e.Resolve? then ResolveStep(s)
    else PassEndStep(s)
  }

  function Run(s: State, events: seq<Event>): State
    decreases |events|
  {
    if events == [] then s else Run(Apply(s, events[0]), events[1..])
  }
}
