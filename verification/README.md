# Controlel's Home Assistant adapter, verified in Dafny

This project models the concurrent and transactional parts of the Controlel integration and proves what they
keep over every run. Each module follows one part of the integration:

| file | what it models |
|---|---|
| `Scheduler.dfy` | the one-shot timer handle, lock block by lock block, and the scheduler object |
| `SchedulerRuns.dfy` | scheduling, cancelling, sweeping and firing as one transition system over worker and event loop |
| `SchedulerProgress.dfy` | what that system gets done: a timer's whole life, and that a sweep can succeed |
| `WaterHost.dfy` | the Water Safety host with its executor, timers, output port and retryable stop passes, as a transition system |
| `WaterHostInvariant.dfy` | what admission, ownership, cleanup results and the executor close guarantee each other, step by step |
| `WaterHostPasses.dfy` | what a stop pass has achieved by each of its stages, step by step |
| `WaterHostProofs.dfy` | what every interleaving of that system keeps, and what follows for its stop |
| `WaterHostOperations.dfy` | the cleanup tasks, their operations on the way through the executor and their late ends |
| `WaterHostProgress.dfy` | what the host gets done: what begins, in which order, and calls and reschedules carried through |
| `WaterHostStop.dfy` | from which states the host can still be stopped |
| `WaterHostCleanup.dfy` | the cleanup tasks from their creation to their consumption |
| `WaterHostTally.dfy` | the bookkeeping of the stop passes, from the events alone |
| `WaterHostObject.dfy` | the same host as an object: its blocks, its runs and its whole stop pass |
| `WaterStartup.dfy` | the host's startup buffer and its switch to live dispatch |
| `Lifecycle.dfy` | the owner of a config entry's Water Safety hosts |
| `ActivationCore.dfy` | the durable store and the coordinator's contract, shared by both activations |
| `ActivationRuns.dfy` | the coordinator over whole runs of any operations |
| `HeatingActivation.dfy` | activation of a Heating revision by hand-over, commit and rollback, and recovery after a crash |
| `WaterActivation.dfy` | the same for Water Safety, over a running host |
| `Operational.dfy` | the operational snapshot source: derived fields, bounded trace, subscribers |
| `Observability.dfy` | the observability controller and its one refresh interval |
| `HeatingQueue.dfy` | the Heating host's temperature queue and its drain task |
| `SourceEvidence.dfy` | the fold that produces reported-source evidence |
| `ValveRoles.dfy` | role assignment for shutoff valves (and sirens) and the draft commit |
| `LegacyConversion.dfy` | conversion of a legacy configuration and compilation back |
| `Wrappers.dfy` | an optional value |

## How to read the models

A transition system has a `State`, an `Event` for every step any party can take, a total `Apply` (a step that is
not possible leaves the state alone) and `Run` over a sequence of events. A theorem about `Run(START, events)` for
every `events` is a theorem about every interleaving. Code between two awaits of the event loop is one step, and so
is a block under a lock; where the code passes a point without yielding, the model may still interleave there, so
it admits more runs than the code has. Failures (a cancel, an unsubscribe, a reload, a write that raises,
a wait that times out, a task that is cancelled) are parameters of events or methods. Fields named `seen`, `tally`,
`taken`, `offered`, `history` or `arrivals` only observe a run; what they record is proved to be what the events tell
(`BegunIsCounted`, `TallyIsTold`, `NotedExactly`, `HistoryIsTold`, `OffersAreTold`, `ArrivalsAreTold`).

Where the code updates an object, a class has the object's fields and one method per block, with a contract that
equates its new state with the step of the transition system; loops of the code are loops. Methods that wait take what
the environment does meanwhile as a parameter and promise that the whole is a run of the system.

Assumptions:

- Home Assistant and asyncio: callbacks and ready tasks run first in, first out; one worker thread runs operations first
  in, first out, one at a time.
- The coordinator and its repository (`src/controlel`) enter through their contract: the compare-and-swap makes
  exactly the replacement active or changes nothing, each write is carried out or not, and either may raise.
- Activation runs under its lock, its task is not cancelled, and nobody else unloads the entry meanwhile.
- The truncated digest of a target is injective, and so is canonical JSON.
- The controller's interval subscription and its unsubscribe callback do not raise.

## Where a plain statement would be false

Each has a lemma that shows the failing case and one that says when the claim holds.

- A swept scheduler need not become `released`: a timer that fires and is discarded between the construction and the
  registration of its handle leaves a finished handle behind (`WindowFiringLosesAHandle`); it is released if and only
  if no handle was lost so (`SweptIsReleasedIff`, `LostExactlyInTheWindow`).
- A swept scheduler is silent only as far as it was swept: what is scheduled later can fire (`SweepSilencesTimers`,
  `StaysSweptUntilScheduled`).
- A stop pass in which nothing fails can end without having stopped the host: an operation of an earlier pass is
  enough (`LeftoverPassEndsUnstopped`), and so is a timer lost in its registration, which no later pass mends
  (`LostTimerIsReached`, `LostTimerNeverStops`); without one a later pass always can (`StoppableExactlyUnlessLost`). The
  causes are complete (`UnstoppedPassHasACause`) and the number of such passes is bounded
  (`UnstoppedPassesAreBounded`).
- A stopped host can have a subscription left that a second start wrote over (`LeakIsReached`,
  `LeakedExactlyByStartingAgain`); it delivers nothing (`LeakedIsSilent`).
- A cleanup step can have two operations in flight: cancelling its task recalls an operation only while it is queued
  (`CancellationDoublesAnOperation`, `DoubledOperationIsReached`, `RecalledNeverRuns`). Of operations whose task was
  not cancelled there is at most one (`OneOperationPerStep`).
- A failed Water Safety activation whose evidence is written need not be over: under another scope's authority it stays
  unfinished and keeps its own scope busy (`ForeignAuthorityLeavesItUnfinished`), exactly if that authority runs again
  and the attempt did not commit (`WaterActivation.Entry.RollBack`).
- "Authority running" does not mean accepting (`RunningIgnoresAdmission`,
  `IncompletelyStoppedAuthorityCountsAsRunning`).
- A Water Safety attempt that committed can be claimed rolled back (`ReactivationIsClaimedRolledBack`), exactly if it
  activated its previous revision again (`RollbackClaimsAreTrue`); it is recovered as committed all the same.
- Debug need not expire by itself (`LateUpdateStrandsDebug`): past the deadline some tick leaves it exactly while a
  countdown is active in the snapshot handled last (`DebugEndsExactlyWhileCountingDown`, `LiveTickExpiresDebug`), and a
  later update can bring that about again (`LaterUpdateRevivesTheInterval`).
- The numbers of trace records need not increase: an update that raises leaves its record behind
  (`RaisingUpdateRepeatsANumber`); they do exactly if no record follows such a one before an update has succeeded
  (`NumbersIncreaseExactlyWhenApart`).
- The Heating queue can stand still although states are queued (`RaisingDrainStalls`): exactly after a drain task raised
  with states still queued, until the next accepted arrival (`StalledExactlyAfterARaise`).
- The initial snapshot is not always what recomputing gives (`InitialIsRecomputedIff`).
- Reported-source evidence can carry an older run's transition if updates without a usable time hide a break
  (`UnusableTimesHideABrokenRun`); the transition is the current run's own exactly when the mapping saw that run begin
  or reports none (`TransitionIsTheRunsOwnIff`). A startup snapshot overwrites newer events (`IngestStartup`). Evidence
  describes the last usable state unless that was updated before the transition it inherits
  (`TransitionIsTheSeenEntry`).
- A kept target keeps its role from safe roles and only from those (`SafeRolesAreKept`, `UnsafeRolesCanBeLost`);
  every repository reached from the empty one is safe (`SavesStayWellFormed`).

`ClosedSourceLosesTheInterval` is no such case: it explains an order the host keeps. On a closed source a Debug expiry
would lose an interval that is still wanted, and the host stops the controller before it closes the source.

## Model

| member | source | states |
|---|---|---|
| `TimerHandle.ClaimedAndReportedOnce` | custom_components/controlel/scheduler.py:43-74 | Over all interleavings of cancels, failing cancels, firings and pending finish reports: one callback at most, never together with a cancel that ended the handle, at most one cancel past its first block, and a finished handle whose reports are delivered was reported exactly once |
| `TimerHandle.FiringRunsCallbackIff` | custom_components/controlel/scheduler.py:65-74 | In every reachable state a firing hands out the callback exactly when no cancel is in progress and the handle has not finished |
| `TimerHandle.HandleGoesOn` | custom_components/controlel/scheduler.py:43-74 | In every reachable state a handle is finished by the first firing or by the end of a cancel, whichever comes first, and by nothing else; a cancel lasts exactly from an entry that finds the handle unfinished and no other cancel there to its own end or raise; each report that is due is made once |
| `TimerHandle.RefusedFiringIsLost` | custom_components/controlel/scheduler.py:43-74 | A firing refused because of a cancel in progress never gets its callback, even if that cancel then fails |
| `TimerHandle.ScheduledTaskHandle.BeginCancelBlock` | custom_components/controlel/scheduler.py:44-47 | First lock block of `cancel`: only one caller goes on; an early return leaves the flags alone |
| `TimerHandle.ScheduledTaskHandle.FailCancelBlock` | custom_components/controlel/scheduler.py:54-57 | Lock block of a failed cancel: the handle is cancellable again |
| `TimerHandle.ScheduledTaskHandle.CommitCancelBlock` | custom_components/controlel/scheduler.py:58-63 | Last lock block of `cancel`: it reports finished only if a firing did not get there first |
| `TimerHandle.ScheduledTaskHandle.ClaimCallback` | custom_components/controlel/scheduler.py:65-74 | A live handle is claimed once; the callback runs only if no cancel was in progress |
| `TimerHandle.ScheduledTaskHandle.Cancel` | custom_components/controlel/scheduler.py:43-63 | One whole cancel with firings during its bridged call: when it raises, when the handle ends up finished, how often that is reported, and that no such firing runs its callback |
| `TimerHandle.HomeAssistantScheduler.Register` | custom_components/controlel/scheduler.py:126-129 | Registration adds the handle unless the scheduler is closed |
| `TimerHandle.HomeAssistantScheduler.CancelTracked` | custom_components/controlel/scheduler.py:141-152 | One handle of the sweep: whether it raises, whether it is finished, and that it is discarded exactly when this call finished it |
| `TimerHandle.HomeAssistantScheduler.CancelAll` | custom_components/controlel/scheduler.py:134-152 | Closes the scheduler and cancels every tracked handle: fails exactly if a live handle raised, and what stays tracked is exactly what had finished before or raised without firing |
| `SchedulerRuns.UnfinishedTimersAreTracked` | custom_components/controlel/scheduler.py:100-132 | In every interleaving, an unfinished timer whose `schedule_at` returned is in the scheduler's set |
| `SchedulerRuns.SweepSilencesTimers` | custom_components/controlel/scheduler.py:134-152 | After a `cancel_all` that succeeded, whatever is scheduled, fired or cancelled later, no timer whose `schedule_at` had returned ever delivers a callback again; callbacks come only from timers scheduled since or whose `schedule_at` had raised on the closed scheduler |
| `SchedulerRuns.StaysSweptUntilScheduled` | custom_components/controlel/scheduler.py:134-152 | Until something is scheduled again the scheduler stays swept and no timer joins those whose `schedule_at` had raised |
| `SchedulerRuns.DeliveredExactlyWhenFree` | custom_components/controlel/scheduler.py:65-74 | A callback is handed out exactly by the firing of an armed timer whose handle is built, unfinished and not held by a cancel in progress |
| `SchedulerRuns.SweptIsReleasedIff` | custom_components/controlel/scheduler.py:93-98 | Once claims in progress have finished, the swept scheduler reports itself released if and only if no handle was lost between construction and registration |
| `SchedulerRuns.LostHandleBlocksRelease` | custom_components/controlel/scheduler.py:93-98 | A lost handle is never discarded, so no run releases the scheduler |
| `SchedulerRuns.LostExactlyInTheWindow` | custom_components/controlel/scheduler.py:121-129 | A handle is lost exactly by a registration that finds it finished with its discard already made |
| `SchedulerRuns.WindowFiringLosesAHandle` | custom_components/controlel/scheduler.py:121-129 | A run from the start loses a handle: install, build, fire, discard, register |
| `SchedulerProgress.ScheduledTimerFires` | custom_components/controlel/scheduler.py:100-132 | From every reachable state a timer that is scheduled on the open scheduler and left alone is tracked until it fires; then its callback has been handed out and it is gone |
| `SchedulerProgress.CancelledTimerIsGone` | custom_components/controlel/scheduler.py:43-63 | From every reachable state a timer that is scheduled and then cancelled before it fires is disarmed and gone without a callback; a closed scheduler does that itself and still returns |
| `SchedulerProgress.FailedCancelCanBeRepeated` | custom_components/controlel/scheduler.py:43-63 | A cancel whose bridged call raises leaves the timer as it was, tracked and cancellable again, except that Home Assistant may have disarmed it |
| `SchedulerProgress.FiringDisarms` | custom_components/controlel/scheduler.py:100-120 | A timer fires once, whether or not its handle is there yet |
| `SchedulerProgress.CancelsOnlyItsOwn` | custom_components/controlel/scheduler.py:134-152 | Only a timer that was returned is cancelled on its own, and a sweep takes only the handles it set out with |
| `SchedulerProgress.SweepCanSucceed` | custom_components/controlel/scheduler.py:134-152 | From every reachable state, whatever is under way and whatever has failed before, a `cancel_all` can succeed |
| `SchedulerProgress.NotedExactly` | custom_components/controlel/scheduler.py:100-152 | What a run notes is what happened: a sweep as succeeded exactly by the end of a `cancel_all` none of whose cancels raised, until the next timer is scheduled; `schedule_at` as raised or returned exactly when it did |
| `WaterHostProofs.RunKeepsInv` | custom_components/controlel/water_safety_host.py:188-391 | Every run of the loop, the worker, the cleanup tasks and the stop passes, recalled operations and timers lost in their registration included, keeps what admission, ownership, cleanup results and the executor close guarantee each other, and what a pass has achieved by each of its stages |
| `WaterHostProofs.StoppedForGood` | custom_components/controlel/water_safety_host.py:303-312 | In every interleaving a stopped host has released listener, deadline, timers, callback and cleanup tasks and executor, and no later step of any thread takes any of them back |
| `WaterHostProofs.ClosingStrandsNothing` | custom_components/controlel/water_safety_host.py:286-299 | The executor never starts closing while a deadline, timer, callback, cleanup task or running reschedule could still need it |
| `WaterHostProofs.UnstoppedPassHasACause` | custom_components/controlel/water_safety_host.py:214-316 | A pass that ends unstopped had a failed or timed-out step, began behind an operation of an earlier pass, began while a reschedule was already running, or found a timer lost in its registration |
| `WaterHostProofs.LeftoverPassEndsUnstopped` | custom_components/controlel/water_safety_host.py:286-312 | The second cause alone suffices: in a run from the start, a second pass in which nothing fails, times out, races or is lost ends unstopped behind the first pass's sweep, which the worker is still inside |
| `WaterHostProofs.FirstPassLeavesItsSweep` | custom_components/controlel/water_safety_host.py:342-355 | The first pass of that run, from the start: its supervised `cancel_all` times out and stays supervised |
| `WaterHostProofs.UnstoppedPassesAreBounded` | custom_components/controlel/water_safety_host.py:214-316 | Over a whole run at most twice as many passes end unstopped as steps failed or timed out, plus one for the racing reschedule, plus those that ended with an earlier pass's operation still in flight, plus those that only a lost timer kept from stopping |
| `WaterHostTally.UnstoppedPassesAreFew` | custom_components/controlel/water_safety_host.py:214-316 | The same bound on the events of the run themselves |
| `WaterHostTally.TallyIsTold` | custom_components/controlel/water_safety_host.py:214-316 | Over any run the counts of failed steps and of passes that ended unstopped, busy or blocked, and what is noted of the last pass, are what the events tell |
| `WaterHostProofs.LostTimerNeverStops` | custom_components/controlel/water_safety_host.py:303-312 | Once a timer is lost in its registration no run stops the host, however often it is asked to and whatever succeeds |
| `WaterHostProofs.LostTimerIsReached` | custom_components/controlel/scheduler.py:100-132 | Such a run from the start: the reschedule's new timer fires, and is discarded, before its handle is registered |
| `WaterHostProofs.LeakedExactlyByStartingAgain` | custom_components/controlel/water_safety_host.py:148-173 | A subscription is leaked exactly by a start that subscribes over one a failed start could not get rid of |
| `WaterHostProofs.LeakIsReached` | custom_components/controlel/water_safety_host.py:148-185 | Such a run from the start: a start that fails and cannot unsubscribe, then another one |
| `WaterHostProofs.LeakedIsSilent` | custom_components/controlel/water_safety_host.py:489-494 | In every run a leaked subscription delivers nothing: admission was retired before |
| `WaterHostProofs.CleanupConsumedExactlyOnce` | custom_components/controlel/water_safety_host.py:323-391 | Every cleanup task is still the supervised one of its step or was consumed exactly once, however late; at most one task per step is unresolved |
| `WaterHostProofs.NothingBeginsAfterStopRequest` | custom_components/controlel/water_safety_output.py:111-127 | From a stop request on, in every interleaving, no service call begins and no logical operation is admitted, whatever was admitted, queued or bridged; at most one timer is armed, by a reschedule already past its admission check |
| `WaterHostProofs.PortStaysClosed` | custom_components/controlel/water_safety_output.py:111-114 | A stop request closes the output port for good: no later run opens it |
| `WaterHostProofs.ArmedTimerIsTracked` | custom_components/controlel/water_safety_host.py:573-580 | A timer armed on an open scheduler is tracked, and storing its handle makes it the current deadline |
| `WaterHostProofs.FailedStartRetires` | custom_components/controlel/water_safety_host.py:174-185 | A start that fails retires admission |
| `WaterHostProofs.StoppedStays` | custom_components/controlel/water_safety_host.py:188-316 | No step unstops a host |
| `WaterHostStop.StoppableExactlyUnlessLost` | custom_components/controlel/water_safety_host.py:188-391 | Whatever has happened to it in a run, a host can still be stopped exactly if no timer is lost and none has fired before its registration: no failure, timeout, cancelled pass or task, and nothing left in flight, ever makes its stop impossible |
| `WaterHostProgress.SubmittedCallGoesOut` | custom_components/controlel/water_safety_output.py:116-206 | From every reachable state of an accepting host with an idle worker, a submitted runtime call goes through the runtime's request to the service call on the loop and leaves nothing else behind |
| `WaterHostProgress.FirstCallGoesOut` | custom_components/controlel/water_safety_output.py:180-206 | A run from the start that makes its one service call |
| `WaterHostProgress.NoRequestAfterStop` | custom_components/controlel/water_safety_output.py:116-206 | Whatever happens after a stop request, a request of the runtime is refused on the spot, and one that waited for the loop returns without a service call |
| `WaterHostProgress.BegunIsCounted` | custom_components/controlel/water_safety_output.py:180-206 | Over any run a service call has begun for exactly every dispatch that found the worker requesting and the port open, an operation was admitted for exactly every start that found a current one first in line on an accepting host, and a timer armed for exactly every arming that went through |
| `WaterHostProgress.QueueIsTheLine` | custom_components/controlel/runtime_executor.py:32-47 | In every interleaving what waits in the executor is exactly what was submitted in time and not recalled, in that order, behind what the worker has taken |
| `WaterHostProgress.OldestIsEntered` | custom_components/controlel/water_safety_host.py:553-566 | The idle worker goes into the oldest operation: a cleanup operation in any case, a logical one only if the host accepts and has not moved on to another generation |
| `WaterHostProgress.RescheduleReplacesTheDeadline` | custom_components/controlel/water_safety_host.py:573-588 | From every reachable state of an accepting host with an idle worker, a submitted reschedule cancels the timer there was, and tracks and stores the new one or leaves none; when the new timer fires its callback task is there |
| `WaterHostProgress.CallbacksAreOutstanding` | custom_components/controlel/water_safety_host.py:479-507 | Over any run the callback tasks are exactly those created and not over: by a state change to a subscribed host that accepts and is not stopping, by a tracked timer whose callback runs, by the tick after it, or by a timer that fired before its registration |
| `WaterHostProgress.StartTakesItsTurn` | custom_components/controlel/water_safety_host.py:147-186 | A start that finds its turn subscribes and, unless it fails, leaves the host initialized; one that fails keeps the subscription exactly if it cannot unsubscribe, and retires admission |
| `WaterHostProgress.RetiredOnce` | custom_components/controlel/water_safety_host.py:568-571 | In every run the generation tells whether admission was retired, and it is retired once |
| `WaterHostOperations.OneOperationPerStep` | custom_components/controlel/water_safety_host.py:330-391 | In every interleaving, recalled operations included, each cleanup operation is in the executor at most once, and of one step at most one whose task was not cancelled is in flight |
| `WaterHostOperations.NoTaskIsForgotten` | custom_components/controlel/water_safety_host.py:342-355 | In every interleaving each supervised cleanup task is awaited by the pass in progress or has the callback that consumes its late end, unless a pass was cancelled while awaiting it |
| `WaterHostOperations.CancellationDoublesAnOperation` | custom_components/controlel/runtime_executor.py:40-47 | Cancelling a cleanup task leaves an operation the worker is inside with the worker: if the step is needed again, a second operation of it joins the first |
| `WaterHostOperations.DoubledOperationIsReached` | custom_components/controlel/runtime_executor.py:40-47 | A run from the start gets there: a pass and its deadline cancellation are cancelled, the next pass cancels the deadline again |
| `WaterHostOperations.RecalledNeverRuns` | custom_components/controlel/runtime_executor.py:40-47 | A cancelled task's operation that was still queued and is recalled never reaches the worker, in no later run |
| `WaterHostOperations.CancelledTaskIsConsumed` | custom_components/controlel/water_safety_host.py:370-391 | A pass that awaits a cancelled task goes on and has consumed it while the worker is still inside its operation |
| `WaterHostCleanup.ResultsAreTold` | custom_components/controlel/water_safety_host.py:358-391 | Over any run a cleanup task has a result exactly once a step has ended it, and it is that step's: its operation's end, a refused submission, the end of the executor's shutdown, or its own cancellation, whichever came first |
| `WaterHostCleanup.PassTakesOver` | custom_components/controlel/water_safety_host.py:214-256 | A pass that gets the lock answers one stop request; unless the host has stopped it retires admission, unsubscribes, consumes exactly the tasks that have ended and waits for the callbacks there are |
| `WaterHostCleanup.EveryNeededStepIsSupervised` | custom_components/controlel/water_safety_host.py:330-357 | In every reachable state the pass goes past a step it does not need, and at one it needs supervises the task an earlier pass has left, or else the new one |
| `WaterHostCleanup.LateTaskIsConsumed` | custom_components/controlel/water_safety_host.py:342-391 | In every reachable state the callback of a task that ended late consumes it, unless a pass was faster, and lets go of it; cancelling a task that has ended changes nothing |
| `WaterHostObject.OutputPort.Quiesce` | custom_components/controlel/water_safety_output.py:111-114 | The output port reads closed when the call returns |
| `WaterHostObject.RuntimeExecutor.Enqueue` | custom_components/controlel/runtime_executor.py:40-47 | A submission past the lock is refused when closing, otherwise last in line |
| `WaterHostObject.Host.AsyncStop` | custom_components/controlel/water_safety_host.py:188-195 | The synchronous part of a stop request closes port and admission before anything can yield |
| `WaterHostObject.Host.AsyncStopOwnedResources` | custom_components/controlel/water_safety_host.py:214-316 | The whole stop pass over the object's fields, whatever runs during its waits and wherever it is cancelled, is one run of the system: uncancelled it stops the host exactly when everything is released and fails to only for the four causes, and a stopped host has nothing left |
| `WaterHostObject.Host.RunStep` | custom_components/controlel/water_safety_host.py:330-356 | One supervised step: skipped, failed on a closed executor, or its task reused or created and awaited, then consumed or left supervised with a late callback; the pass goes on to the next step unless it is cancelled |
| `WaterHostObject.Host.Interleave` | custom_components/controlel/water_safety_host.py:479-608 | Any run of the entry points, the worker, the cleanup tasks and late callbacks on the object is that run of the system |
| `WaterHostObject.Host.ConsumeFinishedCleanupTasks` | custom_components/controlel/water_safety_host.py:323-328 | The loop over a copy of the dictionary, in any order, consumes exactly the finished tasks |
| `WaterHostObject.ConsumeAhead` | custom_components/controlel/water_safety_host.py:323-328 | Consuming one finished task early does not change what consuming all leaves |
| `WaterStartup.EveryMappableEventOnceInOrder` | custom_components/controlel/water_safety_host.py:147-186 | In every interleaving the runtime has seen a prefix of the start followed by every mappable arrival in order; while accepting, the rest is exactly the backlog, across the switch to live dispatch |
| `WaterStartup.ArrivalsAreTold` | custom_components/controlel/water_safety_host.py:489-507 | What the runtime is owed is told by the events: the start on the snapshot of the subscription that took effect, unless that is of another entity, then every mappable event since |
| `WaterStartup.EverythingCanBeDelivered` | custom_components/controlel/water_safety_host.py:147-186 | In every reachable state of a subscribed, accepting host the startup can be completed, and then the runtime has seen everything the events say it is owed |
| `WaterStartup.AcceptsUnlessRetired` | custom_components/controlel/water_safety_host.py:147-186 | In every run the host accepts until it is retired, its start raises or its snapshot is of another entity |
| `WaterStartup.ObservationFor` | custom_components/controlel/water_safety_host.py:520-529 | Only a state of the own entity without a usable timestamp is dropped |
| `WaterStartup.SnapshotObservation` | custom_components/controlel/water_safety_host.py:630-640 | Only another entity's snapshot prevents the start |
| `WaterStartup.StartupHost.Buffer` | custom_components/controlel/water_safety_host.py:497-501 | Buffering appends exactly what the arrival is due |
| `WaterStartup.StartupHost.Process` | custom_components/controlel/water_safety_host.py:542-551 | Arrivals during one runtime call are buffered in order |
| `WaterStartup.StartupHost.DrainOne` | custom_components/controlel/water_safety_host.py:168-170 | One turn of the drain loop moves the oldest observation to the runtime and loses none |
| `WaterStartup.StartupHost.AsyncInitialize` | custom_components/controlel/water_safety_host.py:154-173 | With any arrivals during any call, startup ends with an empty buffer and every one of them delivered once, in order, behind the start |
| `WaterStartup.OnlyExplicitReadingsCount` | custom_components/controlel/water_safety_moisture.py:80-90 | Only explicit readings are dry or wet; unavailable, unknown and empty ones are neither |
| `Lifecycle.OneUnstoppedHost` | custom_components/controlel/water_safety_lifecycle.py:80-133 | In every interleaving at most one registered host is unstopped; it is either active or pending exactly once, never both |
| `Lifecycle.RegistersIffAllStopped` | custom_components/controlel/water_safety_lifecycle.py:80-86 | A registration is accepted if and only if every host registered before has stopped |
| `Lifecycle.DroppedExactlyWhenAllStopped` | custom_components/controlel/water_safety_lifecycle.py:162-190 | In every interleaving the owner leaves the registry exactly when it is dropped, by its caller or by the continuation of a removed entry, with every registered host stopped |
| `Lifecycle.UnstoppedHostMovesOnlyWhenAsked` | custom_components/controlel/water_safety_lifecycle.py:80-125 | In every interleaving a host that has not stopped changes its place only when asked: promoted it is the active host, asked to stop it is the one pending, and at any other step it stays where it is |
| `Lifecycle.StoppedHostIsLetGo` | custom_components/controlel/water_safety_lifecycle.py:104-116 | A host that has stopped is let go by the end of its own stop and by any pruning, and never held again |
| `Lifecycle.CompletionStartsExactlyWhenDue` | custom_components/controlel/water_safety_lifecycle.py:142-160 | A removal starts a continuation exactly if a host is unstopped, none is at work, the last one was not cancelled and Home Assistant is not stopping |
| `Lifecycle.RemovedHostIsAttended` | custom_components/controlel/water_safety_lifecycle.py:142-190 | Once a removal has asked for completion while a host was unstopped, an unreleased host has a continuation, unless that was cancelled or Home Assistant stops, all as the events tell; there are never two, and once every host has stopped the continuation drops the owner |
| `Lifecycle.WaterSafetyLifecycleOwner.Prune` | custom_components/controlel/water_safety_lifecycle.py:220-224 | Pruning drops exactly the stopped hosts |
| `Lifecycle.WaterSafetyLifecycleOwner.RegisterConstructedHost` | custom_components/controlel/water_safety_lifecycle.py:80-86 | Accepted if and only if every known host has stopped; then the new host is the only one held |
| `Lifecycle.WaterSafetyLifecycleOwner.MarkHostActive` | custom_components/controlel/water_safety_lifecycle.py:88-94 | Promotion makes a pending host the active one with nothing pending, and changes nothing for any other |
| `Lifecycle.WaterSafetyLifecycleOwner.BeginStop` | custom_components/controlel/water_safety_lifecycle.py:107-110 | Before its await a stop takes the host out of the active place and leaves an unstopped one as the only pending |
| `Lifecycle.WaterSafetyLifecycleOwner.FinishStop` | custom_components/controlel/water_safety_lifecycle.py:113-115 | After its await a stopped host is held nowhere, and an unstopped one stays as it is |
| `Lifecycle.WaterSafetyLifecycleOwner.AsyncStopHost` | custom_components/controlel/water_safety_lifecycle.py:104-116 | An undisturbed stop returns whether the host stopped; a held host is then gone, an unstopped one is the only pending |
| `Lifecycle.WaterSafetyLifecycleOwner.AsyncRetryPendingCleanup` | custom_components/controlel/water_safety_lifecycle.py:118-125 | An undisturbed retry reports clean if and only if every pending host has stopped, and leaves the active one alone |
| `ActivationCore.PrepareResumes` | src/controlel/application/setup/activation.py:40-63 | A preparation records the authority it found, or nothing |
| `ActivationCore.SwapResumes` | src/controlel/infrastructure/home_assistant/setup_persistence.py:333-370 | The compare-and-swap makes exactly the replacement active, or nothing; either way the store stays one a restart can finish from |
| `ActivationCore.SwapMovesOneGeneration` | src/controlel/infrastructure/home_assistant/setup_persistence.py:333-370 | Authority moves only from exactly the revision and generation the attempt was prepared against, by one generation, to its candidate under its own marker |
| `ActivationCore.MarkResumes` | src/controlel/application/setup/activation.py:116-122 | The terminal write follows only the attempt's own marker |
| `ActivationCore.FailedResumes` | src/controlel/application/setup/activation.py:124-148 | A failure recorded without a commit marker keeps the store resumable |
| `ActivationCore.RecoverResumes` | src/controlel/application/setup/activation.py:150-198 | Recovery keeps the store resumable, whatever it is told |
| `ActivationCore.MarkerTellsTheSide` | src/controlel/application/setup/activation.py:162-167 | The durable commit marker is present exactly if the swap happened, and otherwise authority is untouched |
| `ActivationCore.RecoveryIsHonest` | src/controlel/application/setup/activation.py:150-198 | Recovery ends an attempt as committed only under its own marker, and as rolled back only without it and on its previous revision's stamp |
| `ActivationCore.RecoverAttempts` | custom_components/controlel/activation_backend.py:181-208 | The loop recovers every attempt in turn: unless one raises, each reported attempt ends terminal, committed exactly under its marker and rolled back exactly if that is claimed without it; at the first that raises, those before it have ended so and those after it are untouched |
| `ActivationCore.EachIsRecoveredInTurn` | src/controlel/application/setup/activation.py:150-198 | The same of the specification the loop is proved against, with the exact condition under which recovering one attempt raises |
| `ActivationCore.RecoveryFreesTheScope` | src/controlel/application/setup/activation.py:150-198 | Once recovery succeeds over all unfinished attempts of a scope, a new attempt can be prepared there |
| `ActivationRuns.CoordinatorIsSafe` | src/controlel/application/setup/activation.py:40-198 | Over any operations on any attempts, whatever storage does: a scope never has two unfinished attempts, no two attempts are committed in one generation, authority is the candidate of an attempt that was ready for it, and a rollback is on record only with the previous revision's own stamp |
| `ActivationRuns.AttemptsOnlyAdvance` | src/controlel/application/setup/activation.py:65-198 | An attempt is never deleted, its candidate and what it was prepared on never change, it goes from prepared to applying to its end or straight to a failure, and what has ended stays exactly as it is |
| `ActivationRuns.AuthorityMovesByCommitsOnly` | src/controlel/application/setup/activation.py:87-122 | Authority moves only by a commit, by one generation, within its scope, on top of exactly the revision the attempt was prepared on; an operation that storage refuses changes nothing |
| `ActivationRuns.OutOfTurnChangesNothing` | src/controlel/application/setup/activation.py:65-149 | An operation out of turn in the attempt's life raises and changes nothing |
| `HeatingActivation.Entry.AsyncActivate` | custom_components/controlel/activation_backend.py:47-165 | On every uncancelled exit after staging: nothing is staged, a published host agrees with durable authority, authority is untouched or exactly the candidate (then with its ready runtime published), and every durable state passed through can be resumed; an inadmissible request changes nothing, and if nothing fails the candidate is activated |
| `HeatingActivation.Entry.PrepareAttempt` | custom_components/controlel/activation_backend.py:59-108 | An inadmissible request is refused without a trace; otherwise an applying attempt is left on the authority it was prepared against, and nothing but a failure or another attempt in the scope prevents that |
| `HeatingActivation.Entry.PrepareAndBegin` | custom_components/controlel/activation_backend.py:91-109 | Preparing on an authority other than the expected one ends the attempt at once, rolled back if there was none and failed otherwise, so it does not block its scope |
| `HeatingActivation.PublishedAfterReload` | custom_components/controlel/canonical_runtime.py:98-117 | After a reload a host is published exactly if it was left alone, or if the entry loaded and asked for one, then under the stamp that was selected |
| `HeatingActivation.Entry.HandOver` | custom_components/controlel/activation_backend.py:111-145 | A commit marker exists only with the candidate's ready runtime published |
| `HeatingActivation.Entry.CommitOrReconcile` | custom_components/controlel/activation_backend.py:133-145 | A commit that raised after its swap is completed from its marker, and fails then only if that write does too |
| `HeatingActivation.Entry.RollBack` | custom_components/controlel/activation_backend.py:146-163 | Without a marker: unstaged, restored or quiesced, and recorded as rolled back if and only if the previous authority was reloaded |
| `HeatingActivation.Entry.RestoreAuthoritativeRuntime` | custom_components/controlel/activation_backend.py:211-241 | Success exactly when the reload succeeded and the previous authority is the active one; no disagreeing host stays |
| `HeatingActivation.Entry.QuiesceNonAuthoritativeRuntime` | custom_components/controlel/activation_backend.py:244-269 | A disagreeing host is given up even if its stop raises; an agreeing runtime is left alone |
| `HeatingActivation.Entry.AsyncReload` | custom_components/controlel/canonical_runtime.py:98-117 | A reload composes its runtime from the staged candidate, else from durable authority |
| `HeatingActivation.DurableCommitIsTheMarker` | custom_components/controlel/activation_backend.py:303-315 | The adapter's own test for a durable commit is the marker |
| `HeatingActivation.RecoverInterrupted` | custom_components/controlel/activation_backend.py:168-208 | A candidate setup or a held lock recovers nothing; otherwise every attempt in turn gets the claim its authority and loaded stamp justify, and ends as its marker and that claim say, up to the first that raises |
| `HeatingActivation.RollbackClaimsAreTrue` | custom_components/controlel/activation_backend.py:184-199 | A rollback is claimed only for an uncommitted attempt whose previous revision is the one loaded |
| `HeatingActivation.CrashIsAllOrNothing` | custom_components/controlel/activation_backend.py:168-208 | After a crash in any durable state of an activation the restart selects from that state alone, and recovery commits the attempt if the swap had happened and rolls it back if not, unless authority belongs to another scope |
| `WaterActivation.Entry.AsyncActivate` | custom_components/controlel/water_safety_activation.py:143-247 | Success returns the accepting host of the durably committed candidate; any failure, a rejection after recovery included, leaves the durable authority's host, no host or a retired one, authority untouched or exactly the candidate; the staged reference is gone; if nothing fails the candidate is activated |
| `WaterActivation.Entry.HandOver` | custom_components/controlel/water_safety_activation.py:168-214 | Success means the candidate is active and its accepting host runs |
| `WaterActivation.Entry.CommitOrReconcile` | custom_components/controlel/water_safety_activation.py:201-213 | A raised commit is reconciled exactly if the candidate is active and running, and fails then only if that write does too |
| `WaterActivation.Entry.RollBack` | custom_components/controlel/water_safety_activation.py:215-240 | The failure path restores or retires, and once its evidence is written the attempt is committed under its marker, failed unless authority runs again and then rolled back; only authority of another scope leaves it unfinished |
| `WaterActivation.Entry.RestoreAuthority` | custom_components/controlel/water_safety_activation.py:85-103 | Restored if and only if authority ran already or runs after the reload; otherwise no accepting host of another revision is left, even if its stop raises |
| `WaterActivation.Entry.RecoverInterrupted` | custom_components/controlel/water_safety_activation.py:106-128 | Attempts are reported rolled back only to the stamp that runs once authority has been restored; every one in turn ends as its marker and that claim say, up to the first that raises |
| `WaterActivation.RunningIgnoresAdmission` | custom_components/controlel/water_safety_activation.py:55-82 | "Authority running" does not depend on admission |
| `WaterActivation.IncompletelyStoppedAuthorityCountsAsRunning` | custom_components/controlel/water_safety_activation.py:55-69 | After a stop the authority's own host counts as running exactly if the stop came to its end with resources left, and accepts in no case |
| `WaterActivation.RunsExactlyIf` | custom_components/controlel/water_safety_activation.py:55-82 | The running authority is exactly a host built from it that has neither stopped nor is in a stop pass |
| `WaterActivation.HostAfterReload` | custom_components/controlel/canonical_runtime.py:98-117 | After a reload there is a new host exactly if the entry loaded and installed one for the reference; the old one is untouched if its unload was refused, and otherwise none accepts |
| `WaterActivation.ForeignAuthorityLeavesItUnfinished` | custom_components/controlel/water_safety_activation.py:215-240 | Such an attempt: the evidence of its rollback is refused, its scope stays busy, and recovery never looks at it |
| `WaterActivation.RollbackClaimsAreTrue` | custom_components/controlel/water_safety_activation.py:118-122 | A rollback is claimed only once authority runs, on the attempt's previous revision; a committed attempt is claimed rolled back exactly if that is its candidate's revision |
| `WaterActivation.ReactivationIsClaimedRolledBack` | custom_components/controlel/water_safety_activation.py:118-127 | Such an input: activating the active revision again is claimed rolled back although its marker is durable, and still recovered as committed |
| `WaterActivation.CrashIsAllOrNothing` | custom_components/controlel/water_safety_activation.py:106-128 | After a crash at any step, a restart commits the attempt if the swap had happened; otherwise authority is untouched and the attempt is rolled back if authority runs again, failed if not |
| `Operational.CurrentIsRecomputed` | custom_components/controlel/operational.py:430-504 | After any run, base fields are those of the last live update, and every derived field equals recomputing it from them at the last clock value |
| `Operational.TraceIsNewestHistory` | custom_components/controlel/operational.py:389-397 | Over any run, raising updates included, the trace is the newest part of all appended records, within capacity, its numbers never going back, and the lifetime count is right |
| `Operational.ResizeTakesEffect` | custom_components/controlel/operational.py:389-397 | A resize of the open source takes effect at once and keeps as many of the newest records as fit |
| `Operational.ClosedSourceStays` | custom_components/controlel/operational.py:492-497 | Nothing changes a closed source, whatever is called on it |
| `Operational.HistoryIsTold` | custom_components/controlel/operational.py:430-471 | Over any run the records ever accepted and the number of each are what the operations tell: a record that comes with an update of the open source is accepted whether or not that update then raises, and every update that takes effect makes one revision |
| `Operational.NothingIsDroppedEarly` | custom_components/controlel/operational.py:389-397 | No record is dropped early: while the capacity stays at least so large, the trace keeps what it had and what came since, or that many of the newest |
| `Operational.NumbersIncreaseExactlyWhenApart` | custom_components/controlel/operational.py:443-459 | Over any run the records' numbers increase strictly exactly when no record follows one left behind by a raising update before an update has succeeded |
| `Operational.RaisingUpdateRepeatsANumber` | custom_components/controlel/operational.py:443-459 | An update whose snapshot is refused after its record was appended, followed by one that succeeds, gives both records the same number |
| `Operational.ElapsedForgets` | custom_components/controlel/operational.py:638-704 | No earlier derived value survives a recomputation |
| `Operational.CountdownsAreExact` | custom_components/controlel/operational.py:625-704 | Every remaining time is given exactly while its countdown is due and counts down to its own deadline, and the age up from the measurement |
| `Operational.CountdownsOnlyRunDown` | custom_components/controlel/operational.py:473-497 | After any run, while no update takes effect and the clock does not go back, every countdown only runs down, by exactly the time passed, and only disappears, whatever is refreshed, resized, closed or refused meanwhile |
| `Operational.RecordTellsTheRest` | custom_components/controlel/operational.py:443-451 | An accepted record is numbered with the new revision and tells exactly the decision fields the caller did not give |
| `Operational.ActiveExactlyWhenDue` | custom_components/controlel/operational.py:707-731 | A countdown is named active exactly when base fields and clock say it is due |
| `Operational.SummaryCodeIsTrue` | custom_components/controlel/operational.py:734-777 | Each summary code is given exactly when the base fields call for it, the most urgent first |
| `Operational.SourceSummaryIsTrue` | custom_components/controlel/operational.py:780-815 | Each human summary is given exactly when base fields and clock call for it; a waiting time exactly while its protection runs, and then exactly what is left |
| `Operational.GraceStaysActiveAtZero` | custom_components/controlel/operational.py:657-661 | The grace countdown stays active at zero after its deadline |
| `Operational.InitialIsRecomputedIff` | custom_components/controlel/operational.py:507-623 | The initial snapshot equals its recomputation if and only if no Debug deadline lies ahead |
| `Operational.OperationalSnapshotSource.Update` | custom_components/controlel/operational.py:430-471 | A live update numbers and appends its record; if its snapshot passes validation it replaces the current one and reaches every subscriber, otherwise it raises and reaches nobody |
| `Operational.OperationalSnapshotSource.AppendTrace` | custom_components/controlel/operational.py:446-447 | At capacity the oldest record goes |
| `Operational.OperationalSnapshotSource.RefreshElapsed` | custom_components/controlel/operational.py:473-490 | A refresh keeps base fields and reaches only elapsed-refresh subscribers |
| `Operational.OperationalSnapshotSource.SetTraceCapacity` | custom_components/controlel/operational.py:389-397 | Resizing keeps the newest records and refuses capacity zero |
| `Operational.OperationalSnapshotSource.Subscribe` | custom_components/controlel/operational.py:399-428 | A subscriber gets the current snapshot at once and a token of its own unless the source is closed |
| `Operational.OperationalSnapshotSource.Unsubscribe` | custom_components/controlel/operational.py:419-428 | Only that subscriber goes |
| `Operational.OperationalSnapshotSource.Close` | custom_components/controlel/operational.py:492-497 | Nothing changes any more and nobody is notified |
| `Observability.OneIntervalExactlyWhenWanted` | custom_components/controlel/observability.py:110-150 | In every run there is one live interval of the current generation, every second in Debug and every ten in Detailed, exactly when started, not stopped, not Basic and with an active countdown in the last handled snapshot |
| `Observability.StaleTicksChangeNothing` | custom_components/controlel/observability.py:222-224 | A tick of a replaced interval changes nothing, in every reachable state |
| `Observability.ExpireKeepsInv` | custom_components/controlel/observability.py:241-258 | The re-entrant update of a Debug expiry installs what the restored profile asks for |
| `Observability.ScheduleTracks` | custom_components/controlel/observability.py:201-220 | Whatever was installed, scheduling leaves exactly what the condition asks for |
| `Observability.LiveTickExpiresDebug` | custom_components/controlel/observability.py:222-258 | A live tick at or after the Debug deadline restores the profile before it, Detailed if that was Debug, and takes the deadline back; any other live tick only brings derived fields up to date |
| `Observability.HandlesWhatItIsGiven` | custom_components/controlel/observability.py:195-234 | In every run the interval is scheduled for the snapshot the controller was given last, by its start, an effective update, a late delivery or a live tick |
| `Observability.StartPublishes` | custom_components/controlel/observability.py:110-132 | The start publishes the trace limit of the profile and the deadline of a Debug session that has a duration, counted from now, and handles that snapshot |
| `Observability.TraceLimitFollowsTheProfile` | custom_components/controlel/observability.py:107-122 | In every run, while the controller is at work the trace is limited to 20, 100 or 500 records as its profile says |
| `Observability.StoppedForGood` | custom_components/controlel/observability.py:140-150 | Once stopped the controller has no interval and no subscription, and takes nothing in, whatever comes |
| `Observability.LateUpdateStrandsDebug` | custom_components/controlel/observability.py:201-209 | An ordinary update at or after the deadline, with no other countdown active, cancels the interval that would have expired Debug |
| `Observability.DebugEndsExactlyWhileCountingDown` | custom_components/controlel/observability.py:201-234 | In every reachable started Debug state at or past its deadline some tick leaves Debug exactly if a countdown is active in the snapshot handled last |
| `Observability.LaterUpdateRevivesTheInterval` | custom_components/controlel/observability.py:201-234 | A later update with an active countdown installs an interval again, and its tick leaves Debug |
| `Observability.ClosedSourceLosesTheInterval` | custom_components/controlel/observability.py:241-258 | Why the host stops the controller before it closes the source: on a closed source a Debug expiry would lose an interval that is still wanted |
| `Observability.ObservabilityController.Schedule` | custom_components/controlel/observability.py:201-220 | The scheduling method is the scheduling step |
| `Observability.ObservabilityController.Receive` | custom_components/controlel/observability.py:195-199 | A stopped controller ignores snapshots |
| `Observability.ObservabilityController.Update` | custom_components/controlel/operational.py:430-471 | An update of the source, with or without a record, runs the controller's callback inside it unless it raises |
| `Observability.ObservabilityController.StartController` | custom_components/controlel/observability.py:110-132 | Starting publishes the profile, subscribes and schedules, once |
| `Observability.ObservabilityController.StopController` | custom_components/controlel/observability.py:140-150 | Stopping cancels the interval and outdates every tick |
| `Observability.ObservabilityController.Expire` | custom_components/controlel/observability.py:241-258 | The Debug expiry, re-entrant update included |
| `Observability.ObservabilityController.OnTick` | custom_components/controlel/observability.py:222-234 | A current tick expires Debug or refreshes, and reschedules |
| `Observability.ObservabilityController.Cancel` | custom_components/controlel/observability.py:265-270 | The interval is given up before it is unsubscribed |
| `HeatingQueue.ProcessedInOrder` | custom_components/controlel/host.py:289-344 | In every interleaving the processed states are the snapshot of the subscription that took effect and the arrivals since then before the host was told to stop, in order, adjacent equal versions collapsed, as far as taken; until stopped the rest is exactly the backlog |
| `HeatingQueue.OffersAreTold` | custom_components/controlel/host.py:699-707 | What has been offered, whether the host is subscribed and whether it accepts are told by the events alone |
| `HeatingQueue.BacklogCanBeProcessed` | custom_components/controlel/host.py:289-344 | In every reachable state of a subscribed host whose startup has not failed and whose queue does not stand still, it can go live and process everything it was offered |
| `HeatingQueue.DrainTakesOneAtATime` | custom_components/controlel/host.py:771-785 | In every reachable state a drain task takes the oldest queued state and is busy with it unless it repeats the one before, or finds the queue empty and is over |
| `HeatingQueue.FailedStartProcessesNothing` | custom_components/controlel/host.py:289-344 | A start that fails processes nothing any more, whatever comes; once the host is live it cannot fail |
| `HeatingQueue.StopEndsForGood` | custom_components/controlel/host.py:592-695 | The end of the stop comes exactly when the host does not accept any more and no drain task is left, clears what is queued, and nothing is processed after it |
| `HeatingQueue.AtMostOneDrain` | custom_components/controlel/host.py:699-715 | Never more than one drain task, none during startup, and it is the recorded one |
| `HeatingQueue.StalledExactlyAfterARaise` | custom_components/controlel/host.py:709-715 | In every interleaving states are queued with no drain task at work exactly after a drain raised with states still queued, until an arrival is accepted or the end of the stop clears the queue: no wake-up is lost otherwise |
| `HeatingQueue.RaisingDrainStalls` | custom_components/controlel/host.py:771-773 | A drain that raises loses nothing, but the queue waits, and the next arrival creates a new task |
| `HeatingQueue.CollapseDropsOnlyRepetitions` | custom_components/controlel/host.py:781-785 | What is processed is what was taken without exactly the states that repeat the one right before, each kept state at its own position and in order |
| `HeatingQueue.CollapseLeavesNoRepetition` | custom_components/controlel/host.py:781-785 | No reported state is left next to its own repetition, and the last one taken is never lost |
| `HeatingQueue.TakeDeduplicates` | custom_components/controlel/host.py:781-785 | Comparing with the last version processed is comparing with the state right before |
| `HeatingQueue.TemperatureQueue.ProcessStateNow` | custom_components/controlel/host.py:775-785 | One state is taken, discarded or not, while arrivals queue up behind |
| `HeatingQueue.TemperatureQueue.Drain` | custom_components/controlel/host.py:767-773 | The drain loop empties the queue, later arrivals included, in order |
| `SourceEvidence.TransitionIsTheSeenEntry` | custom_components/controlel/host.py:1772-1821 | Over any run of states, removed entities and unusable update times included, evidence is of the last usable state and its transition is the entry of the run of equal reports as far as the mapping saw it: present exactly when that was entered directly from the opposite stable report, with that entry's change time; only a state updated before that time is refused, and leaves the evidence as it was |
| `SourceEvidence.UnusableAreSkipped` | custom_components/controlel/host.py:1781-1785 | Over any run the evidence is that of the run up to its last usable state, and there is none without one |
| `SourceEvidence.TransitionIsTheRunsOwnIff` | custom_components/controlel/host.py:1793-1816 | The reported transition is the current run's own exactly when the mapping saw that run begin or what it took for the beginning was no transition |
| `SourceEvidence.TransitionIsTheEntryOfTheRun` | custom_components/controlel/host.py:1772-1821 | In particular it always is when every state there was had a usable update time, in whatever order |
| `SourceEvidence.TransitionIsNeverLate` | custom_components/controlel/host.py:1802-1816 | Over any run a transition is never after its own entry's observation, nor after the evidence's, whatever was skipped or refused |
| `SourceEvidence.RaisedIff` | custom_components/controlel/host.py:1810-1821 | Evidence is refused exactly when an inherited transition lies after the observation |
| `SourceEvidence.UnusableTimesHideABrokenRun` | custom_components/controlel/host.py:1783-1785 | Without usable times in between, an earlier run's transition can be reported |
| `SourceEvidence.RunStart` | custom_components/controlel/host.py:1799-1816 | The start of the current unbroken run |
| `SourceEvidence.ReportedSource.Ingest` | custom_components/controlel/host.py:739-754 | Evidence is replaced exactly by an accepted mapping while accepting |
| `SourceEvidence.ReportedSource.IngestStartup` | custom_components/controlel/host.py:314-318 | A startup snapshot with a usable time overwrites what the events before it left; any other leaves it |
| `ValveRoles.RoleAssignments` | custom_components/controlel/water_safety_shutoff_valves.py:211-232 | The assignment loop computes the assignment, or the reported collision |
| `ValveRoles.SafeRolesAreKept` | custom_components/controlel/water_safety_shutoff_valves.py:211-232 | From safe roles every selection of distinct targets is assigned without collision, exactly the targets, and a target that stays keeps its role |
| `ValveRoles.AssignmentIsExact` | custom_components/controlel/water_safety_shutoff_valves.py:211-232 | From safe roles the assignment gives every target exactly its role: the one it has, else the primary one if it is free and this is the first new target, else its own; and no other role |
| `ValveRoles.DisplacedTargetIsAssignedAsNew` | custom_components/controlel/water_safety_shutoff_valves.py:219-229 | From any roles a target whose role another one has taken is assigned as if it had none, and a collision is reported only if its own role is taken too |
| `ValveRoles.UnsafeRolesCanBeLost` | custom_components/controlel/water_safety_shutoff_valves.py:219-229 | From any other roles some selection takes a kept target's role away |
| `ValveRoles.SaveKeepsRoles` | custom_components/controlel/water_safety_shutoff_valves.py:108-190 | A save from well-formed roles is refused only for the selection itself; otherwise exactly the selection is bound, staying targets keep their roles, and no stored draft equals the active intent |
| `ValveRoles.SaveGivesRoles` | custom_components/controlel/water_safety_shutoff_valves.py:108-190 | After a save from well-formed roles every selected target is bound under exactly that role, the first of a selection under the primary one when nothing was bound before |
| `ValveRoles.SaveLeavesTheRestAlone` | custom_components/controlel/water_safety_shutoff_valves.py:108-190 | What a save binds is confirmed and what discovery found, the settings list exactly those roles, and everything that is no valve stays as it was |
| `ValveRoles.ResavingWritesNothing` | custom_components/controlel/water_safety_shutoff_valves.py:69-80 | From any repository, saving the reloaded selection again, in any order, changes nothing |
| `ValveRoles.SavesStayWellFormed` | custom_components/controlel/water_safety_shutoff_valves.py:108-190 | No sequence of saves, each with its own discovery, leaves the well-formed repositories, the empty one included |
| `ValveRoles.CommittedSource` | custom_components/controlel/water_safety_draft_semantics.py:55-128 | After a commit the editor starts from what was proposed, and the active intent is untouched |
| `ValveRoles.DraftRepository.CommitIfChanged` | custom_components/controlel/water_safety_draft_semantics.py:55-128 | A draft is written only when the intent differs from it and from the active one; its revision then moves by one |
| `LegacyConversion.ConversionIsLossless` | custom_components/controlel/legacy_config_converter.py:103-263 | Whatever the number format and the schema's rules, an accepted configuration compiles back to exactly itself |
| `LegacyConversion.ConversionIsInjective` | custom_components/controlel/legacy_config_converter.py:103-263 | Two different configurations never convert to the same content |
| `LegacyConversion.RejectedIff` | custom_components/controlel/legacy_config_converter.py:277-384 | Conversion fails for exactly the configurations it cannot represent and those whose canonical payload or bindings the schema's own rules refuse |
| `LegacyConversion.RejectionIsTrue` | custom_components/controlel/legacy_config_converter.py:277-442 | The reason given for a refusal is a true one, an inexact duration named by its field |
| `LegacyConversion.CompiledIff` | custom_components/controlel/canonical_runtime.py:346-436 | Any content, converted or not, compiles exactly if the schema accepts its payload and every role it uses is bound; a refusal names what is missing |
| `LegacyConversion.LocatorIsTheLast` | custom_components/controlel/canonical_runtime.py:355-370 | The locator of a role is that of its last binding |
| `LegacyConversion.SortedIsIncreasing` | src/controlel/application/configuration/heating_setup_adapter.py:224-230 | The recipient schema keeps the categories, sorted and without repetition |
| `LegacyConversion.AcceptedIsBound` | custom_components/controlel/canonical_runtime.py:355-370 | The bindings of an accepted configuration carry each entity id under its own role |
| `LegacyConversion.GuardRejectsWhatWouldBeLost` | custom_components/controlel/legacy_config_converter.py:438-442 | The exactness guard rejects a duration the number format would lose |

## Left out

- Config flow, sensors, panel, diagnostics and the Frontend API projection: user interface and field-by-field mapping.
- WebSocket handlers, service-call effects, notification texts, logging and Repairs issues: transport and text.
- Control and Water Safety runtimes, setup adapters and repositories of the core: only the contracts named above.
- Notification role assignment: another algorithm, which does not keep roles when a new target comes first.
- Compilation of canonical v3 revisions, reference resolution and discovery: field mapping and lookups.
- Water Safety snapshot and evidence storage, and the carrying over of an active incident to a new revision.
- Order of tasks waiting at the executor's submission lock: a submission enters the model when it passes the lock.
- The Heating host's direct entry for one state, which bypasses the queue and has no caller in the integration.
- Heating host failure handling, failsafe takeover, notification delivery and shadow assessments beside the queue.
- The `reloading` flag of the runtime data, which only quiets the update listener.
- The owner's `async_stop_all` and `async_prepare_for_start`, which only call what is modelled in turn.
- Two hosts of one entry registered through two owner objects, one of them already dropped: the results are per owner.
- LegacyConversion.Convert: reports an inexact duration before any schema error, where the code may meet them in turn;
  which configurations are accepted is the same.
- ValveRoles.Save: takes an editor nobody overtook; a target that is no valve entity is refused as incompatible; the
  settings' list of valve roles is a set, so an active revision that lists them unsorted counts as equal; of several
  roles bound to one target it considers any one.
- Operational.SourceSummaryOf: gives the quoted remaining time in microseconds, without the text's rounding to seconds.
- WaterHostObject.Host.AsyncStopOwnedResources: callback tasks that end with an error are logged by the code and not
  counted here.
- Operational.OperationalSnapshotSource.Update: keeps the base fields that derived fields, summaries and trace
  defaults depend on; the others are carried unchanged by the code.
- WaterActivation.Entry.AsyncActivate: takes the reload's result as given; the retirement of a host by a stop is proved in
  the host's own modules.
