/** The cleanup tasks of the Water Safety host from their creation to their consumption: how a pass takes over, which
    task it supervises, when a task ends and with what result, and who consumes one that ends late. */
module WaterHostCleanup {
  import opened Wrappers
  import opened WaterHost
  import opened WaterHostInvariant
  import opened WaterHostPasses
  import opened WaterHostProofs
  import opened WaterHostOperations
  import opened WaterHostProgress

  // ----- when a task ends

  /** The step ends task `t`: with an error, or without. */
  function Ends(s: State, e: Event, t: TaskRef): Option<bool> {
    match e
    case TaskCancelled(u) => if u == t && t in s.seen.issued then Some(true) else None
    case TaskSubmits(u) =>
      if u != t || !Unsubmitted(s, t) then None
      else if t.step.ExecutorClose? then (if s.exec.closed then Some(false) else None)
      else if s.exec.closing then Some(true)
      else None
    case CloseEnds(u, ok) =>
      if u != t || !t.step.ExecutorClose? || t !in s.submitted then None
      else if !ok then Some(true)
      else if s.exec.queue == [] && s.exec.worker.Idle? then Some(false)
      else None
    case DeadlineCancelEnds(ok) =>
      if s.exec.worker == Cleaning(t) && t.step.DeadlineCancel? then Some(!ok && s.deadline.Some?) else None
    case SweepEnds(ok) =>
      if s.exec.worker == Cleaning(t) && t.step.SchedulerCancelAll? && (!ok || s.timers.handles == {})
      then Some(!ok) else None
    case _ => None
  }

  /** The result of task `t` after a run: that of the first step that ended it. */
  function Result(events: seq<Event>, t: TaskRef): Option<bool> {
    if events == [] then None
    else
      var before, e := events[..|events| - 1], events[|events| - 1];
      if Result(before, t).Some? then Result(before, t) else Ends(Run(START, before), e, t)
  }

  function ResultIn(s: State, t: TaskRef): Option<bool> {
    if t in s.results then Some(s.results[t]) else None
  }

  predicate EndsSo(s: State, e: Event, t: TaskRef, r: State) {
    ResultIn(r, t) == if t in s.results then Some(s.results[t]) else Ends(s, e, t)
  }

  lemma FinishedResult(s: State, u: TaskRef, failed: bool, t: TaskRef)
    ensures ResultIn(Finish(s, u, failed), t) ==
      if t in s.results then Some(s.results[t]) else if t == u then Some(failed) else None
  {}

  lemma SameResults(s: State, e: Event, t: TaskRef, r: State)
    requires r.results == s.results && Ends(s, e, t).None?
    ensures EndsSo(s, e, t, r)
  {}

  lemma DropKeepsResults(s: State)
    ensures DropDeadline(s).results == s.results
  {}

  lemma DeadlineCancelEndsSo(s: State, ok: bool, t: TaskRef)
    ensures EndsSo(s, DeadlineCancelEnds(ok), t, DeadlineCancelEnd(s, ok))
  {
    hide Finish, DropDeadline;
    if InCleanup(s, DeadlineCancel) {
      DropKeepsResults(s);
      FinishedResult(WithWorker(DropDeadline(s), Idle), s.exec.worker.task, false, t);
      FinishedResult(WithWorker(s, Idle), s.exec.worker.task, true, t);
    }
  }

  lemma SweepEndsSo(s: State, ok: bool, t: TaskRef)
    ensures EndsSo(s, SweepEnds(ok), t, SweepEnd(s, ok))
  {
    hide Finish;
    if InCleanup(s, SchedulerCancelAll) {
      FinishedResult(WithWorker(s, Idle), s.exec.worker.task, !ok, t);
    }
  }

  lemma SubmissionEndsSo(s: State, u: TaskRef, t: TaskRef)
    ensures EndsSo(s, TaskSubmits(u), t, SubmitTask(s, u))
  {
    hide Finish, Unsubmitted, EndsSo;
    if Unsubmitted(s, u) && (if u.step.ExecutorClose? then s.exec.closed else s.exec.closing) {
      var failed := !u.step.ExecutorClose?;
      assert SubmitTask(s, u) == Finish(s, u, failed);
      RefusalEndsSo(s, u, t, failed);
    } else {
      assert SubmitTask(s, u).results == s.results;
      hide SubmitTask;
      SameResults(s, TaskSubmits(u), t, SubmitTask(s, u));
    }
  }

  lemma RefusalEndsSo(s: State, u: TaskRef, t: TaskRef, failed: bool)
    requires Unsubmitted(s, u) && (if u.step.ExecutorClose? then s.exec.closed else s.exec.closing)
    requires failed == !u.step.ExecutorClose?
    ensures EndsSo(s, TaskSubmits(u), t, Finish(s, u, failed))
  {
    hide Finish, Unsubmitted;
    FinishedResult(s, u, failed, t);
  }

  lemma CloseEndsSo(s: State, u: TaskRef, ok: bool, t: TaskRef)
    ensures EndsSo(s, CloseEnds(u, ok), t, CloseEnd(s, u, ok))
  {
    hide Finish;
    FinishedResult(s, u, true, t);
    FinishedResult(s.(exec := s.exec.(closed := true)), u, false, t);
  }

  lemma CancellationEndsSo(s: State, u: TaskRef, t: TaskRef)
    ensures EndsSo(s, TaskCancelled(u), t, CancelTask(s, u))
  {
    hide Finish;
    FinishedResult(s.(seen := s.seen.(cancelled := s.seen.cancelled + {u})), u, true, t);
  }

  lemma QuietWorkKeepsResults(s: State, e: Event)
    requires e.SubmitLogical? || e.StartOp? || e.Recall?
    ensures Apply(s, e).results == s.results
  {
    hide StartedOp, Without;
    if e.StartOp? && s.exec.worker == Idle && s.exec.queue != [] {
      StartedKeepsResults(Popped(s), s.exec.queue[0]);
    }
  }

  lemma StartedKeepsResults(s: State, op: Op)
    ensures StartedOp(s, op).results == s.results
  {}

  lemma WorkEndsSo(s: State, e: Event, t: TaskRef)
    requires WorkEvent(e)
    ensures EndsSo(s, e, t, Apply(s, e))
  {
    hide EndsSo, DeadlineCancelEnd, SweepEnd, SubmitTask, CloseEnd, CancelTask, StartNext, Submit, RecallStep;
    match e
    case DeadlineCancelEnds(ok) => DeadlineCancelEndsSo(s, ok, t);
    case SweepEnds(ok) => SweepEndsSo(s, ok, t);
    case TaskSubmits(u) => SubmissionEndsSo(s, u, t);
    case CloseEnds(u, ok) => CloseEndsSo(s, u, ok, t);
    case TaskCancelled(u) => CancellationEndsSo(s, u, t);
    case _ =>
      QuietWorkKeepsResults(s, e);
      SameResults(s, e, t, Apply(s, e));
  }

  lemma StepEndsSo(s: State, e: Event, t: TaskRef)
    ensures EndsSo(s, e, t, Apply(s, e))
  {
    hide Apply, EndsSo;
    if WorkEvent(e) {
      WorkEndsSo(s, e, t);
    } else {
      OtherStepsAreSameWork(s, e);
      SameResults(s, e, t, Apply(s, e));
    }
  }

  /** Over any run a cleanup task has a result exactly once a step has ended it, and it is that step's: its operation's
      end, a refused submission, the end of the executor's shutdown, or its own cancellation, whichever came first. */
  lemma {:induction false} ResultsAreTold(events: seq<Event>, t: TaskRef)
    ensures ResultIn(Run(START, events), t) == Result(events, t)
    decreases |events|
  {
    hide Run, Apply, Ends;
    if events == [] {
      RunNothing(START);
    } else {
      var before, e := events[..|events| - 1], events[|events| - 1];
      ResultsAreTold(before, t);
      LastStep(events);
      StepEndsSo(Run(START, before), e, t);
    }
  }

  // ----- the pass

  /** A pass that gets the lock answers one stop request. If the host has stopped that is all; otherwise it retires
      admission, unsubscribes, consumes exactly the tasks that have ended and waits for the callbacks there are. */
  lemma PassTakesOver(s: State, unsubscribed: bool)
    requires s.lock.Free? && s.requests > 0
    ensures var t := Apply(s, PassBegin(unsubscribed));
      && t.requests == s.requests - 1
      && (s.stopped ==> t == s.(requests := s.requests - 1))
      && (!s.stopped ==>
            && t.stopping && !t.accepting && t.lock == AwaitCallbacks(s.callbacks)
            && t.listener == (s.listener && !unsubscribed)
            && (forall step :: step in t.cleanup <==>
                  step in s.cleanup && TaskRef(step, s.cleanup[step]) !in s.results)
            && t.exec == s.exec && t.timers == s.timers && t.deadline == s.deadline && t.callbacks == s.callbacks)
  {
    hide ConsumeFinished;
    ConsumeFinishedFrame(Retire(s.(stopping := true, requests := s.requests - 1)));
  }

  /** In every reachable state the pass goes past a step it does not need. At one it needs it supervises the task of
      that step which an earlier pass has left, or else the new one, and nothing else changes. */
  lemma {:induction false} EveryNeededStepIsSupervised(events: seq<Event>, id: nat)
    requires Run(START, events).lock.At?
    requires TaskRef(Run(START, events).lock.step, id) !in Run(START, events).seen.issued
    ensures var s := Run(START, events);
      var (step, t) := (s.lock.step, Apply(s, BeginStep(id)));
      if !Needed(s, step) then t == s.(lock := WaterHost.Next(step))
      else if step in s.cleanup then t == s.(lock := Await(TaskRef(step, s.cleanup[step])))
      else t == s.(lock := Await(TaskRef(step, id)), cleanup := s.cleanup[step := id],
                   seen := s.seen.(issued := s.seen.issued + {TaskRef(step, id)}))
  {
    hide Run, Apply, Inv, PassInv, Needed;
    var s := Run(START, events);
    StartIsSound();
    RunKeepsInv(START, events);
    if Needed(s, s.lock.step) {
      NeededIsOpen(s);
    }
    StepIsSupervised(s, id);
  }

  /** What a pass needs, the executor is still open for. */
  lemma NeededIsOpen(s: State)
    requires Inv(s) && s.lock.At? && Needed(s, s.lock.step)
    ensures !s.exec.closed
  {}

  lemma StepIsSupervised(s: State, id: nat)
    requires s.lock.At? && (Needed(s, s.lock.step) ==> !s.exec.closed)
    requires TaskRef(s.lock.step, id) !in s.seen.issued
    ensures var (step, t) := (s.lock.step, Apply(s, BeginStep(id)));
      if !Needed(s, step) then t == s.(lock := WaterHost.Next(step))
      else if step in s.cleanup then t == s.(lock := Await(TaskRef(step, s.cleanup[step])))
      else t == s.(lock := Await(TaskRef(step, id)), cleanup := s.cleanup[step := id],
                   seen := s.seen.(issued := s.seen.issued + {TaskRef(step, id)}))
  {
    hide Needed;
  }

  /** In every reachable state the callback of a task that ended late consumes it, unless a pass was faster, and lets
      go of it. Cancelling a task that has already ended changes nothing. */
  lemma {:induction false} LateTaskIsConsumed(events: seq<Event>, t: TaskRef)
    requires t in Run(START, events).results
    ensures var s := Run(START, events);
      && (t in s.late ==>
            var r := Apply(s, LateCallback(t));
            && t !in r.late && !Current(r, t) && r.exec == s.exec && r.lock == s.lock
            && r.cleanup == (if Current(s, t) then s.cleanup - {t.step} else s.cleanup)
            && r.seen.consumed == (if Current(s, t) then s.seen.consumed + multiset{t} else s.seen.consumed))
      && Apply(s, TaskCancelled(t)) == s
  {
    hide Run, Apply, Consume;
    var s := Run(START, events);
    LateApplies(s, t);
    LateIsConsumed(s.(late := s.late - {t}), t);
    EndedIsNotCancelled(s, t);
  }

  lemma LateApplies(s: State, t: TaskRef)
    requires t in s.results
    ensures t in s.late ==> Apply(s, LateCallback(t)) == Consume(s.(late := s.late - {t}), t)
  {
    hide Consume;
  }

  lemma LateIsConsumed(s: State, t: TaskRef)
    requires t in s.results
    ensures var r := Consume(s, t);
      && !Current(r, t) && r.exec == s.exec && r.lock == s.lock && r.late == s.late
      && r.cleanup == (if Current(s, t) then s.cleanup - {t.step} else s.cleanup)
      && r.seen.consumed == (if Current(s, t) then s.seen.consumed + multiset{t} else s.seen.consumed)
  {
    if Current(s, t) {
      ConsumesCurrent(s, t);
    }
  }

  lemma EndedIsNotCancelled(s: State, t: TaskRef)
    requires t in s.results
    ensures Apply(s, TaskCancelled(t)) == s
  {}
}
