/** The bookkeeping of the stop passes is what the events tell, and so is the bound on passes that end unstopped. */
module WaterHostTally {
  import opened Wrappers
  import opened WaterHost
  import opened WaterHostInvariant
  import opened WaterHostPasses
  import opened WaterHostProofs
  import opened WaterHostProgress

  /** A pass gets the lock. */
  predicate Begins(s: State, e: Event) {
    e.PassBegin? && s.lock.Free? && s.requests > 0 && !s.stopped
  }

  /** A step of a pass fails or times out. */
  predicate Fails(s: State, e: Event) {
    match e
    case PassBegin(unsubscribed) => Begins(s, e) && s.listener && !unsubscribed
    case CallbacksSettle => s.lock.AwaitCallbacks? && s.callbacks * s.lock.cancelled != {}
    case BeginStep(_) => s.lock.At? && Needed(s, s.lock.step) && s.exec.closed
    case Resolve => s.lock.Await? && s.lock.task in s.results && s.results[s.lock.task]
    case TimeOut => s.lock.Await? && s.lock.task !in s.results
    case PassCancelled => InPass(s)
    case _ => false
  }

  /** A supervised cleanup task has not ended. */
  predicate Unfinished(s: State) {
    exists step <- s.cleanup :: TaskRef(step, s.cleanup[step]) !in s.results
  }

  /** What has to be released is released but for what is supervised. */
  predicate OthersReleased(s: State) {
    !s.listener && s.deadline.None? && Released(s) && s.callbacks == {} && s.exec.closed
  }

  /** A pass ends without having stopped the host. */
  predicate EndsUnstopped(s: State, e: Event) {
    (e.PassCancelled? && InPass(s)) || (e.PassEnd? && s.lock.AtEnd? && (Unfinished(s) || !OthersReleased(s)))
  }

  /** An untroubled one does so behind an operation of an earlier pass that is still in flight. */
  predicate EndsBusy(s: State, e: Event) {
    e.PassEnd? && s.lock.AtEnd? && !s.tally.troubled && s.tally.leftover && Unfinished(s)
  }

  /** An untroubled one that began without such an operation finds a lost timer. */
  predicate EndsBlocked(s: State, e: Event) {
    e.PassEnd? && s.lock.AtEnd? && !s.tally.troubled && !s.tally.leftover && s.timers.lost != {}
  }

  predicate Counted(s: State, e: Event, y: Tally) {
    && y.failures == s.tally.failures + One(Fails(s, e))
    && y.unstopped == s.tally.unstopped + One(EndsUnstopped(s, e))
    && y.busy == s.tally.busy + One(EndsBusy(s, e))
    && y.blocked == s.tally.blocked + One(EndsBlocked(s, e))
    && y.troubled == (Fails(s, e) || (!Begins(s, e) && s.tally.troubled))
    && y.leftover == (if Begins(s, e) then Unfinished(s) else s.tally.leftover)
    && y.racing == (if Begins(s, e) then s.exec.worker.Rescheduling? else s.tally.racing)
  }

  predicate PassEvent(e: Event) {
    PassStartEvent(e) || PassExitEvent(e) || e.Resolve? || e.PassEnd?
  }

  lemma OtherTallies(s: State, e: Event)
    requires Inv(s) && !PassEvent(e)
    ensures Apply(s, e).tally == s.tally
  {
    hide Inv, ClosedStays, NothingComesBack, Hushed, Muted, Apply;
    if SideEvent(e) {
      SideOnlyReleases(s, e);
    } else if StartupEvent(e) {
      StartupTallies(s, e);
    } else {
      LateTallies(s, e.task);
    }
  }

  lemma StartupTallies(s: State, e: Event)
    requires StartupEvent(e)
    ensures Apply(s, e).tally == s.tally
  {
    hide Retire;
    RetireTallies(s.(listener := false));
    RetireTallies(s);
    RetireTallies(s.(listener := false, lock := Free));
    RetireTallies(s.(lock := Free));
    if e.InitBegin? && e.raises {
      RetireTallies(s.(listener := s.listener && !e.unsubscribed));
    } else if e.InitFails? {
      RetireTallies(s.(listener := s.listener && !e.unsubscribed, lock := Free));
    }
  }

  lemma RetireTallies(s: State)
    ensures Retire(s).tally == s.tally
  {}

  lemma LateTallies(s: State, t: TaskRef)
    ensures Apply(s, LateCallback(t)).tally == s.tally
  {
    hide Consume;
    ConsumeFrame(s.(late := s.late - {t}), t);
  }

  lemma ConsumedUnfinished(s: State, r: State)
    requires r.cleanup == s.cleanup && r.results == s.results
    ensures ConsumeFinished(r).cleanup != map[] <==> Unfinished(s)
  {
    hide ConsumeFinished;
    ConsumeFinishedFrame(r);
    if Unfinished(s) {
      var step :| step in s.cleanup && TaskRef(step, s.cleanup[step]) !in s.results;
      assert step in ConsumeFinished(r).cleanup;
    }
    if ConsumeFinished(r).cleanup != map[] {
      assert exists step :: step in ConsumeFinished(r).cleanup;
    }
  }

  lemma BeginTallies(s: State, unsubscribed: bool)
    requires s.lock.Free? && s.requests > 0 && !s.stopped
    ensures var failed := s.listener && !unsubscribed;
      BeginPass(s, unsubscribed).tally ==
        s.tally.(troubled := failed, failures := s.tally.failures + (if failed then 1 else 0),
                 leftover := Unfinished(s), racing := s.exec.worker.Rescheduling?)
  {
    hide ConsumeFinished, Unfinished;
    var r := Retire(s.(stopping := true, requests := s.requests - 1));
    ConsumeFinishedFrame(r);
    ConsumedUnfinished(s, r);
  }

  lemma BeginCounts(s: State, unsubscribed: bool)
    ensures Counted(s, PassBegin(unsubscribed), PassBeginStep(s, unsubscribed).tally)
  {
    hide Unfinished, OthersReleased, Needed, BeginPass;
    if s.lock.Free? && s.requests > 0 && !s.stopped {
      BeginTallies(s, unsubscribed);
    }
  }

  /** A step in the middle of a pass counts as a failure or not at all. */
  lemma MiddleCounts(s: State, e: Event, y: Tally)
    requires e.CallbacksSettle? || e.BeginStep? || e.Resolve? || e.TimeOut?
    requires y == if Fails(s, e) then s.tally.(troubled := true, failures := s.tally.failures + 1) else s.tally
    ensures Counted(s, e, y)
  {
    hide Fails;
  }

  lemma SettleCounts(s: State)
    ensures Counted(s, CallbacksSettle, SettleStep(s).tally)
  {
    hide Counted;
    MiddleCounts(s, CallbacksSettle, SettleStep(s).tally);
  }

  lemma CleanupCounts(s: State, id: nat)
    ensures Counted(s, BeginStep(id), BeginCleanup(s, id).tally)
  {
    hide Counted, Needed, Supervise;
    var y := BeginCleanup(s, id).tally;
    if Fails(s, BeginStep(id)) {
      assert BeginCleanup(s, id) == Fail(s).(lock := WaterHost.Next(s.lock.step));
    } else {
      SuperviseTallies(s, id);
      assert y == s.tally;
    }
    MiddleCounts(s, BeginStep(id), y);
  }

  lemma PassStartCounts(s: State, e: Event)
    requires PassStartEvent(e)
    ensures Counted(s, e, Apply(s, e).tally)
  {
    hide Counted, PassBeginStep, SettleStep, BeginCleanup;
    match e
    case PassBegin(unsubscribed) => BeginCounts(s, unsubscribed);
    case CallbacksSettle => SettleCounts(s);
    case BeginStep(id) => CleanupCounts(s, id);
  }

  lemma SuperviseTallies(s: State, id: nat)
    ensures s.lock.At? ==> Supervise(s, s.lock.step, id).tally == s.tally
  {}

  lemma TimeOutCounts(s: State)
    ensures Counted(s, TimeOut, TimeOutStep(s).tally)
  {
    hide Counted;
    MiddleCounts(s, TimeOut, TimeOutStep(s).tally);
  }

  /** A pass that is cancelled has failed, and so counts as nothing but unstopped. */
  lemma CancelCounts(s: State)
    ensures Counted(s, PassCancelled, PassCancelStep(s).tally)
  {
    hide CountUnstopped;
    if InPass(s) {
      UnstoppedTallies(Fail(s));
    }
  }

  lemma ExitCounts(s: State, e: Event)
    requires PassExitEvent(e)
    ensures Counted(s, e, Apply(s, e).tally)
  {
    hide Counted, TimeOutStep, PassCancelStep;
    match e
    case TimeOut => TimeOutCounts(s);
    case PassCancelled => CancelCounts(s);
  }

  lemma ResolveCounts(s: State)
    ensures Counted(s, Resolve, Apply(s, Resolve).tally)
  {
    hide Counted, Consume;
    if s.lock.Await? {
      ConsumeFrame(s, s.lock.task);
    }
    MiddleCounts(s, Resolve, Apply(s, Resolve).tally);
  }

  /** Whether the pass stops the host, from what it finds at its end. */
  lemma EndFinds(s: State)
    ensures var r := ConsumeFinished(s).(stopping := false, lock := Free);
      && (AllReleased(r) <==> !Unfinished(s) && OthersReleased(s))
      && (r.cleanup != map[] <==> Unfinished(s))
      && r.tally == s.tally && r.timers == s.timers
  {
    hide Unfinished, ConsumeFinished;
    ConsumeFinishedFrame(s);
    ConsumedUnfinished(s, s);
  }

  lemma UnstoppedTallies(r: State)
    ensures var (y, t) := (r.tally, CountUnstopped(r).tally);
      && t.troubled == y.troubled && t.leftover == y.leftover && t.racing == y.racing && t.failures == y.failures
      && t.unstopped == y.unstopped + 1
      && t.busy == y.busy + One(!y.troubled && y.leftover && r.cleanup != map[])
      && t.blocked == y.blocked + One(!y.troubled && !y.leftover && r.timers.lost != {})
  {}

  lemma ConcludeCounts(s: State, r: State)
    requires s.lock.AtEnd? && (AllReleased(r) <==> !Unfinished(s) && OthersReleased(s))
    requires (r.cleanup != map[] <==> Unfinished(s)) && r.tally == s.tally && r.timers == s.timers
    ensures Counted(s, PassEnd, Concluded(r).tally)
  {
    hide Unfinished, AllReleased, CountUnstopped;
    UnstoppedTallies(r);
    if AllReleased(r) {
      assert Concluded(r).tally == r.tally;
    } else {
      assert Concluded(r) == CountUnstopped(r);
    }
  }

  lemma EndCounts(s: State)
    ensures Counted(s, PassEnd, PassEndStep(s).tally)
  {
    hide Unfinished, OthersReleased, Needed, ConsumeFinished, AllReleased, Concluded;
    if s.lock.AtEnd? {
      EndFinds(s);
      ConcludeCounts(s, ConsumeFinished(s).(stopping := false, lock := Free));
    }
  }

  lemma EndApplies(s: State)
    ensures Apply(s, PassEnd) == PassEndStep(s)
  {
    hide PassEndStep;
  }

  lemma UncountedStays(s: State, e: Event, y: Tally)
    requires !PassEvent(e) && y == s.tally
    ensures Counted(s, e, y)
  {}

  lemma StepTallies(s: State, e: Event)
    requires Inv(s)
    ensures Counted(s, e, Apply(s, e).tally)
  {
    hide Inv, Apply, Counted, PassEndStep;
    if PassStartEvent(e) {
      PassStartCounts(s, e);
    } else if PassExitEvent(e) {
      ExitCounts(s, e);
    } else if e.Resolve? {
      ResolveCounts(s);
    } else if e.PassEnd? {
      EndApplies(s);
      EndCounts(s);
    } else {
      OtherTallies(s, e);
      UncountedStays(s, e, s.tally);
    }
  }

  /** Of the pass that began last: a step failed or timed out; an operation of an earlier pass was still supervised when
      it began; a reschedule was already running then. */
  function LastPass(events: seq<Event>): (bool, bool, bool) {
    if events == [] then (false, false, false)
    else
      var before, e := events[..|events| - 1], events[|events| - 1];
      var s := Run(START, before);
      if Begins(s, e) then (Fails(s, e), Unfinished(s), s.exec.worker.Rescheduling?)
      else (LastPass(before).0 || Fails(s, e), LastPass(before).1, LastPass(before).2)
  }

  /** Over any run the counts of failures and of passes that ended unstopped, busy or blocked, and what is noted of the
      last pass, are what the events tell. */
  lemma {:induction false} TallyIsTold(events: seq<Event>)
    ensures var y := Run(START, events).tally;
      && y.failures == Count(events, Fails) && y.unstopped == Count(events, EndsUnstopped)
      && y.busy == Count(events, EndsBusy) && y.blocked == Count(events, EndsBlocked)
      && (y.troubled, y.leftover, y.racing) == LastPass(events)
    decreases |events|
  {
    hide Run, Apply, Inv, PassInv, Fails, EndsUnstopped, EndsBusy, EndsBlocked, Begins, Unfinished;
    if events == [] {
      RunNothing(START);
    } else {
      var before, e := events[..|events| - 1], events[|events| - 1];
      TallyIsTold(before);
      StartIsSound();
      RunKeepsInv(START, before);
      LastStep(events);
      StepTallies(Run(START, before), e);
    }
  }

  /** So over a whole run at most twice as many passes end unstopped as steps failed or timed out, plus one pass for the
      racing reschedule, plus those that ended behind an earlier operation and those that a lost timer blocked. */
  lemma {:induction false} UnstoppedPassesAreFew(events: seq<Event>)
    ensures Count(events, EndsUnstopped) <=
            2 * Count(events, Fails) + Count(events, EndsBusy) + Count(events, EndsBlocked) + 1
  {
    TallyIsTold(events);
    UnstoppedPassesAreBounded(events);
  }
}
