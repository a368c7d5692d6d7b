/** What the scheduler does get done: a timer that is scheduled and left alone fires once, one that is cancelled is
    gone, and from wherever it is a sweep can succeed. */
module SchedulerProgress {
  import TimerHandle
  import opened SchedulerRuns

  const FRESH := TimerHandle.FRESH
  const HELD := TimerHandle.Flags(true, false)
  const OVER := TimerHandle.Flags(false, true)

  lemma RunConcat(s: State, a: seq<Event>, b: seq<Event>)
    requires Inv(s)
    ensures Run(s, a + b) == Run(Run(s, a), b)
    decreases |a|
  {
    hide Tracked, SweptClean, Apply;
    if a == [] {
      assert a + b == b;
    } else {
      ApplyKeepsInv(s, a[0]);
      assert (a + b)[0] == a[0] && (a + b)[1..] == a[1..] + b;
      RunConcat(Apply(s, a[0]), a[1..], b);
    }
  }

  lemma RunTwo(s: State, e: Event, f: Event)
    requires Inv(s)
    ensures Inv(Apply(s, e)) && Run(s, [e, f]) == Apply(Apply(s, e), f)
  {
    hide Tracked, SweptClean, Apply;
    ApplyKeepsInv(s, e);
    ApplyKeepsInv(Apply(s, e), f);
    assert [e, f][1..] == [f] && [f][1..] == [];
    assert Run(Apply(s, e), [f]) == Run(Apply(Apply(s, e), f), []);
  }

  lemma RunThree(s: State, e: Event, f: Event, g: Event)
    requires Inv(s)
    ensures Inv(Apply(s, e)) && Inv(Apply(Apply(s, e), f))
    ensures Run(s, [e, f, g]) == Apply(Apply(Apply(s, e), f), g)
  {
    hide Tracked, SweptClean, Apply, Run;
    RunTwo(s, e, f);
    RunTwo(Apply(s, e), f, g);
    RunConcat(s, [e], [f, g]);
    RunOne(s, e);
    assert [e] + [f, g] == [e, f, g];
  }

  lemma RunOne(s: State, e: Event)
    requires Inv(s)
    ensures Inv(Apply(s, e)) && Run(s, [e]) == Apply(s, e)
  {
    hide Tracked, SweptClean, Apply;
    ApplyKeepsInv(s, e);
    assert [e][1..] == [];
    assert Run(Apply(s, e), []) == Apply(s, e);
  }

  lemma StartHolds()
    ensures Inv(START)
  {}

  // ----- one timer

  predicate Unused(s: State, id: nat) {
    id !in s.flags && id !in s.armed
  }

  /** A timer that has been scheduled and nothing else. */
  function Pending(s: State, id: nat): State {
    s.(flags := s.flags[id := FRESH], armed := s.armed + {id}, handles := s.handles + {id},
       returned := s.returned + {id}, swept := false)
  }

  lemma Installs(s: State, id: nat)
    requires s.worker.Idle? && Unused(s, id)
    ensures Apply(s, Install(id)) == s.(armed := s.armed + {id}, worker := Installed(id), swept := false)
  {}

  lemma Builds(s: State, id: nat)
    requires s.worker == Installed(id)
    ensures Apply(s, Build) == s.(flags := s.flags[id := FRESH], worker := Built(id))
  {}

  lemma Registers(s: State, id: nat)
    requires s.worker == Built(id) && id in s.flags && s.flags[id] == FRESH
    ensures Apply(s, Register) ==
      if s.closed then s.(worker := Entering(id, LateCancel))
      else s.(handles := s.handles + {id}, returned := s.returned + {id}, worker := Idle)
  {}

  /** From every reachable state a timer that is scheduled on the open scheduler and left alone is tracked until it
      fires; then its callback has been handed out and it is gone. */
  lemma ScheduledTimerFires(events: seq<Event>, id: nat)
    requires var s := Run(START, events); s.worker.Idle? && Unused(s, id) && !s.closed
    ensures var s := Run(START, events);
      var t := Run(s, [Install(id), Build, Register]);
      && t == Pending(s, id)
      && Run(t, [Fire(id), FinishClaim(id)]) ==
           s.(flags := s.flags[id := OVER], armed := s.armed, handles := s.handles - {id},
              claiming := s.claiming - {id}, delivered := s.delivered + {id}, returned := s.returned + {id},
              swept := false)
  {
    StartHolds();
    hide Inv, Apply, Run;
    var s := Run(START, events);
    var a := s.(armed := s.armed + {id}, worker := Installed(id), swept := false);
    RunThree(s, Install(id), Build, Register);
    Installs(s, id);
    Builds(a, id);
    Registers(a.(flags := s.flags[id := FRESH], worker := Built(id)), id);
    RunTwo(Pending(s, id), Fire(id), FinishClaim(id));
    Fires(s, id);
  }

  lemma Fires(s: State, id: nat)
    requires s.worker.Idle? && Unused(s, id)
    ensures Apply(Apply(Pending(s, id), Fire(id)), FinishClaim(id)) ==
            s.(flags := s.flags[id := OVER], armed := s.armed, handles := s.handles - {id},
               claiming := s.claiming - {id}, delivered := s.delivered + {id}, returned := s.returned + {id},
               swept := false)
  {
    var p := Pending(s, id);
    var f := p.(flags := s.flags[id := OVER], armed := s.armed, claiming := s.claiming + {id},
                delivered := s.delivered + {id});
    assert p.armed - {id} == s.armed && p.flags[id := OVER] == s.flags[id := OVER];
    assert Apply(p, Fire(id)) == f;
    assert f.claiming - {id} == s.claiming - {id} && f.handles - {id} == s.handles - {id};
  }

  /** What an undisturbed cancel leaves of a timer: it is finished, disarmed and tracked no more, and was not
      delivered. */
  function Gone(s: State, id: nat): State {
    s.(flags := s.flags[id := OVER], armed := s.armed - {id}, handles := s.handles - {id})
  }

  lemma EntersCancel(s: State, id: nat, k: Resume)
    requires s.worker == Entering(id, k) && id in s.flags && s.flags[id] == FRESH
    ensures Apply(s, EnterBlock) == s.(flags := s.flags[id := HELD], worker := Bridging(id, k))
  {}

  lemma Bridges(s: State, id: nat, k: Resume)
    requires s.worker == Bridging(id, k) && id in s.flags
    ensures Apply(s, BridgeReturns) == s.(armed := s.armed - {id}, worker := Committing(id, k))
  {}

  lemma Commits(s: State, id: nat, k: Resume)
    requires s.worker == Committing(id, k) && id in s.flags && !s.flags[id].cancelled
    ensures Apply(s, CommitBlock) == s.(flags := s.flags[id := OVER], worker := Reporting(id, k))
  {}

  lemma Reports(s: State, id: nat, k: Resume)
    requires s.worker == Reporting(id, k) && id in s.flags
    ensures Apply(s, ReportCancel) == AfterCancel(s.(handles := s.handles - {id}), id, k, true)
  {}

  lemma CancelGoesThrough(s: State, id: nat, k: Resume)
    requires Inv(s) && s.worker == Entering(id, k) && id in s.flags && s.flags[id] == FRESH
    ensures Run(s, [EnterBlock, BridgeReturns] + [CommitBlock, ReportCancel]) == AfterCancel(Gone(s, id), id, k, true)
  {
    hide Inv, Apply, Run;
    var entered := s.(flags := s.flags[id := HELD], worker := Bridging(id, k));
    var bridged := entered.(armed := s.armed - {id}, worker := Committing(id, k));
    RunConcat(s, [EnterBlock, BridgeReturns], [CommitBlock, ReportCancel]);
    RunTwo(s, EnterBlock, BridgeReturns);
    EntersCancel(s, id, k);
    Bridges(entered, id, k);
    assert Run(s, [EnterBlock, BridgeReturns]) == bridged;
    InvHolds(s, [EnterBlock, BridgeReturns]);
    RunTwo(bridged, CommitBlock, ReportCancel);
    Commits(bridged, id, k);
    assert bridged.flags[id := OVER] == s.flags[id := OVER];
    Reports(bridged.(flags := s.flags[id := OVER], worker := Reporting(id, k)), id, k);
  }

  lemma InvHolds(s: State, events: seq<Event>)
    requires Inv(s)
    ensures Inv(Run(s, events))
  {}

  /** From every reachable state a timer that is scheduled and then cancelled before it fires is gone without having
      been delivered; on a closed scheduler its scheduling cancels it itself and still returns. */
  lemma CancelledTimerIsGone(events: seq<Event>, id: nat)
    requires var s := Run(START, events); s.worker.Idle? && Unused(s, id)
    ensures var s := Run(START, events);
      var scheduled := [Install(id), Build, Register] + if s.closed then [] else [CancelOne(id)];
      Run(s, scheduled + ([EnterBlock, BridgeReturns] + [CommitBlock, ReportCancel])) ==
        s.(flags := s.flags[id := OVER], handles := s.handles - {id},
           returned := s.returned + {id}, swept := false)
  {
    StartHolds();
    hide Inv, Apply, Run, Gone, Pending, AfterCancel;
    var s := Run(START, events);
    var cancelled := [EnterBlock, BridgeReturns] + [CommitBlock, ReportCancel];
    var a := s.(armed := s.armed + {id}, worker := Installed(id), swept := false);
    var b := a.(flags := s.flags[id := FRESH], worker := Built(id));
    InvHolds(START, events);
    RunThree(s, Install(id), Build, Register);
    Installs(s, id);
    Builds(a, id);
    Registers(b, id);
    InvHolds(s, [Install(id), Build, Register]);
    if s.closed {
      RunConcat(s, [Install(id), Build, Register], cancelled);
      CancelGoesThrough(b.(worker := Entering(id, LateCancel)), id, LateCancel);
      LateIsGone(s, id);
      assert [Install(id), Build, Register] + [] == [Install(id), Build, Register];
    } else {
      RunConcat(s, [Install(id), Build, Register], [CancelOne(id)]);
      RunConcat(s, [Install(id), Build, Register] + [CancelOne(id)], cancelled);
      RunOne(Run(s, [Install(id), Build, Register]), CancelOne(id));
      PendingIsCancelled(s, id);
      CancelGoesThrough(Pending(s, id).(worker := Entering(id, CancelledAlone)), id, CancelledAlone);
      AloneIsGone(s, id);
    }
  }

  lemma PendingIsCancelled(s: State, id: nat)
    requires s.worker.Idle? && Unused(s, id)
    ensures Pending(s, id) == s.(flags := s.flags[id := FRESH], armed := s.armed + {id}, handles := s.handles + {id},
                                 returned := s.returned + {id}, swept := false)
    ensures Apply(Pending(s, id), CancelOne(id)) == Pending(s, id).(worker := Entering(id, CancelledAlone))
  {}

  lemma LateIsGone(s: State, id: nat)
    requires s.worker.Idle? && Unused(s, id)
    ensures var b := s.(armed := s.armed + {id}, flags := s.flags[id := FRESH], worker := Entering(id, LateCancel),
                        swept := false);
      AfterCancel(Gone(b, id), id, LateCancel, true) ==
        s.(flags := s.flags[id := OVER], handles := s.handles - {id},
           returned := s.returned + {id}, swept := false)
  {
    assert s.armed + {id} - {id} == s.armed;
    assert s.flags[id := FRESH][id := OVER] == s.flags[id := OVER];
  }

  lemma AloneIsGone(s: State, id: nat)
    requires s.worker.Idle? && Unused(s, id)
    ensures AfterCancel(Gone(Pending(s, id).(worker := Entering(id, CancelledAlone)), id), id, CancelledAlone, true) ==
            s.(flags := s.flags[id := OVER], handles := s.handles - {id},
               returned := s.returned + {id}, swept := false)
  {
    assert s.armed + {id} - {id} == s.armed && s.handles + {id} - {id} == s.handles - {id};
    assert s.flags[id := FRESH][id := OVER] == s.flags[id := OVER];
  }

  /** A cancel whose bridged call raises leaves the timer as it was, tracked and cancellable again, except that Home
      Assistant may have disarmed it. */
  lemma FailedCancelCanBeRepeated(events: seq<Event>, id: nat, disarmed: bool)
    requires var s := Run(START, events);
      s.worker.Idle? && id in s.returned && id in s.flags && s.flags[id] == FRESH
    ensures var s := Run(START, events);
      Run(s, [CancelOne(id), EnterBlock] + [BridgeRaises(disarmed), RaiseBlock]) ==
        s.(armed := if disarmed then s.armed - {id} else s.armed)
  {
    StartHolds();
    hide Inv, Apply, Run;
    var s := Run(START, events);
    var k := CancelledAlone;
    var entering := s.(worker := Entering(id, k));
    var held := s.(flags := s.flags[id := HELD], worker := Bridging(id, k));
    InvHolds(START, events);
    RunConcat(s, [CancelOne(id), EnterBlock], [BridgeRaises(disarmed), RaiseBlock]);
    RunTwo(s, CancelOne(id), EnterBlock);
    CancelBegins(s, id);
    EntersCancel(entering, id, k);
    InvHolds(s, [CancelOne(id), EnterBlock]);
    RunTwo(held, BridgeRaises(disarmed), RaiseBlock);
    BridgeRaisesBack(s, held, id, disarmed);
  }

  lemma CancelBegins(s: State, id: nat)
    requires s.worker.Idle? && id in s.returned && id in s.flags
    ensures Apply(s, CancelOne(id)) == s.(worker := Entering(id, CancelledAlone))
  {}

  lemma BridgeRaisesBack(s: State, held: State, id: nat, disarmed: bool)
    requires s.worker.Idle? && id in s.flags && s.flags[id] == FRESH
    requires held == s.(flags := s.flags[id := HELD], worker := Bridging(id, CancelledAlone))
    ensures var r := Apply(held, BridgeRaises(disarmed));
      Known(r, r.worker) && Apply(r, RaiseBlock) == s.(armed := if disarmed then s.armed - {id} else s.armed)
  {
    var armed := if disarmed then s.armed - {id} else s.armed;
    assert Apply(held, BridgeRaises(disarmed)) == held.(armed := armed, worker := Raising(id, CancelledAlone));
    assert held.flags[id := FRESH] == s.flags;
  }

  /** A timer fires once, whether or not its handle is there yet. */
  lemma FiringDisarms(s: State, id: nat)
    requires Known(s, s.worker)
    ensures Apply(s, Fire(id)).armed == s.armed - {id}
  {}

  /** Only a timer that was returned is cancelled on its own, and a sweep takes only what it set out with. */
  lemma CancelsOnlyItsOwn(s: State, id: nat)
    requires Known(s, s.worker)
    ensures Apply(s, CancelOne(id)) != s ==> s.worker.Idle? && id in s.returned
    ensures Apply(s, NextCancel(id)) != s ==> s.worker.Sweeping? && id in s.worker.todo
    ensures Apply(s, BeginCancelAll) != s ==>
              Apply(s, BeginCancelAll) == s.(closed := true, worker := Sweeping(s.handles, false))
  {}

  // ----- a sweep can succeed

  ghost predicate CanBeSwept(s: State)
    requires Inv(s)
  {
    exists later :: Run(s, later).swept
  }

  lemma SweptAfter(s: State, e: Event)
    requires Inv(s) && Inv(Apply(s, e)) && CanBeSwept(Apply(s, e))
    ensures CanBeSwept(s)
  {
    hide Tracked, SweptClean, Apply, Run;
    var later :| Run(Apply(s, e), later).swept;
    RunOne(s, e);
    RunConcat(s, [e], later);
    assert Run(s, [e] + later).swept;
  }

  lemma IsSwept(s: State)
    requires Inv(s) && s.swept
    ensures CanBeSwept(s)
  {
    assert Run(s, []).swept;
  }

  /** What a sweep still has before it are handles. */
  predicate TodoIsKnown(s: State) {
    match s.worker
    case Sweeping(todo, _) => todo <= s.flags.Keys
    case Entering(_, Sweep(todo, _)) => todo <= s.flags.Keys
    case Bridging(_, Sweep(todo, _)) => todo <= s.flags.Keys
    case Raising(_, Sweep(todo, _)) => todo <= s.flags.Keys
    case Committing(_, Sweep(todo, _)) => todo <= s.flags.Keys
    case Reporting(_, Sweep(todo, _)) => todo <= s.flags.Keys
    case _ => true
  }

  lemma StepKeepsTodo(s: State, e: Event)
    requires Inv(s) && TodoIsKnown(s)
    ensures TodoIsKnown(Apply(s, e))
  {
    hide Tracked, SweptClean;
  }

  lemma {:induction false} RunKeepsTodo(s: State, events: seq<Event>)
    requires Inv(s) && TodoIsKnown(s)
    ensures TodoIsKnown(Run(s, events))
    decreases |events|
  {
    hide Tracked, SweptClean, TodoIsKnown, Apply;
    if events != [] {
      ApplyKeepsInv(s, events[0]);
      StepKeepsTodo(s, events[0]);
      RunKeepsTodo(Apply(s, events[0]), events[1..]);
    }
  }

  /** How far the worker is from the end of what it is inside, were nothing to go wrong. */
  function Distance(w: Worker): nat {
    match w
    case Idle => 0
    case Installed(_) => 8
    case Built(_) => 7
    case Entering(_, k) => 6 + Behind(k)
    case Bridging(_, k) => 5 + Behind(k)
    case Raising(_, k) => 4 + Behind(k)
    case Committing(_, k) => 4 + Behind(k)
    case Reporting(_, k) => 3 + Behind(k)
    case Sweeping(todo, _) => 1 + 7 * |todo|
  }

  function Behind(k: Resume): nat {
    if k.Sweep? then 1 + 7 * |k.todo| else 0
  }

  /** The worker is inside a sweep in which nothing has gone wrong. */
  predicate Unspoilt(w: Worker) {
    match w
    case Sweeping(_, failed) => !failed
    case Entering(_, k) => k.Sweep? && !k.failed
    case Bridging(_, k) => k.Sweep? && !k.failed
    case Committing(_, k) => k.Sweep? && !k.failed
    case Reporting(_, k) => k.Sweep? && !k.failed
    case _ => false
  }

  predicate GoneOn(s: State, t: State) {
    Distance(t.worker) < Distance(s.worker) && (Unspoilt(s.worker) ==> Unspoilt(t.worker) || t.swept)
  }

  lemma SchedulingGoesOn(s: State)
    requires Known(s, s.worker)
    ensures s.worker.Installed? ==> GoneOn(s, Apply(s, Build))
    ensures s.worker.Built? ==> GoneOn(s, Apply(s, Register))
  {}

  lemma EnteringGoesOn(s: State)
    requires Known(s, s.worker) && s.worker.Entering?
    ensures GoneOn(s, Apply(s, EnterBlock))
  {}

  lemma BridgingGoesOn(s: State)
    requires Known(s, s.worker)
    ensures s.worker.Bridging? ==> GoneOn(s, Apply(s, BridgeReturns))
    ensures s.worker.Raising? ==> GoneOn(s, Apply(s, RaiseBlock))
  {}

  lemma CommittingGoesOn(s: State)
    requires Known(s, s.worker)
    ensures s.worker.Committing? ==> GoneOn(s, Apply(s, CommitBlock))
    ensures s.worker.Reporting? ==> GoneOn(s, Apply(s, ReportCancel))
  {}

  lemma SweepingGoesOn(s: State) returns (e: Event)
    requires Known(s, s.worker) && TodoIsKnown(s) && s.worker.Sweeping?
    ensures GoneOn(s, Apply(s, e))
  {
    if s.worker.todo == {} {
      e := EndCancelAll;
    } else {
      var id :| id in s.worker.todo;
      e := NextCancel(id);
    }
  }

  lemma GoesOn(s: State) returns (e: Event)
    requires Known(s, s.worker) && TodoIsKnown(s) && !s.worker.Idle?
    ensures GoneOn(s, Apply(s, e))
  {
    hide Apply, GoneOn, TodoIsKnown;
    SchedulingGoesOn(s);
    BridgingGoesOn(s);
    CommittingGoesOn(s);
    match s.worker {
      case Installed(_) => e := Build;
      case Built(_) => e := Register;
      case Entering(_, _) =>
        EnteringGoesOn(s);
        e := EnterBlock;
      case Bridging(_, _) => e := BridgeReturns;
      case Raising(_, _) => e := RaiseBlock;
      case Committing(_, _) => e := CommitBlock;
      case Reporting(_, _) => e := ReportCancel;
      case Sweeping(_, _) => e := SweepingGoesOn(s);
    }
  }

  lemma SweepBegins(s: State)
    requires Inv(s) && s.worker.Idle?
    ensures Unspoilt(Apply(s, BeginCancelAll).worker)
  {}

  lemma {:induction false} Sweeps(s: State)
    requires Inv(s) && TodoIsKnown(s)
    ensures CanBeSwept(s)
    decreases if Unspoilt(s.worker) then 0 else 1, Distance(s.worker)
  {
    hide Tracked, SweptClean, Apply, Run, CanBeSwept, TodoIsKnown, Distance, Unspoilt;
    var e := BeginCancelAll;
    if s.swept {
      IsSwept(s);
      return;
    } else if s.worker.Idle? {
      SweepBegins(s);
      IdleIsNoSweep(s);
    } else {
      e := GoesOn(s);
    }
    ApplyKeepsInv(s, e);
    StepKeepsTodo(s, e);
    if Apply(s, e).swept {
      IsSwept(Apply(s, e));
    } else {
      Sweeps(Apply(s, e));
    }
    SweptAfter(s, e);
  }

  lemma IdleIsNoSweep(s: State)
    requires s.worker.Idle?
    ensures !Unspoilt(s.worker)
  {}

  /** From every reachable state, whatever is under way and whatever has failed before, a `cancel_all` can succeed. */
  lemma {:induction false} SweepCanSucceed(events: seq<Event>)
    ensures CanBeSwept(Run(START, events))
  {
    StartHolds();
    hide Tracked, SweptClean, Run, CanBeSwept;
    RunKeepsTodo(START, events);
    Sweeps(Run(START, events));
  }

  // ----- what is noted of a run

  lemma SweptIsNoted(s: State, e: Event)
    requires Known(s, s.worker)
    ensures Apply(s, e).swept <==>
      || (s.swept && !(e.Install? && s.worker.Idle? && Unused(s, e.id)))
      || (e.EndCancelAll? && s.worker == Sweeping({}, false))
  {}

  lemma OrphanIsNoted(s: State, e: Event, id: nat)
    requires Known(s, s.worker)
    ensures id in Apply(s, e).orphaned <==> id in s.orphaned || (e.RaiseBlock? && s.worker == Raising(id, LateCancel))
  {}

  /** A sweep is noted as succeeded exactly by the end of a `cancel_all` none of whose cancels raised, until the next
      timer is scheduled; `schedule_at` is noted as having raised exactly when the cancel it made itself raised, and
      as having returned exactly when it registered its handle or that cancel returned. */
  lemma NotedExactly(s: State, e: Event, id: nat)
    requires Inv(s)
    ensures Apply(s, e).swept <==>
      || (s.swept && !(e.Install? && s.worker.Idle? && Unused(s, e.id)))
      || (e.EndCancelAll? && s.worker == Sweeping({}, false))
    ensures id in Apply(s, e).orphaned <==> id in s.orphaned || (e.RaiseBlock? && s.worker == Raising(id, LateCancel))
    ensures id in Apply(s, e).returned <==>
      || id in s.returned
      || (e.Register? && s.worker == Built(id) && !s.closed)
      || (LateFor(s.worker, id) && EndsCancel(s, e))
  {
    hide Tracked, SweptClean, Apply;
    SweptIsNoted(s, e);
    OrphanIsNoted(s, e, id);
    ReturnIsNoted(s, e, id);
  }

  lemma ReturnIsNoted(s: State, e: Event, id: nat)
    requires Known(s, s.worker)
    ensures id in Apply(s, e).returned <==>
      || id in s.returned
      || (e.Register? && s.worker == Built(id) && !s.closed)
      || (LateFor(s.worker, id) && EndsCancel(s, e))
  {}

  /** The step by which a cancel in progress returns. */
  predicate EndsCancel(s: State, e: Event)
    requires Known(s, s.worker)
  {
    match (e, s.worker)
    case (EnterBlock, Entering(id, _)) => s.flags[id].cancelled || s.flags[id].cancelling
    case (CommitBlock, Committing(id, _)) => s.flags[id].cancelled
    case (ReportCancel, Reporting(_, _)) => true
    case _ => false
  }
}
