/** The scheduler as a transition system. `schedule_at`, `cancel` and `cancel_all` run on the single
    worker, one at a time; timers fire on the event loop at any moment, also between two lock blocks.
    A firing between the handle's construction and its registration is not excluded. */
module SchedulerRuns {
  import opened TimerHandle

  /** What the worker resumes once a `cancel` call returns or raises. */
  datatype Resume = CancelledAlone | Sweep(todo: set<nat>, failed: bool) | LateCancel

  datatype Worker =
    | Idle
    | Installed(id: nat)                 // timer armed on the loop, no handle yet
    | Built(id: nat)                     // the callback can see the handle, the set cannot
    | Entering(id: nat, k: Resume)       // about to take cancel's first lock block
    | Bridging(id: nat, k: Resume)       // the loop still has to run the timer's cancel callback
    | Raising(id: nat, k: Resume)        // the bridged call raised
    | Committing(id: nat, k: Resume)     // the bridged call returned
    | Reporting(id: nat, k: Resume)      // the handle is finished, its discard is due
    | Sweeping(todo: set<nat>, failed: bool)

  /** `handles` and `closed` are the scheduler's own; `armed` are Home Assistant's timers; `claiming`
      are callbacks past the claim block whose discard is due. The rest observes: `delivered` the callbacks
      handed out, `returned` the handles `schedule_at` gave back, `orphaned` those it raised for, `lost`
      those registered after their discard, `swept` that `cancel_all` succeeded and nothing was scheduled since. */
  datatype State = State(
    flags: map<nat, Flags>, handles: set<nat>, closed: bool, armed: set<nat>, claiming: set<nat>,
    worker: Worker, delivered: set<nat>, returned: set<nat>, orphaned: set<nat>, lost: set<nat>, swept: bool)

  const START := State(map[], {}, false, {}, {}, Idle, {}, {}, {}, {}, false)

  datatype Event =
    | Install(id: nat) | Build | Register
    | CancelOne(id: nat) | BeginCancelAll | NextCancel(id: nat) | EndCancelAll
    | EnterBlock | BridgeReturns | BridgeRaises(disarmed: bool) | RaiseBlock | CommitBlock | ReportCancel
    | Fire(id: nat) | FinishClaim(id: nat)

  /** Where the worker goes after a cancel that returned (`ok`) or raised. */
  function Resumed(k: Resume, ok: bool): Worker {
    match k
    case Sweep(todo, failed) => Sweeping(todo, failed || !ok)
    case _ => Idle
  }

  /** A late cancel decides whether `schedule_at` returns its handle or raises. */
  function AfterCancel(s: State, id: nat, k: Resume, ok: bool): State {
    s.(worker := Resumed(k, ok),
       returned := if k.LateCancel? && ok then s.returned + {id} else s.returned,
       orphaned := if k.LateCancel? && !ok then s.orphaned + {id} else s.orphaned)
  }

  predicate Released(s: State) {
    s.closed && s.handles == {}
  }

  predicate Known(s: State, w: Worker) {
    (w.Built? || w.Entering? || w.Bridging? || w.Raising? || w.Committing? || w.Reporting?) ==> w.id in s.flags
  }

  /** Scheduling: install the timer on the loop, build the handle, register it. */
  function ScheduleStep(s: State, e: Event): State
    requires Known(s, s.worker)
  {
    match (e, s.worker)
    case (Install(id), Idle) =>
      if id in s.flags || id in s.armed then s
      else s.(armed := s.armed + {id}, worker := Installed(id), swept := false)
    case (Build, Installed(id)) =>
      s.(flags := s.flags[id := FRESH], worker := Built(id))
    case (Register, Built(id)) =>
      if s.closed then s.(worker := Entering(id, LateCancel))
      else s.(handles := s.handles + {id}, returned := s.returned + {id}, worker := Idle,
              lost := if s.flags[id].cancelled && id !in s.claiming then s.lost + {id} else s.lost)
    case _ => s
  }

  /** Cancelling: one handle or all of them, each through its lock blocks and the bridge. */
  function CancelStep(s: State, e: Event): State
    requires Known(s, s.worker)
  {
    match (e, s.worker)
    case (CancelOne(id), Idle) =>
      if id in s.returned && id in s.flags then s.(worker := Entering(id, CancelledAlone)) else s
    case (BeginCancelAll, Idle) =>
      s.(closed := true, worker := Sweeping(s.handles, false))
    case (NextCancel(id), Sweeping(todo, failed)) =>
      if id in todo && id in s.flags then s.(worker := Entering(id, Sweep(todo - {id}, failed))) else s
    case (EndCancelAll, Sweeping(todo, failed)) =>
      if todo != {} then s else s.(worker := Idle, swept := s.swept || !failed)
    case (EnterBlock, Entering(id, k)) =>
      var (f, proceed) := BeginCancel(s.flags[id]);
      if proceed then s.(flags := s.flags[id := f], worker := Bridging(id, k)) else AfterCancel(s, id, k, true)
    case (BridgeReturns, Bridging(id, k)) =>
      s.(armed := s.armed - {id}, worker := Committing(id, k))
    case (BridgeRaises(disarmed), Bridging(id, k)) =>
      s.(armed := if disarmed then s.armed - {id} else s.armed, worker := Raising(id, k))
    case (RaiseBlock, Raising(id, k)) =>
      AfterCancel(s.(flags := s.flags[id := FailCancel(s.flags[id])]), id, k, false)
    case (CommitBlock, Committing(id, k)) =>
      var (f, report) := CommitCancel(s.flags[id]);
      var t := s.(flags := s.flags[id := f]);
      if report then t.(worker := Reporting(id, k)) else AfterCancel(t, id, k, true)
    case (ReportCancel, Reporting(id, k)) =>
      AfterCancel(s.(handles := s.handles - {id}), id, k, true)
    case _ => s
  }

  /** The loop: a timer fires once, claims its handle if it has one, then discards it. */
  function LoopStep(s: State, e: Event): State {
    match e
    case Fire(id) =>
      if id !in s.armed then s
      else if id !in s.flags then s.(armed := s.armed - {id})
      else
        var (f, report, run) := Claim(s.flags[id]);
        s.(armed := s.armed - {id}, flags := s.flags[id := f],
           claiming := if report then s.claiming + {id} else s.claiming,
           delivered := if run then s.delivered + {id} else s.delivered)
    case FinishClaim(id) =>
      if id in s.claiming then s.(claiming := s.claiming - {id}, handles := s.handles - {id}) else s
    case _ => s
  }

  function Apply(s: State, e: Event): State
    requires Known(s, s.worker)
  {
    if e.Install? || e.Build? || e.Register? then ScheduleStep(s, e)
    else if e.Fire? || e.FinishClaim? then LoopStep(s, e)
    else CancelStep(s, e)
  }

  /** The handle a cancel in progress holds. */
  predicate Holds(w: Worker, id: nat) {
    (w.Bridging? || w.Raising? || w.Committing?) && w.id == id
  }

  predicate LateFor(w: Worker, id: nat) {
    (w.Entering? || w.Bridging? || w.Raising? || w.Committing? || w.Reporting?) && w.k.LateCancel? && w.id == id
  }

  predicate Scheduling(w: Worker, id: nat) {
    (w.Built? && w.id == id) || LateFor(w, id)
  }

  /** What a sweep without a failure still has to cancel. */
  predicate StillToCancel(w: Worker, id: nat) {
    match w
    case Sweeping(todo, failed) => failed || id in todo
    case Entering(i, Sweep(todo, failed)) => failed || id in todo || id == i
    case Bridging(i, Sweep(todo, failed)) => failed || id in todo || id == i
    case Raising(_, Sweep(_, _)) => true
    case Committing(i, Sweep(todo, failed)) => failed || id in todo || id == i
    case Reporting(i, Sweep(todo, failed)) => failed || id in todo
    case _ => true
  }

  predicate InSweep(w: Worker) {
    w.Sweeping? || ((w.Entering? || w.Bridging? || w.Raising? || w.Committing? || w.Reporting?) && w.k.Sweep?)
  }

  /** Every built handle was returned, raised for, or is being scheduled right now. */
  ghost predicate Accounted(s: State) {
    && Known(s, s.worker)
    && s.handles <= s.returned && s.returned <= s.flags.Keys && s.orphaned <= s.flags.Keys
    && s.claiming <= s.flags.Keys && s.delivered <= s.flags.Keys
    && (s.worker.Installed? ==> s.worker.id !in s.flags)
    && (forall id <- s.flags :: id in s.returned || id in s.orphaned || Scheduling(s.worker, id))
    && (forall id <- s.flags :: Scheduling(s.worker, id) ==> id !in s.returned && id !in s.orphaned)
    && s.returned !! s.orphaned
    && (forall id <- s.flags :: s.flags[id].cancelling <==> Holds(s.worker, id))
  }

  /** An unfinished returned timer is in the set; a finished one in the set is on its way out or lost. */
  ghost predicate Tracked(s: State)
    requires Accounted(s)
  {
    && (forall id <- s.returned :: s.flags[id].cancelled || id in s.handles)
    && (forall id <- s.handles :: s.flags[id].cancelled ==> id in s.claiming || id in s.lost || s.worker.Reporting?)
    && (forall id <- s.handles :: s.flags[id].cancelled && s.worker.Reporting? && s.worker.id != id ==>
          id in s.claiming || id in s.lost)
    && s.lost <= s.handles
    && (forall id <- s.lost :: s.flags[id].cancelled && id !in s.claiming)
    && (forall id <- s.claiming :: s.flags[id].cancelled)
    && (forall id <- s.delivered :: s.flags[id].cancelled)
    && (s.worker.Reporting? ==>
          s.flags[s.worker.id].cancelled && s.worker.id !in s.claiming && s.worker.id !in s.lost)
  }

  /** A sweep without a failure leaves no returned handle unfinished behind it. */
  ghost predicate SweptClean(s: State)
    requires Accounted(s)
  {
    && (InSweep(s.worker) ==>
          s.closed && (forall id <- s.returned :: s.flags[id].cancelled || StillToCancel(s.worker, id)))
    && (s.swept ==>
          && s.closed && !s.worker.Installed?
          && (forall id <- s.returned :: s.flags[id].cancelled)
          && (forall id <- s.flags :: !Scheduling(s.worker, id)))
  }

  ghost predicate Inv(s: State) {
    Accounted(s) && Tracked(s) && SweptClean(s)
  }

  lemma InstallKeepsInv(s: State, e: Event)
    requires Inv(s) && e.Install?
    ensures Inv(ScheduleStep(s, e))
  {}

  lemma BuildKeepsInv(s: State, e: Event)
    requires Inv(s) && e.Build?
    ensures Inv(ScheduleStep(s, e))
  {}

  lemma RegisterKeepsInv(s: State, e: Event)
    requires Inv(s) && e.Register?
    ensures Inv(ScheduleStep(s, e))
  {}

  predicate SweepEvent(e: Event) {
    e.CancelOne? || e.BeginCancelAll? || e.NextCancel? || e.EndCancelAll?
  }

  lemma SweepKeepsAccounted(s: State, e: Event)
    requires Inv(s) && SweepEvent(e)
    ensures Accounted(CancelStep(s, e))
  {
    hide Tracked, SweptClean;
  }

  lemma SweepKeepsTracked(s: State, e: Event)
    requires Inv(s) && SweepEvent(e) && Accounted(CancelStep(s, e))
    ensures Tracked(CancelStep(s, e))
  {
    hide Accounted, SweptClean;
    AccountedIsKnown(s);
  }

  lemma SweepKeepsInv(s: State, e: Event)
    requires Inv(s) && SweepEvent(e)
    ensures Inv(CancelStep(s, e))
  {
    SweepKeepsAccounted(s, e);
    SweepKeepsTracked(s, e);
  }

  lemma AccountedIsKnown(s: State)
    requires Accounted(s)
    ensures Known(s, s.worker)
  {}

  lemma EnterKeepsAccounted(s: State, e: Event)
    requires Inv(s) && e.EnterBlock?
    ensures Accounted(CancelStep(s, e))
  {
    hide Tracked, SweptClean;
  }

  lemma EnterKeepsTracked(s: State, e: Event)
    requires Inv(s) && e.EnterBlock?
    ensures Accounted(CancelStep(s, e)) && Tracked(CancelStep(s, e))
  {
    EnterKeepsAccounted(s, e);
    if s.worker.Entering? {
      var (id, k) := (s.worker.id, s.worker.k);
      if BeginCancel(s.flags[id]).1 {
        assert CancelStep(s, e) ==
          s.(flags := s.flags[id := s.flags[id].(cancelling := true)], worker := Bridging(id, k));
      } else {
        assert CancelStep(s, e) == AfterCancel(s, id, k, true);
      }
    }
  }

  lemma EnterKeepsInv(s: State, e: Event)
    requires Inv(s) && e.EnterBlock?
    ensures Inv(CancelStep(s, e))
  {
    hide Tracked;
    EnterKeepsTracked(s, e);
  }

  lemma BridgeKeepsInv(s: State, e: Event)
    requires Inv(s) && (e.BridgeReturns? || e.BridgeRaises?)
    ensures Inv(CancelStep(s, e))
  {}

  lemma RaiseKeepsAccounted(s: State, e: Event)
    requires Inv(s) && e.RaiseBlock?
    ensures Accounted(CancelStep(s, e))
  {
    hide Tracked, SweptClean;
  }

  lemma RaiseKeepsInv(s: State, e: Event)
    requires Inv(s) && e.RaiseBlock?
    ensures Inv(CancelStep(s, e))
  {
    RaiseKeepsAccounted(s, e);
  }

  lemma ClaimedMeanwhileKeepsAccounted(s: State, id: nat, k: Resume)
    requires Accounted(s) && s.worker == Committing(id, k) && s.flags[id].cancelled
    ensures Accounted(CancelStep(s, CommitBlock))
  {
    assert CancelStep(s, CommitBlock) == AfterCancel(s.(flags := s.flags[id := Flags(false, true)]), id, k, true);
  }

  lemma CommittedKeepsAccounted(s: State, id: nat, k: Resume)
    requires Accounted(s) && s.worker == Committing(id, k) && !s.flags[id].cancelled
    ensures Accounted(CancelStep(s, CommitBlock))
  {
    assert CancelStep(s, CommitBlock) == s.(flags := s.flags[id := Flags(false, true)], worker := Reporting(id, k));
  }

  lemma CommitKeepsAccounted(s: State, e: Event)
    requires Inv(s) && e.CommitBlock?
    ensures Accounted(CancelStep(s, e))
  {
    hide Tracked, SweptClean;
    if s.worker.Committing? {
      if s.flags[s.worker.id].cancelled {
        ClaimedMeanwhileKeepsAccounted(s, s.worker.id, s.worker.k);
      } else {
        CommittedKeepsAccounted(s, s.worker.id, s.worker.k);
      }
    }
  }

  lemma CommitKeepsTracked(s: State, e: Event)
    requires Inv(s) && e.CommitBlock?
    ensures Accounted(CancelStep(s, e)) && Tracked(CancelStep(s, e))
  {
    CommitKeepsAccounted(s, e);
    if s.worker.Committing? {
      if s.flags[s.worker.id].cancelled {
        ClaimedMeanwhileKeepsTracked(s, s.worker.id, s.worker.k);
      } else {
        CommittedKeepsTracked(s, s.worker.id, s.worker.k);
      }
    }
  }

  lemma ClaimedMeanwhileKeepsTracked(s: State, id: nat, k: Resume)
    requires Inv(s) && s.worker == Committing(id, k) && s.flags[id].cancelled && Accounted(CancelStep(s, CommitBlock))
    ensures Tracked(CancelStep(s, CommitBlock))
  {
    hide SweptClean;
    var t := CancelStep(s, CommitBlock);
    assert t == AfterCancel(s.(flags := s.flags[id := Flags(false, true)]), id, k, true);
    assert forall i <- s.flags :: t.flags[i].cancelled == s.flags[i].cancelled;
  }

  lemma CommittedKeepsTracked(s: State, id: nat, k: Resume)
    requires Inv(s) && s.worker == Committing(id, k) && !s.flags[id].cancelled && Accounted(CancelStep(s, CommitBlock))
    ensures Tracked(CancelStep(s, CommitBlock))
  {
    hide SweptClean;
    var t := CancelStep(s, CommitBlock);
    assert t == s.(flags := s.flags[id := Flags(false, true)], worker := Reporting(id, k));
    assert forall i <- s.flags :: t.flags[i].cancelled == (s.flags[i].cancelled || i == id);
  }

  lemma CommitKeepsInv(s: State, e: Event)
    requires Inv(s) && e.CommitBlock?
    ensures Inv(CancelStep(s, e))
  {
    hide Tracked;
    CommitKeepsTracked(s, e);
  }

  lemma ReportKeepsAccounted(s: State, e: Event)
    requires Inv(s) && e.ReportCancel?
    ensures Accounted(CancelStep(s, e))
  {
    hide Tracked, SweptClean;
  }

  lemma ReportKeepsInv(s: State, e: Event)
    requires Inv(s) && e.ReportCancel?
    ensures Inv(CancelStep(s, e))
  {
    ReportKeepsAccounted(s, e);
  }

  lemma FireKeepsAccounted(s: State, e: Event)
    requires Inv(s) && e.Fire?
    ensures Accounted(LoopStep(s, e))
  {
    hide Tracked, SweptClean;
  }

  /** The one firing that changes the handle: it is armed, built and unfinished. */
  lemma ClaimKeepsTracked(s: State, id: nat)
    requires Inv(s) && id in s.armed && id in s.flags && !s.flags[id].cancelled
    requires Accounted(LoopStep(s, Fire(id)))
    ensures Tracked(LoopStep(s, Fire(id)))
  {
    var t := LoopStep(s, Fire(id));
    assert t.flags == s.flags[id := Flags(s.flags[id].cancelling, true)];
    assert t.claiming == s.claiming + {id};
    assert t.handles == s.handles && t.lost == s.lost && t.worker == s.worker;
  }

  lemma FireKeepsTracked(s: State, e: Event)
    requires Inv(s) && e.Fire?
    ensures Accounted(LoopStep(s, e)) && Tracked(LoopStep(s, e))
  {
    hide SweptClean;
    FireKeepsAccounted(s, e);
    if e.id in s.armed && e.id in s.flags && !s.flags[e.id].cancelled {
      ClaimKeepsTracked(s, e.id);
    } else {
      assert LoopStep(s, e) == s.(armed := LoopStep(s, e).armed);
    }
  }

  lemma FireKeepsInv(s: State, e: Event)
    requires Inv(s) && e.Fire?
    ensures Inv(LoopStep(s, e))
  {
    hide Tracked;
    FireKeepsTracked(s, e);
  }

  lemma FinishClaimKeepsInv(s: State, e: Event)
    requires Inv(s) && e.FinishClaim?
    ensures Inv(LoopStep(s, e))
  {}

  lemma ApplyKeepsInv(s: State, e: Event)
    requires Inv(s)
    ensures Inv(Apply(s, e))
  {
    hide Tracked, SweptClean, ScheduleStep, CancelStep, LoopStep;
    match e
    case Install(_) => InstallKeepsInv(s, e);
    case Build => BuildKeepsInv(s, e);
    case Register => RegisterKeepsInv(s, e);
    case CancelOne(_) => SweepKeepsInv(s, e);
    case BeginCancelAll => SweepKeepsInv(s, e);
    case NextCancel(_) => SweepKeepsInv(s, e);
    case EndCancelAll => SweepKeepsInv(s, e);
    case EnterBlock => EnterKeepsInv(s, e);
    case BridgeReturns => BridgeKeepsInv(s, e);
    case BridgeRaises(_) => BridgeKeepsInv(s, e);
    case RaiseBlock => RaiseKeepsInv(s, e);
    case CommitBlock => CommitKeepsInv(s, e);
    case ReportCancel => ReportKeepsInv(s, e);
    case Fire(_) => FireKeepsInv(s, e);
    case FinishClaim(_) => FinishClaimKeepsInv(s, e);
  }

  ghost function Run(s: State, events: seq<Event>): (t: State)
    requires Inv(s)
    ensures Inv(t)
    decreases |events|
  {
    if events == [] then s
    else
      ApplyKeepsInv(s, events[0]);
      Run(Apply(s, events[0]), events[1..])
  }

  /** Every unfinished timer whose `schedule_at` returned is tracked by the scheduler. */
  lemma {:induction false} UnfinishedTimersAreTracked(events: seq<Event>, id: nat)
    requires id in Run(START, events).returned
    ensures var s := Run(START, events); id in s.flags && (s.flags[id].cancelled || id in s.handles)
  {}

  /** A callback is handed out exactly by the firing of an armed timer whose handle is built, unfinished and not
      held by a cancel in progress, whatever that cancel comes to. */
  lemma DeliveredExactlyWhenFree(s: State, e: Event, id: nat)
    requires Inv(s) && id !in s.delivered
    ensures id in Apply(s, e).delivered <==>
      && e == Fire(id) && id in s.armed && id in s.flags && !s.flags[id].cancelled && !Holds(s.worker, id)
  {}

  predicate Finished(s: State, id: nat) {
    id in s.flags && s.flags[id].cancelled
  }

  /** A finished handle stays finished, and no step hands out its callback any more. */
  lemma FinishedStaysSilent(s: State, e: Event, id: nat)
    requires Inv(s) && Finished(s, id)
    ensures Finished(Apply(s, e), id)
    ensures id in Apply(s, e).delivered ==> id in s.delivered
  {
    hide Tracked, SweptClean, ScheduleStep, CancelStep, LoopStep;
    ScheduleKeepsFinished(s, e, id);
    CancelKeepsFinished(s, e, id);
    FiringKeepsFinished(s, e, id);
  }

  lemma ScheduleKeepsFinished(s: State, e: Event, id: nat)
    requires Accounted(s) && Finished(s, id)
    ensures Finished(ScheduleStep(s, e), id) && ScheduleStep(s, e).delivered == s.delivered
  {}

  lemma CancelKeepsFinished(s: State, e: Event, id: nat)
    requires Known(s, s.worker) && Finished(s, id)
    ensures Finished(CancelStep(s, e), id) && CancelStep(s, e).delivered == s.delivered
  {}

  lemma FiringKeepsFinished(s: State, e: Event, id: nat)
    requires Finished(s, id)
    ensures Finished(LoopStep(s, e), id) && (id in LoopStep(s, e).delivered ==> id in s.delivered)
  {}

  lemma {:induction false} FinishedDeliversNoMore(s: State, events: seq<Event>, id: nat)
    requires Inv(s) && Finished(s, id)
    ensures id in Run(s, events).delivered ==> id in s.delivered
    decreases |events|
  {
    hide Tracked, SweptClean;
    if events != [] {
      ApplyKeepsInv(s, events[0]);
      FinishedStaysSilent(s, events[0], id);
      FinishedDeliversNoMore(Apply(s, events[0]), events[1..], id);
    }
  }

  /** The timers that `schedule_at` starts to install in these events. */
  function Scheduled(events: seq<Event>): set<nat> {
    set e | e in events && e.Install? :: e.id
  }

  function Ids(s: State): set<nat> {
    s.flags.Keys + (if s.worker.Installed? then {s.worker.id} else {})
  }

  lemma StepAddsScheduled(s: State, e: Event)
    requires Inv(s)
    ensures Ids(Apply(s, e)) <= Ids(s) + (if e.Install? then {e.id} else {})
  {}

  lemma {:induction false} OnlyScheduledIdsAreNew(s: State, events: seq<Event>)
    requires Inv(s)
    ensures Ids(Run(s, events)) <= Ids(s) + Scheduled(events)
    decreases |events|
  {
    hide Tracked, SweptClean, Ids;
    if events != [] {
      ApplyKeepsInv(s, events[0]);
      StepAddsScheduled(s, events[0]);
      OnlyScheduledIdsAreNew(Apply(s, events[0]), events[1..]);
      assert Scheduled(events[1..]) <= Scheduled(events);
      assert events[0].Install? ==> events[0].id in Scheduled(events);
    }
  }

  /** A `cancel_all` that succeeded silences every timer whose `schedule_at` had returned, for good and whatever is
      scheduled, fired or cancelled afterwards. Callbacks can then only come from timers scheduled since, or
      whose `schedule_at` had raised on an already closed scheduler. */
  lemma {:induction false} SweepSilencesTimers(s: State, events: seq<Event>)
    requires Inv(s) && s.swept
    ensures forall id <- s.returned :: id in Run(s, events).delivered ==> id in s.delivered
    ensures Run(s, events).delivered <= s.delivered + s.orphaned + Scheduled(events)
  {
    forall id <- s.returned ensures id in Run(s, events).delivered ==> id in s.delivered {
      FinishedDeliversNoMore(s, events, id);
    }
    OnlyScheduledIdsAreNew(s, events);
    forall id <- Run(s, events).delivered ensures id in s.delivered + s.orphaned + Scheduled(events) {
      assert id in Run(s, events).flags;
    }
  }

  predicate NoScheduling(events: seq<Event>) {
    forall e <- events :: !e.Install?
  }

  /** Until something is scheduled again the scheduler stays swept, and no timer joins the orphans. */
  lemma {:induction false} StaysSweptUntilScheduled(s: State, events: seq<Event>)
    requires Inv(s) && s.swept && NoScheduling(events)
    ensures Run(s, events).swept && Run(s, events).orphaned == s.orphaned
    ensures Run(s, events).delivered <= s.delivered + s.orphaned
    decreases |events|
  {
    hide Tracked, SweptClean;
    assert Scheduled(events) == {};
    SweepSilencesTimers(s, events);
    if events != [] {
      ApplyKeepsInv(s, events[0]);
      SweptStepStaysSwept(s, events[0]);
      StaysSweptUntilScheduled(Apply(s, events[0]), events[1..]);
    }
  }

  lemma SweptStepStaysSwept(s: State, e: Event)
    requires Inv(s) && s.swept && !e.Install?
    ensures Apply(s, e).swept && Apply(s, e).orphaned == s.orphaned
  {}

  /** Exactly when the swept scheduler reports itself released: once no claim is in progress, the handles
      left are those whose discard came before their registration, so one lost handle blocks it. */
  lemma {:induction false} SweptIsReleasedIff(s: State)
    requires Inv(s) && s.swept && s.claiming == {} && !s.worker.Reporting?
    ensures s.handles == s.lost
    ensures Released(s) <==> s.lost == {}
  {
    forall id <- s.handles ensures id in s.lost {
      assert id in s.returned;
    }
  }

  /** A lost handle is never discarded: the scheduler can then not be released by any run. */
  lemma {:induction false} LostHandleBlocksRelease(s: State, events: seq<Event>, id: nat)
    requires Inv(s) && id in s.lost
    ensures id in Run(s, events).lost && !Released(Run(s, events))
    decreases |events|
  {
    if events != [] {
      var e := events[0];
      ApplyKeepsInv(s, e);
      LostStaysLost(s, e, id);
      LostHandleBlocksRelease(Apply(s, e), events[1..], id);
    }
  }

  lemma LostStaysLost(s: State, e: Event, id: nat)
    requires Inv(s) && id in s.lost
    ensures id in Apply(s, e).lost
  {}

  /** A handle is lost exactly by a registration that finds it finished with its discard already made:
      the timer fired, and discarded, between the handle's construction and its registration. */
  lemma LostExactlyInTheWindow(s: State, e: Event, id: nat)
    requires Inv(s) && id !in s.lost
    ensures id in Apply(s, e).lost <==>
      && e.Register? && s.worker == Built(id) && !s.closed
      && s.flags[id].cancelled && id !in s.claiming
  {}

  const INSTALLED_ZERO := START.(armed := {0}, worker := Installed(0))
  const BUILT_ZERO := INSTALLED_ZERO.(flags := map[0 := FRESH], worker := Built(0))
  const FIRED_ZERO := BUILT_ZERO.(flags := map[0 := Flags(false, true)], armed := {}, claiming := {0}, delivered := {0})
  const DISCARDED_ZERO := FIRED_ZERO.(claiming := {})

  lemma WindowOpens()
    ensures Inv(START)
    ensures Apply(START, Install(0)) == INSTALLED_ZERO
    ensures Apply(INSTALLED_ZERO, Build) == BUILT_ZERO
  {
    assert {} + {0} == {0} && START.flags[0 := FRESH] == map[0 := FRESH];
  }

  lemma WindowFires()
    ensures Apply(BUILT_ZERO, Fire(0)) == FIRED_ZERO
    ensures Apply(FIRED_ZERO, FinishClaim(0)) == DISCARDED_ZERO
  {
    assert BUILT_ZERO.flags[0 := Flags(false, true)] == map[0 := Flags(false, true)];
    assert BUILT_ZERO.armed - {0} == {} && BUILT_ZERO.claiming + {0} == {0} && BUILT_ZERO.delivered + {0} == {0};
    assert FIRED_ZERO.claiming - {0} == {} && FIRED_ZERO.handles - {0} == {};
  }

  lemma WindowCloses()
    ensures Apply(DISCARDED_ZERO, Register).lost == {0}
  {}

  const WINDOW: seq<Event> := [Install(0), Build, Fire(0), FinishClaim(0), Register]

  lemma RunUnfolds(s: State, events: seq<Event>)
    requires Inv(s) && events != []
    ensures Inv(Apply(s, events[0])) && Run(s, events) == Run(Apply(s, events[0]), events[1..])
  {
    hide Tracked, SweptClean, Apply;
    ApplyKeepsInv(s, events[0]);
  }

  /** The window is real: install, build, fire, discard, register loses the handle of timer 0. */
  lemma WindowFiringLosesAHandle()
    ensures Inv(START) && Run(START, WINDOW).lost == {0}
  {
    hide Inv, Apply, Run;
    WindowOpens();
    WindowFires();
    WindowCloses();
    RunUnfolds(START, WINDOW);
    RunUnfolds(INSTALLED_ZERO, WINDOW[1..]);
    RunUnfolds(BUILT_ZERO, WINDOW[1..][1..]);
    RunUnfolds(FIRED_ZERO, WINDOW[1..][1..][1..]);
    RunUnfolds(DISCARDED_ZERO, WINDOW[1..][1..][1..][1..]);
    assert WINDOW[1..][1..][1..][1..][1..] == [];
    RunEnds(Apply(DISCARDED_ZERO, Register));
  }

  lemma RunEnds(s: State)
    requires Inv(s)
    ensures Run(s, []) == s
  {}
}
