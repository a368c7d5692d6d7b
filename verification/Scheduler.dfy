/** The one-shot timer handle: two flags under one lock, contended by `cancel` on the worker
    thread and by the timer callback on the event loop. Every lock-protected block is one step. */
module TimerHandle {

  datatype Flags = Flags(cancelling: bool, cancelled: bool)

  const FRESH := Flags(false, false)

  /** First lock block of `cancel`: the flags, and whether this call goes on to the bridge. */
  function BeginCancel(f: Flags): (Flags, bool) {
    if f.cancelled || f.cancelling then (f, false) else (f.(cancelling := true), true)
  }

  /** Lock block of `cancel` after the bridged call raised. */
  function FailCancel(f: Flags): Flags {
    f.(cancelling := false)
  }

  /** Last lock block of `cancel`: the flags, and whether this call reports the handle finished. */
  function CommitCancel(f: Flags): (Flags, bool) {
    (Flags(false, true), !f.cancelled)
  }

  /** Lock block of `claim_callback`: the flags, whether it reports finished, whether the callback runs. */
  function Claim(f: Flags): (Flags, bool, bool) {
    if f.cancelled then (f, false, false) else (f.(cancelled := true), true, !f.cancelling)
  }

  /** What an observer of one handle can count: calls inside `cancel` past its first block, finish
      reports due and made, callbacks handed out, and cancels that ended the handle. */
  datatype Observed = Observed(flags: Flags, inProgress: nat, due: nat, reports: nat, claims: nat, commits: nat)

  const START := Observed(FRESH, 0, 0, 0, 0, 0)

  datatype Step = EnterCancel | RaiseCancel | EndCancel | TimerFires | Report

  /** One step by any thread; a step whose caller is not at that point leaves the handle alone. */
  function Apply(o: Observed, step: Step): Observed {
    match step
    case EnterCancel =>
      var (f, proceed) := BeginCancel(o.flags);
      o.(flags := f, inProgress := if proceed then o.inProgress + 1 else o.inProgress)
    case RaiseCancel =>
      if o.inProgress == 0 then o
      else o.(flags := FailCancel(o.flags), inProgress := o.inProgress - 1)
    case EndCancel =>
      if o.inProgress == 0 then o
      else
        var (f, report) := CommitCancel(o.flags);
        o.(flags := f, inProgress := o.inProgress - 1,
           due := if report then o.due + 1 else o.due, commits := if report then o.commits + 1 else o.commits)
    case TimerFires =>
      var (f, report, run) := Claim(o.flags);
      o.(flags := f, due := if report then o.due + 1 else o.due, claims := if run then o.claims + 1 else o.claims)
    case Report =>
      if o.due == 0 then o else o.(due := o.due - 1, reports := o.reports + 1)
  }

  function Run(o: Observed, steps: seq<Step>): Observed
    decreases |steps|
  {
    if steps == [] then o else Run(Apply(o, steps[0]), steps[1..])
  }

  predicate Inv(o: Observed) {
    && o.inProgress == (if o.flags.cancelling then 1 else 0)
    && o.due + o.reports == (if o.flags.cancelled then 1 else 0)
    && o.claims + o.commits <= o.due + o.reports
  }

  lemma {:induction false} RunKeepsInv(o: Observed, steps: seq<Step>)
    requires Inv(o)
    ensures Inv(Run(o, steps))
    decreases |steps|
  {
    if steps != [] {
      RunKeepsInv(Apply(o, steps[0]), steps[1..]);
    }
  }

  /** Whatever cancels, failing cancels and firings interleave: one callback at most, never together
      with a cancel that ended the handle, and a finished handle is reported exactly once. */
  lemma {:induction false} ClaimedAndReportedOnce(steps: seq<Step>)
    ensures OnceOnly(Run(START, steps))
  {
    RunKeepsInv(START, steps);
    InvIsOnceOnly(Run(START, steps));
  }

  predicate OnceOnly(o: Observed) {
    && o.claims + o.commits <= 1
    && o.inProgress <= 1
    && (o.flags.cancelled && o.due == 0 ==> o.reports == 1)
    && (!o.flags.cancelled ==> o.reports == 0 && o.claims == 0)
  }

  lemma InvIsOnceOnly(o: Observed)
    requires Inv(o)
    ensures OnceOnly(o)
  {}

  /** In every reachable state a firing hands out the callback exactly when no cancel is in progress
      and the handle has not finished. */
  lemma {:induction false} FiringRunsCallbackIff(steps: seq<Step>)
    ensures var o := Run(START, steps);
      Apply(o, TimerFires).claims == o.claims + 1 <==> o.inProgress == 0 && o.due + o.reports == 0
  {
    RunKeepsInv(START, steps);
  }

  /** The handle is finished: its one finish report is due or made. */
  predicate Finished(o: Observed) {
    o.due + o.reports > 0
  }

  function One(holds: bool): nat {
    if holds then 1 else 0
  }

  /** In every reachable state: a handle is finished by the first firing or by the end of a cancel, whichever comes
      first, and by nothing else; a cancel is past its first block exactly from an entry that finds the handle
      unfinished and no other cancel there to its own end or raise; and each report that is due is made once. */
  lemma {:induction false} HandleGoesOn(steps: seq<Step>, step: Step)
    ensures var o := Run(START, steps);
      var t := Apply(o, step);
      && (Finished(t) <==> Finished(o) || step.TimerFires? || (step.EndCancel? && o.inProgress == 1))
      && (t.inProgress == match step
          case EnterCancel => if Finished(o) then o.inProgress else 1
          case TimerFires => o.inProgress
          case Report => o.inProgress
          case _ => 0)
      && t.reports == o.reports + One(step.Report? && o.due > 0)
      && t.commits == o.commits + One(step.EndCancel? && o.inProgress == 1 && !Finished(o))
      && t.claims == o.claims + One(step.TimerFires? && o.inProgress == 0 && !Finished(o))
  {
    RunKeepsInv(START, steps);
  }

  /** A firing refused because of a cancel in progress is lost for good, even if that cancel then fails. */
  lemma {:induction false} RefusedFiringIsLost(o: Observed, steps: seq<Step>)
    requires Inv(o) && o.flags == Flags(true, false)
    ensures Run(Apply(Apply(o, TimerFires), RaiseCancel), steps).claims == o.claims
  {
    CancelledHandsOutNothing(Apply(Apply(o, TimerFires), RaiseCancel), steps);
  }

  lemma {:induction false} CancelledHandsOutNothing(o: Observed, steps: seq<Step>)
    requires o.flags.cancelled
    ensures Run(o, steps).claims == o.claims && Run(o, steps).flags.cancelled
    decreases |steps|
  {
    if steps != [] {
      CancelledHandsOutNothing(Apply(o, steps[0]), steps[1..]);
    }
  }

  /** `_HomeAssistantScheduledTaskHandle`, lock block by lock block. */
  class ScheduledTaskHandle {
    var cancelling: bool
    var cancelled: bool

    function View(): Flags
      reads this
    {
      Flags(cancelling, cancelled)
    }

    constructor ()
      ensures View() == FRESH
    {
      cancelling, cancelled := false, false;
    }

    method BeginCancelBlock() returns (proceed: bool)
      modifies this
      ensures (View(), proceed) == BeginCancel(old(View()))
    {
      if cancelled || cancelling {
        return false;
      }
      cancelling := true;
      return true;
    }

    method FailCancelBlock()
      modifies this
      ensures View() == FailCancel(old(View()))
    {
      cancelling := false;
    }

    method CommitCancelBlock() returns (report: bool)
      modifies this
      ensures (View(), report) == CommitCancel(old(View()))
    {
      cancelling := false;
      if cancelled {
        return false;
      }
      cancelled := true;
      return true;
    }

    method ClaimCallback() returns (report: bool, run: bool)
      modifies this
      ensures (View(), report, run) == Claim(old(View()))
    {
      if cancelled {
        return false, false;
      }
      cancelled := true;
      return true, !cancelling;
    }

    /** One whole `cancel` call while the timer fires `firings` times during the bridged call.
        A normal return from a cancel nobody else held means the handle is finished; a raise means
        it is finished exactly when a firing got in; no firing during the cancel runs its callback. */
    method Cancel(bridgeRaises: bool, firings: nat) returns (raised: bool, finishes: nat, callbacks: int)
      modifies this
      ensures raised <==> bridgeRaises && old(View()) == FRESH
      ensures callbacks == 0
      ensures finishes == (if cancelled && !old(cancelled) then 1 else 0)
      ensures old(View()) == FRESH ==> !cancelling && (cancelled <==> !bridgeRaises || firings > 0)
      ensures old(View()) != FRESH ==> View() == old(View())
    {
      finishes, callbacks := 0, 0;
      var proceed := BeginCancelBlock();
      if !proceed {
        return false, 0, 0;
      }
      for i := 0 to firings
        invariant cancelling && callbacks == 0
        invariant cancelled <==> i > 0
        invariant finishes == (if cancelled then 1 else 0)
      {
        var report, run := ClaimCallback();
        finishes := if report then finishes + 1 else finishes;
        callbacks := if run then callbacks + 1 else callbacks;
      }
      if bridgeRaises {
        FailCancelBlock();
        return true, finishes, callbacks;
      }
      var report := CommitCancelBlock();
      finishes := if report then finishes + 1 else finishes;
      return false, finishes, callbacks;
    }
  }

  /** `HomeAssistantScheduler`: the tracked handles and the closed flag under the second lock. */
  class HomeAssistantScheduler {
    var handles: set<ScheduledTaskHandle>
    var closed: bool

    constructor ()
      ensures handles == {} && !closed
    {
      handles, closed := {}, false;
    }

    predicate Released()
      reads this
    {
      closed && handles == {}
    }

    /** The registering block of `schedule_at`; a closed scheduler leaves the handle to its caller. */
    method Register(handle: ScheduledTaskHandle) returns (wasClosed: bool)
      modifies this
      ensures wasClosed == old(closed) && closed == old(closed)
      ensures handles == if wasClosed then old(handles) else old(handles) + {handle}
    {
      wasClosed := closed;
      if !wasClosed {
        handles := handles + {handle};
      }
    }

    method Discard(handle: ScheduledTaskHandle)
      modifies this
      ensures handles == old(handles) - {handle} && closed == old(closed)
    {
      handles := handles - {handle};
    }

    /** One handle of the sweep: cancel it, and discard it if the cancel or a firing finished it. */
    method CancelTracked(handle: ScheduledTaskHandle, raises: bool, firings: nat) returns (raised: bool)
      requires !handle.cancelling
      modifies this, handle
      ensures raised <==> raises && !old(handle.cancelled)
      ensures handle.cancelled <==> old(handle.cancelled) || !raises || firings > 0
      ensures closed == old(closed)
      ensures handles == if handle.cancelled && !old(handle.cancelled) then old(handles) - {handle} else old(handles)
    {
      var finishes, callbacks;
      raised, finishes, callbacks := handle.Cancel(raises, firings);
      if finishes > 0 {
        Discard(handle);
      }
    }

    /** `cancel_all` on the worker, with every timer firing `firings` times during its own cancel.
        `raising` are the handles whose bridged cancel raises. What stays tracked afterwards is exactly
        what had already finished before the call and what raised without having fired. */
    method CancelAll(raising: set<ScheduledTaskHandle>, firings: nat) returns (failed: bool)
      requires forall h <- handles :: !h.cancelling
      modifies this, handles
      ensures closed
      ensures failed <==> exists h <- old(handles) :: h in raising && !old(h.cancelled)
      ensures forall h <- old(handles) :: h in handles <==> old(h.cancelled) || (h in raising && firings == 0)
      ensures forall h <- old(handles) :: h.cancelled <==> old(h.cancelled) || h !in raising || firings > 0
      ensures handles <= old(handles)
    {
      closed := true;
      var snapshot := handles;
      var todo := snapshot;
      failed := false;
      while todo != {}
        invariant todo <= handles <= snapshot && closed
        invariant forall h <- todo :: h.View() == old(h.View())
        invariant forall h <- snapshot :: h !in todo ==>
          && (h.cancelled <==> old(h.cancelled) || h !in raising || firings > 0)
          && (h in handles <==> old(h.cancelled) || (h in raising && firings == 0))
        invariant failed <==> exists h <- snapshot :: h !in todo && h in raising && !old(h.cancelled)
        decreases |todo|
      {
        var h :| h in todo;
        var raised := CancelTracked(h, h in raising, firings);
        todo := todo - {h};
        failed := failed || raised;
      }
    }
  }
}
