/** Activation of a canonical Water Safety revision over the same coordinator: the host that runs, the
    reference that is authority, and what restoring or recovering may leave published. The activation lock is
    held and no task is cancelled; the reload and every stop and storage call end as the environment says. */
module WaterActivation {
  import opened ActivationCore
  import opened Wrappers

  /** The installed host: `identity` is what its runtime was built from. */
  datatype Host = Host(identity: Stamp, accepting: bool, stopping: bool, stopped: bool)

  datatype RuntimeData = RuntimeData(host: Option<Host>, stamp: Option<Stamp>)

  /** How one host stop ends: cleaned up, retired with resources left, or the same with its pass cut short. */
  datatype Stop = Cleaned | Incomplete | CutShort

  /** How a config-entry reload can end, with the stop of the host that was there or was published. */
  datatype Reload =
    | UnloadRefused                                  // nothing changed
    | UnloadFailed(stop: Stop)                       // the host was stopped, the entry not unloaded
    | SetupFailed                                    // unloaded, no runtime data
    | FailedAfterPublishing(identity: Stamp, stop: Stop)
    | Loaded(installed: Option<Stamp>)               // the entry loads even if Water Safety does not start

  datatype World = World(
    recoverFirst: Reload, recoverStop: Stop, recoverStopRaises: bool, recoverIo: map<nat, Io>,
    prepare: Io, begin: Io, reload: Reload, ready: Io, swap: Io, mark: Io, reconcile: Io,
    restore: Reload, stop: Stop, stopRaises: bool, evidence: Io)

  /** A failure tells whether authority runs again and whether the stop of what ran instead raised. */
  datatype Outcome = Rejected | Activated(host: Host) | Raised(restored: bool, stopRaised: bool)

  /** `water_reference_for_runtime`. */
  function ReferenceForRuntime(staged: Option<ActiveReference>, active: Option<ActiveReference>):
    Option<ActiveReference> {
    if staged.Some? then staged else active
  }

  function AfterStop(h: Host, stop: Stop): Option<Host> {
    match stop
    case Cleaned => None
    case Incomplete => Some(h.(accepting := false, stopping := false))
    case CutShort => Some(h.(accepting := false, stopping := true))
  }

  function Reloaded(reference: Option<ActiveReference>, runtime: Option<RuntimeData>, reload: Reload):
    Option<RuntimeData> {
    match reload
    case UnloadRefused => runtime
    case UnloadFailed(stop) =>
      if runtime.None? || runtime.value.host.None? then runtime
      else Some(runtime.value.(host := AfterStop(runtime.value.host.value, stop)))
    case SetupFailed => None
    case FailedAfterPublishing(identity, stop) =>
      if reference.None? then Some(RuntimeData(None, None))
      else Some(RuntimeData(AfterStop(Host(identity, true, false, false), stop), StampOf(reference)))
    case Loaded(installed) =>
      if reference.None? || installed.None? then Some(RuntimeData(None, None))
      else Some(RuntimeData(Some(Host(installed.value, true, false, false)), StampOf(reference)))
  }

  /** `_running_water_stamp`: the loaded stamp of a host that is neither stopped nor in a stop pass, if the
      host's runtime was really built from it. */
  function RunningStamp(runtime: Option<RuntimeData>): Option<Stamp> {
    if runtime.None? || runtime.value.host.None? || runtime.value.stamp.None? then None
    else
      var h := runtime.value.host.value;
      if h.stopped || h.stopping || h.identity != runtime.value.stamp.value then None else runtime.value.stamp
  }

  /** `_authority_is_running`. */
  predicate AuthorityIsRunning(runtime: Option<RuntimeData>, active: Option<ActiveReference>) {
    if active.None? then runtime.None? || runtime.value.host.None?
    else RunningStamp(runtime) == StampOf(active)
  }

  /** What a failed activation may leave: the durable authority's host, no host, or a retired one. */
  predicate Harmless(runtime: Option<RuntimeData>, active: Option<ActiveReference>) {
    || AuthorityIsRunning(runtime, active)
    || runtime.None? || runtime.value.host.None? || !runtime.value.host.value.accepting
  }

  /** "Running" says nothing about admission: a retired host whose cleanup is incomplete counts as running. */
  lemma RunningIgnoresAdmission(data: RuntimeData, active: Option<ActiveReference>, accepting: bool)
    requires data.host.Some?
    ensures AuthorityIsRunning(Some(data), active) <==>
            AuthorityIsRunning(Some(data.(host := Some(data.host.value.(accepting := accepting)))), active)
  {}

  /** After a stop the authority's own host counts as running exactly if the stop left resources and came to its end:
      not when it cleaned up, nor when it was cut short. Either way it does not accept any more. */
  lemma IncompletelyStoppedAuthorityCountsAsRunning(h: Host, stop: Stop, active: ActiveReference)
    requires h.identity == active.stamp && !h.stopped
    ensures var data := RuntimeData(AfterStop(h, stop), Some(active.stamp));
      && (AuthorityIsRunning(Some(data), Some(active)) <==> stop.Incomplete?)
      && (data.host.None? <==> stop.Cleaned?)
      && (data.host.Some? ==> !data.host.value.accepting && data.host.value.identity == h.identity)
  {}

  /** A host that has stopped, is in a stop pass, or was built from something else is never the running authority. */
  lemma RunsExactlyIf(data: RuntimeData, active: ActiveReference)
    ensures AuthorityIsRunning(Some(data), Some(active)) <==>
      && data.stamp == Some(active.stamp) && data.host.Some? && data.host.value.identity == active.stamp
      && !data.host.value.stopped && !data.host.value.stopping
  {}

  /** What a reload leaves: a host of its own exactly if the entry loaded and installed one for the reference, the old
      one untouched if its unload was refused, and otherwise none that accepts. */
  lemma HostAfterReload(reference: Option<ActiveReference>, runtime: Option<RuntimeData>, reload: Reload)
    ensures var after := Reloaded(reference, runtime, reload);
      && (reload.UnloadRefused? ==> after == runtime)
      && (reload.SetupFailed? <==> after.None? && !((reload.UnloadRefused? || reload.UnloadFailed?) && runtime.None?))
      && (reload.UnloadFailed? && runtime.Some? ==>
            && after.Some? && after.value.stamp == runtime.value.stamp
            && (after.value.host.Some? <==> runtime.value.host.Some? && !reload.stop.Cleaned?)
            && (after.value.host.Some? ==> after.value.host.value.identity == runtime.value.host.value.identity))
      && (reload.FailedAfterPublishing? ==>
            && (after.value.host.Some? <==> reference.Some? && !reload.stop.Cleaned?)
            && after.value.stamp == StampOf(reference))
      && (reload.Loaded? ==>
            && (after.value.host.Some? <==> reference.Some? && reload.installed.Some?)
            && (after.value.host.Some? ==>
                  && after.value.host.value == Host(reload.installed.value, true, false, false)
                  && after.value.stamp == StampOf(reference)))
      && (!reload.UnloadRefused? && !reload.Loaded? && after.Some? && after.value.host.Some? ==>
            !after.value.host.value.accepting)
  {}

  function WaterClaim(a: Attempt, active: Option<ActiveReference>, restored: bool, stamp: Option<Stamp>): Claim {
    if active.Some? && a.candidate.scope != active.value.stamp.scope then Skip
    else
      var rollback := restored &&
        ((active.None? && a.previous.None?)
         || (stamp.Some? && a.previous.Some? && stamp.value.revision == a.previous.value.revision));
      Report(rollback, if rollback then stamp else None)
  }

  class Entry {
    var durable: Durable
    var staged: Option<ActiveReference>
    var runtime: Option<RuntimeData>

    constructor (d: Durable)
      ensures durable == d && staged.None? && runtime.None?
    {
      durable, staged, runtime := d, None, None;
    }

    method AsyncReload(reload: Reload) returns (ok: bool)
      modifies this`runtime
      ensures ok == reload.Loaded?
      ensures runtime == Reloaded(ReferenceForRuntime(staged, durable.active), old(runtime), reload)
    {
      runtime := Reloaded(ReferenceForRuntime(staged, durable.active), runtime, reload);
      return reload.Loaded?;
    }

    /** `_async_restore_authority`: reload retained authority if it is not running, and stop whatever runs
        instead. The stop retires the host at once, even if it then raises. */
    method RestoreAuthority(reload: Reload, stop: Stop, stopRaises: bool) returns (restored: bool, raised: bool)
      requires staged.None?
      modifies this`runtime
      ensures Harmless(runtime, durable.active)
      ensures raised ==> !restored && stopRaises
      ensures restored ==> AuthorityIsRunning(runtime, durable.active)
      ensures AuthorityIsRunning(old(runtime), durable.active) ==> restored && runtime == old(runtime)
      ensures restored <==> AuthorityIsRunning(old(runtime), durable.active)
                            || AuthorityIsRunning(Reloaded(durable.active, old(runtime), reload), durable.active)
    {
      if AuthorityIsRunning(runtime, durable.active) {
        return true, false;
      }
      var ok := AsyncReload(reload);
      if AuthorityIsRunning(runtime, durable.active) {
        return true, false;
      }
      if runtime.Some? && runtime.value.host.Some? {
        var left := AfterStop(runtime.value.host.value, stop);
        if stopRaises {
          runtime := Some(runtime.value.(host := Some(runtime.value.host.value.(accepting := false))));
          return false, true;
        }
        runtime := Some(RuntimeData(left, if left.None? then None else runtime.value.stamp));
      }
      return false, false;
    }

    /** `_async_recover_attempts`, with the lock held: `pending` are the scope's non-terminal attempts. They are
        reported rolled back only to the stamp that runs once authority has been restored. */
    method RecoverInterrupted(pending: seq<nat>, w: World) returns (ok: bool, restored: bool, stamp: Option<Stamp>)
      requires staged.None? && (forall id <- pending :: id in durable.attempts && id in w.recoverIo)
      requires WellStored(durable)
      modifies this`runtime, this`durable
      ensures WellStored(durable) && durable.active == old(durable.active)
      ensures pending == [] ==> ok && durable == old(durable) && runtime == old(runtime)
      ensures pending != [] ==> Harmless(runtime, durable.active)
      ensures restored ==> AuthorityIsRunning(runtime, durable.active) && stamp == RunningStamp(runtime)
      ensures pending != [] ==>
                (restored <==>
                  || AuthorityIsRunning(old(runtime), durable.active)
                  || AuthorityIsRunning(Reloaded(durable.active, old(runtime), w.recoverFirst), durable.active))
      ensures (w.recoverStopRaises && !ok && durable == old(durable)) || Reply(durable, ok) ==
              RecoverEach(old(durable), pending,
                          (a: Attempt) => WaterClaim(a, old(durable.active), restored, stamp), w.recoverIo)
      ensures (w.recoverStopRaises && !ok && durable == old(durable)) || (Distinct(pending) ==>
                RecoveredInTurn(old(durable), pending,
                                (a: Attempt) => WaterClaim(a, old(durable.active), restored, stamp),
                                w.recoverIo, Reply(durable, ok)))
    {
      hide RecoveredInTurn;
      var active := durable.active;
      restored, stamp := false, None;
      if pending == [] {
        EachIsRecoveredInTurn(durable, pending, (a: Attempt) => WaterClaim(a, active, false, None), w.recoverIo);
        return true, false, None;
      }
      var raised;
      restored, raised := RestoreAuthority(w.recoverFirst, w.recoverStop, w.recoverStopRaises);
      stamp := RunningStamp(runtime);
      if raised {
        return false, restored, stamp;
      }
      var r := RecoverAttempts(durable, pending, (a: Attempt) => WaterClaim(a, active, restored, stamp), w.recoverIo);
      RecoverEachKeeps(durable, pending, (a: Attempt) => WaterClaim(a, active, restored, stamp), w.recoverIo);
      durable := r.durable;
      return r.ok, restored, stamp;
    }

    /** Commit; one that raised is reconciled if exactly the candidate became active and runs. */
    method CommitOrReconcile(ghost base: Durable, id: nat, w: World) returns (ok: bool, ghost trail: seq<Durable>)
      requires Underway(base, durable, id)
      modifies this`durable
      ensures Underway(base, durable, id) && Replacement(durable.attempts[id]) == old(Replacement(durable.attempts[id]))
      ensures (forall d <- trail :: Resumable(base, d, id)) && Trailed(old(durable), trail, durable, id)
      ensures ok ==> durable.active == Some(Replacement(durable.attempts[id])) && durable.attempts[id].state.Committed?
      ensures old(Committable(base, durable, id)) && w.swap.Works? && w.mark.Works? ==> ok
      ensures durable.active == Some(Replacement(durable.attempts[id])) && w.reconcile.Works? ==>
                AuthorityIsRunning(runtime, durable.active) ==> ok
    {
      hide RunningStamp, AuthorityIsRunning, Resumable, Trailed, OneWrite;
      var candidate := Replacement(durable.attempts[id]);
      var r: Reply;
      r, trail := Commit(base, durable, id, w.swap, w.mark);
      durable, ok := r.durable, r.ok;
      if ok || durable.active != Some(candidate) || !AuthorityIsRunning(runtime, durable.active) {
        return ok, trail;
      }
      UnderwayIsResumable(base, durable, id);
      ReconcileKeepsUnderway(base, durable, id, w.reconcile);
      UnderwayHasId(base, durable, id);
      EndIsOne(durable, id, false, None, w.reconcile);
      r := Recover(durable, id, false, None, w.reconcile);
      TrailGrows(old(durable), trail, durable, r.durable, id);
      durable, trail := r.durable, trail + [r.durable];
      UnderwayIsResumable(base, durable, id);
      return r.ok, trail;
    }

    /** The `try` part: apply, stage, reload into the candidate, check what runs, persist it, commit. */
    method HandOver(ghost base: Durable, id: nat, w: World) returns (ok: bool, ghost trail: seq<Durable>)
      requires Fresh(base, id) && Resumable(base, durable, id) && id in durable.attempts
      modifies this
      ensures Fresh(base, id) && Resumable(base, durable, id) && id in durable.attempts
      ensures durable.attempts[id].candidate == old(durable.attempts[id].candidate)
      ensures (forall d <- trail :: Resumable(base, d, id)) && Trailed(old(durable), trail, durable, id)
      ensures ok ==>
                && durable.active == Some(Replacement(durable.attempts[id])) && durable.attempts[id].state.Committed?
                && RunningStamp(runtime) == Some(durable.attempts[id].candidate) && runtime.value.host.value.accepting
      ensures old(durable.attempts[id].state.Prepared?) && durable.attempts[id].state != Committed ==>
                !Terminal(durable.attempts[id].state)
      ensures old(Startable(base, durable, id)) && Smooth(w, durable.attempts[id].candidate) ==> ok
    {
      hide BeginApplying, RecordReady, Resumable, Reloaded, Trailed, OneWrite;
      ResumableHasId(base, durable, id);
      OperationIsOne(durable, id, w.begin);
      FirstOfTrail(durable, BeginApplying(durable, id, w.begin).durable, id);
      var candidate := Replacement(durable.attempts[id]);
      BeginKeeps(base, durable, id, w.begin);
      var begun := BeginApplying(durable, id, w.begin);
      durable, trail := begun.durable, [begun.durable];
      if !begun.ok {
        return false, trail;
      }
      staged := Some(candidate);
      ghost var before := runtime;
      var loaded := AsyncReload(w.reload);
      CandidateRuns(candidate, before, w.reload);
      if !loaded {
        return false, trail;
      }
      var running := RunningStamp(runtime);
      if running != Some(candidate.stamp) {
        return false, trail;
      }
      ReadyKeeps(base, durable, id, running.value, w.ready);
      ResumableHasId(base, durable, id);
      ReadyIsOne(durable, id, running.value, w.ready);
      var ready := RecordReady(durable, id, running.value, w.ready);
      TrailGrows(old(durable), trail, durable, ready.durable, id);
      durable, trail := ready.durable, trail + [ready.durable];
      if !ready.ok {
        return false, trail;
      }
      assert Underway(base, durable, id);
      ghost var more;
      ghost var readied := durable;
      ok, more := CommitOrReconcile(base, id, w);
      TrailsJoin(old(durable), trail, readied, more, durable, id);
      return ok, trail + more;
    }

    /** The `except` part. A failure without the commit marker is recorded as such; otherwise, or if applying
        never began, recovery decides from the marker. Evidence that cannot be written is only logged. */
    method RollBack(ghost base: Durable, id: nat, w: World)
      returns (restored: bool, raised: bool, ghost trail: seq<Durable>)
      requires Fresh(base, id) && Resumable(base, durable, id) && id in durable.attempts
      modifies this
      ensures staged.None? && Harmless(runtime, durable.active) && durable.active == old(durable.active)
      ensures restored ==> AuthorityIsRunning(runtime, durable.active)
      ensures restored <==> AuthorityIsRunning(old(runtime), durable.active)
                            || AuthorityIsRunning(Reloaded(durable.active, old(runtime), w.restore), durable.active)
      ensures raised ==> !restored && w.stopRaises && durable == old(durable)
      ensures Resumable(base, durable, id) && id in durable.attempts
      ensures durable.attempts[id].candidate == old(durable.attempts[id].candidate)
      ensures (forall d <- trail :: Resumable(base, d, id)) && Trailed(old(durable), trail, durable, id)
      ensures !raised && !w.evidence.Refused? ==>
                durable.attempts[id].state == EvidenceState(base, old(durable), id, restored)
    {
      hide Reloaded, AuthorityIsRunning, Harmless, Resumable, Recover, RecordFailed, EvidenceState, Trailed, OneWrite;
      ResumableHasId(base, durable, id);
      staged, trail := None, [];
      FirstOfTrail(durable, durable, id);
      restored, raised := RestoreAuthority(w.restore, w.stop, w.stopRaises);
      if raised {
        return;
      }
      var attempt := durable.attempts[id];
      var stamp := if restored then RunningStamp(runtime) else None;
      var reply: Reply;
      if !w.evidence.Refused? {
        EvidenceIsWritten(base, durable, id, runtime, restored, w.evidence);
      }
      if attempt.state.Applying? && !(durable.active.Some? && durable.active.value.operation == id) {
        FailureKeeps(base, durable, id, restored, stamp, w.evidence);
        reply := RecordFailed(durable, id, restored, stamp, w.evidence);
      } else {
        RecoveryKeeps(base, durable, id, restored, stamp, w.evidence);
        reply := Recover(durable, id, restored, stamp, w.evidence);
      }
      EndIsOne(durable, id, restored, stamp, w.evidence);
      FirstOfTrail(durable, reply.durable, id);
      durable, trail := reply.durable, [reply.durable];
    }

    /** `activate_canonical_revision`. Success returns the accepting host of the durably committed candidate;
        every failure leaves the durable authority's host, no host or a retired one, authority being untouched or
        exactly the candidate; a rejection with nothing to recover leaves the host alone; the staged reference is
        gone either way. If nothing fails the candidate is activated. */
    method AsyncActivate(candidate: Stamp, id: nat, pending: seq<nat>, w: World)
      returns (outcome: Outcome, ghost base: Durable, ghost trail: seq<Durable>)
      requires staged.None? && WellStored(durable)
      requires forall other <- pending :: other in durable.attempts && other in w.recoverIo
      modifies this
      ensures staged.None? && base.active == old(durable.active) && WellStored(base)
      ensures if id in old(durable.attempts) then outcome.Rejected? && durable == base && trail == []
              else Fresh(base, id) && Resumable(base, durable, id)
                   && (forall d <- trail :: Resumable(base, d, id)) && Trailed(base, trail, durable, id)
      ensures outcome.Rejected? ==> if pending == [] then runtime == old(runtime) else Harmless(runtime, durable.active)
      ensures outcome.Rejected? ==> durable.active == base.active
      ensures !outcome.Rejected? ==> id in durable.attempts && durable.attempts[id].candidate == candidate
      ensures outcome.Activated? ==>
                && durable.active == Some(Replacement(durable.attempts[id])) && durable.attempts[id].state.Committed?
                && runtime.Some? && runtime.value.host == Some(outcome.host) && RunningStamp(runtime) == Some(candidate)
                && outcome.host.identity == candidate && outcome.host.accepting
      ensures outcome.Raised? ==> Harmless(runtime, durable.active)
      ensures outcome.Raised? && outcome.restored ==> AuthorityIsRunning(runtime, durable.active)
      ensures outcome.Raised? && outcome.stopRaised ==> !outcome.restored && w.stopRaises
      ensures outcome.Raised? && !outcome.stopRaised && !w.evidence.Refused? ==>
                Evidenced(base, durable, id, outcome.restored)
      ensures outcome.Raised? ==>
                durable.active == base.active || durable.active == Some(Replacement(durable.attempts[id]))
      ensures pending == [] && old(Unobstructed(durable, id, candidate)) && Smooth(w, candidate) ==> outcome.Activated?
    {
      hide Reloaded, AuthorityIsRunning, Harmless, RecoverOne, RecoverEach, WaterClaim, ScopeBusy, Prepare, Resumable;
      hide EvidenceState, Evidenced, RecoveredInTurn, ReferenceForRuntime, Trailed, OneWrite;
      var ok, restored, stamp := RecoverInterrupted(pending, w);
      RecoverEachKeepsIds(old(durable), pending,
                          (a: Attempt) => WaterClaim(a, old(durable.active), restored, stamp), w.recoverIo);
      base, trail := durable, [];
      PrepareIsOne(base, id, candidate, w.prepare);
      FirstOfTrail(base, Prepare(base, id, candidate, w.prepare).durable, id);
      if id !in durable.attempts {
        UntouchedResumes(durable, id);
      }
      if !ok {
        return Rejected, base, trail;
      }
      var prepared := Prepare(durable, id, candidate, w.prepare);
      if id in durable.attempts {
        return Rejected, base, trail;
      }
      PrepareResumes(durable, id, candidate, w.prepare);
      durable, trail := prepared.durable, [prepared.durable];
      if !prepared.ok {
        return Rejected, base, trail;
      }
      ghost var more;
      ghost var before := durable;
      ok, more := HandOver(base, id, w);
      TrailsJoin(base, trail, before, more, durable, id);
      trail := trail + more;
      if ok {
        staged := None;
        return Activated(runtime.value.host.value), base, trail;
      }
      var raised;
      ghost var failed := durable;
      restored, raised, more := RollBack(base, id, w);
      if !raised && !w.evidence.Refused? {
        EvidenceShows(base, failed, durable, id, restored);
      }
      TrailsJoin(base, trail, failed, more, durable, id);
      MarkerTellsTheSide(base, durable, id);
      return Raised(restored, raised), base, trail + more;
    }
  }

  /** What evidence makes of an unfinished attempt `id` of `d`: committed under its marker, failed unless authority
      runs again, and then rolled back, or left as it is if that authority is another scope's. */
  function EvidenceState(base: Durable, d: Durable, id: nat, restored: bool): AttemptState
    requires id in d.attempts
  {
    var a := d.attempts[id];
    if Terminal(a.state) then a.state
    else if CommittedBy(d.active, a) then Committed
    else if !restored then Failed
    else if OwnScope(base, a.candidate.scope) then RolledBack
    else a.state
  }

  /** Once its evidence is written, a failed activation is over: committed if authority moved, rolled back if authority
      runs again, failed if not; and its scope is free. Only authority of another scope leaves it unfinished. */
  predicate Evidenced(base: Durable, d: Durable, id: nat, restored: bool) {
    id in d.attempts &&
    var a := d.attempts[id];
    if d.active == base.active && restored && !OwnScope(base, a.candidate.scope) then !Terminal(a.state)
    else
      && a.state == (if d.active != base.active then Committed else if restored then RolledBack else Failed)
      && !ScopeBusy(d, a.candidate.scope)
  }

  lemma EvidenceShows(base: Durable, d: Durable, e: Durable, id: nat, restored: bool)
    requires Fresh(base, id) && Resumable(base, d, id) && id in d.attempts
    requires Resumable(base, e, id) && id in e.attempts && e.active == d.active
    requires e.attempts[id].candidate == d.attempts[id].candidate && !ScopeBusy(base, d.attempts[id].candidate.scope)
    requires d.attempts[id].state.Committed? || !Terminal(d.attempts[id].state)
    requires e.attempts[id].state == EvidenceState(base, d, id, restored)
    ensures Evidenced(base, e, id, restored)
  {
    hide ScopeBusy;
    MarkerTellsTheSide(base, d, id);
    if Terminal(e.attempts[id].state) {
      EndedFreesTheScope(base, e, id);
    }
  }

  /** Whichever of the two kinds of evidence the attempt calls for. */
  lemma EvidenceIsWritten(base: Durable, d: Durable, id: nat, runtime: Option<RuntimeData>, restored: bool, io: Io)
    requires Fresh(base, id) && Resumable(base, d, id) && id in d.attempts && !io.Refused?
    requires restored ==> AuthorityIsRunning(runtime, d.active)
    ensures var stamp := if restored then RunningStamp(runtime) else None;
      var failed := d.attempts[id].state.Applying? && !(d.active.Some? && d.active.value.operation == id);
      var r := if failed then RecordFailed(d, id, restored, stamp, io) else Recover(d, id, restored, stamp, io);
      id in r.durable.attempts && r.durable.attempts[id].state == EvidenceState(base, d, id, restored)
  {
    MarkerTellsTheSide(base, d, id);
  }

  /** A reload into the staged candidate runs it exactly if it installs that, and then its host accepts. */
  lemma CandidateRuns(candidate: ActiveReference, runtime: Option<RuntimeData>, reload: Reload)
    ensures var after := Reloaded(Some(candidate), runtime, reload);
      reload.Loaded? ==>
        && (RunningStamp(after) == Some(candidate.stamp) <==> reload.installed == Some(candidate.stamp))
        && (RunningStamp(after).Some? ==> after.value.host.value.accepting)
  {}

  /** Nothing fails and the candidate's host is installed. */
  predicate Smooth(w: World, candidate: Stamp) {
    && w.prepare.Works? && w.begin.Works? && w.ready.Works? && w.swap.Works? && w.mark.Works?
    && w.reload == Loaded(Some(candidate))
  }

  predicate Startable(base: Durable, d: Durable, id: nat) {
    && id in d.attempts && d.attempts[id].state.Prepared? && d.active == base.active
    && OwnScope(base, d.attempts[id].candidate.scope)
  }

  predicate Unobstructed(d: Durable, id: nat, candidate: Stamp) {
    id !in d.attempts && !ScopeBusy(d, candidate.scope) && OwnScope(d, candidate.scope)
  }

  lemma {:induction false} RecoverEachKeepsIds(d: Durable, ids: seq<nat>, claim: Attempt -> Claim, io: map<nat, Io>)
    requires (forall other <- ids :: other in d.attempts && other in io) && WellStored(d)
    ensures RecoverEach(d, ids, claim, io).durable.attempts.Keys == d.attempts.Keys
    decreases |ids|
  {
    if ids != [] {
      var r := RecoverOne(d, ids[0], claim(d.attempts[ids[0]]), io[ids[0]]);
      RecoverOneKeeps(d, ids[0], claim(d.attempts[ids[0]]), io[ids[0]]);
      if r.ok {
        RecoverEachKeepsIds(r.durable, ids[1..], claim, io);
      }
    }
  }

  /** A rollback is claimed only once authority runs again, and then the attempt's previous revision is the one that
      runs. That says nothing of the attempt: a committed one is claimed rolled back as well, exactly if it
      activated its previous revision again. */
  lemma RollbackClaimsAreTrue(d: Durable, id: nat, runtime: Option<RuntimeData>, restored: bool)
    requires id in d.attempts && (restored ==> AuthorityIsRunning(runtime, d.active))
    ensures var a, stamp := d.attempts[id], RunningStamp(runtime);
      var claim := WaterClaim(a, d.active, restored, stamp);
      claim.Report? && claim.rollback ==>
        && AuthorityIsRunning(runtime, d.active) && claim.stamp == stamp
        && (d.active.None? <==> a.previous.None?)
        && (a.previous.Some? ==> stamp.Some? && stamp.value.revision == a.previous.value.revision)
    ensures var a := d.attempts[id];
      var claim := WaterClaim(a, d.active, restored, RunningStamp(runtime));
      restored && CommittedBy(d.active, a) ==>
        && claim.Report?
        && (claim.rollback <==> a.previous.Some? && a.previous.value.revision == a.candidate.revision)
  {}

  // revision 7 is active, and attempt 1 activates it again up to the swap
  const SEVEN := Stamp(7, 0, 0)
  const FIRST := Attempt(0, Committed, SEVEN, None, 0, Some(SEVEN), None)
  const STORED := Durable(Some(Replacement(FIRST)), map[0 := FIRST])
  const AGAIN := NewAttempt(STORED, 1, SEVEN).(state := Applying, ready := Some(SEVEN))
  const SWAPPED := Durable(Some(Replacement(AGAIN)), map[0 := FIRST, 1 := AGAIN])

  lemma SevenIsActivatedAgain()
    ensures var d := Prepare(STORED, 1, SEVEN, Works).durable;
      Swap(RecordReady(BeginApplying(d, 1, Works).durable, 1, SEVEN, Works).durable, 1, Works) == Reply(SWAPPED, true)
  {
    var prepared := NewAttempt(STORED, 1, SEVEN);
    assert !ScopeBusy(STORED, 0);
    var d := Durable(STORED.active, map[0 := FIRST, 1 := prepared]);
    assert Prepare(STORED, 1, SEVEN, Works) == Reply(d, true);
    var applying := Durable(STORED.active, map[0 := FIRST, 1 := prepared.(state := Applying)]);
    assert BeginApplying(d, 1, Works) == Reply(applying, true);
    assert RecordReady(applying, 1, SEVEN, Works) == Reply(Durable(STORED.active, SWAPPED.attempts), true);
  }

  /** The input: its commit marker is durable and its runtime runs, yet recovery is told of a rollback. The marker
      decides, so the attempt still ends committed. */
  lemma ReactivationIsClaimedRolledBack(host: Host)
    requires host.identity == SEVEN && !host.stopping && !host.stopped
    ensures var runtime := Some(RuntimeData(Some(host), Some(SEVEN)));
      var claim := WaterClaim(SWAPPED.attempts[1], SWAPPED.active, true, RunningStamp(runtime));
      && AuthorityIsRunning(runtime, SWAPPED.active) && CommittedBy(SWAPPED.active, SWAPPED.attempts[1])
      && claim == Report(true, Some(SEVEN))
      && RecoverOne(SWAPPED, 1, claim, Works).durable.attempts[1].state.Committed?
  {
    SevenIsActivatedAgain();
  }

  const FOREIGN := Stamp(8, 0, 1)
  const UNFINISHED := Durable(STORED.active, map[0 := FIRST, 1 := NewAttempt(STORED, 1, FOREIGN).(state := Applying)])

  /** The case that stays unfinished: revision 7 is active and runs again after an activation in another scope failed.
      The evidence of its rollback is refused, and recovery never looks at it. */
  lemma ForeignAuthorityLeavesItUnfinished()
    ensures BeginApplying(Prepare(STORED, 1, FOREIGN, Works).durable, 1, Works) == Reply(UNFINISHED, true)
    ensures RecordFailed(UNFINISHED, 1, true, Some(SEVEN), Works) == Reply(UNFINISHED, false)
    ensures ScopeBusy(UNFINISHED, 1)
    ensures forall restored, stamp :: WaterClaim(UNFINISHED.attempts[1], UNFINISHED.active, restored, stamp).Skip?
  {
    var prepared := Durable(STORED.active, map[0 := FIRST, 1 := NewAttempt(STORED, 1, FOREIGN)]);
    assert !ScopeBusy(STORED, 1);
    assert Prepare(STORED, 1, FOREIGN, Works) == Reply(prepared, true);
    assert UNFINISHED.attempts[1].candidate.scope == 1 && !Terminal(UNFINISHED.attempts[1].state);
  }

  /** After a crash in any durable state of an activation, a restart finishes the attempt: committed if the swap had
      happened; otherwise authority is untouched and the attempt rolled back if the restart got authority
      running, and failed if it did not. */
  lemma CrashIsAllOrNothing(base: Durable, d: Durable, id: nat, runtime: Option<RuntimeData>, restored: bool)
    requires Fresh(base, id) && Resumable(base, d, id) && id in d.attempts && !Terminal(d.attempts[id].state)
    requires restored ==>
      AuthorityIsRunning(runtime, d.active) && (d.active.None? ==> RunningStamp(runtime).None?)
    ensures var a := d.attempts[id];
      var claim := WaterClaim(a, d.active, restored, RunningStamp(runtime));
      var r := RecoverOne(d, id, claim, Works);
      && (claim.Skip? <==> base.active.Some? && base.active.value.stamp.scope != a.candidate.scope)
      && (claim.Report? ==>
            && r.ok && r.durable.active == d.active
            && (d.active == Some(Replacement(a)) ==> r.durable.attempts[id].state.Committed?)
            && (d.active != Some(Replacement(a)) ==>
                  && d.active == base.active
                  && r.durable.attempts[id].state == if restored then RolledBack else Failed))
  {
    MarkerTellsTheSide(base, d, id);
  }
}
