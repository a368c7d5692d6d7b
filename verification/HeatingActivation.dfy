/** Activation of a canonical Heating revision: prepare, hand over by a reload, commit by compare-and-swap,
    roll back otherwise; and the recovery of attempts a crash interrupted. Every call that can fail takes
    its outcome from the environment. The activation lock is held and no task is cancelled. */
module HeatingActivation {
  import opened ActivationCore
  import opened Wrappers

  /** What setup composes a runtime from; `attempt` marks a staged activation candidate. */
  datatype Selection = Selection(stamp: Option<Stamp>, attempt: Option<nat>)

  datatype Host = Host(ready: bool)

  datatype RuntimeData = RuntimeData(stamp: Option<Stamp>, host: Option<Host>)

  /** How a config-entry reload can end. */
  datatype Reload =
    | UnloadRefused                     // nothing changed
    | StoppedButHeld                    // the host is stopped, the unload still fails
    | SetupFailed                       // unloaded, no runtime data
    | FailedAfterPublishing             // the new runtime was published, then stopped again
    | Loaded(host: bool, ready: bool)   // without a host only when no heating revision is selected

  /** The environment of one activation. */
  datatype World = World(
    prepare: Io, begin: Io, reload: Reload, ready: Io, swap: Io, mark: Io, recover: Io, restore: Reload, record: Io)

  datatype Outcome =
    | Rejected                 // raised before anything was staged
    | Activated                // the committed attempt was returned
    | RaisedAfterCommit        // committed durably, its evidence could not be written
    | RolledBackTo(restored: bool)

  /** The selection setup runs with: the staged candidate, else durable authority. */
  function Select(staged: Option<Selection>, active: Option<ActiveReference>): Selection {
    if staged.Some? then staged.value else Selection(StampOf(active), None)
  }

  function Reloaded(selection: Selection, runtime: Option<RuntimeData>, reload: Reload): Option<RuntimeData> {
    match reload
    case UnloadRefused => runtime
    case StoppedButHeld => if runtime.None? then None else Some(runtime.value.(host := None))
    case SetupFailed => None
    case FailedAfterPublishing => Some(RuntimeData(selection.stamp, None))
    case Loaded(host, ready) =>
      Some(RuntimeData(selection.stamp, if host || selection.stamp.Some? then Some(Host(ready)) else None))
  }

  /** After a reload a host is published exactly if it was left alone, or if the entry loaded and asked for one; it then
      carries the stamp that was selected, and nothing is published under another. */
  lemma PublishedAfterReload(selection: Selection, runtime: Option<RuntimeData>, reload: Reload)
    ensures var after := Reloaded(selection, runtime, reload);
      && (after.Some? && after.value.host.Some? <==>
            if reload.UnloadRefused? then runtime.Some? && runtime.value.host.Some?
            else reload.Loaded? && (reload.host || selection.stamp.Some?))
      && (after.Some? ==> if reload.UnloadRefused? || reload.StoppedButHeld? then
                            runtime.Some? && after.value.stamp == runtime.value.stamp
                          else after.value.stamp == selection.stamp)
      && (after.None? <==> reload.SetupFailed? || ((reload.UnloadRefused? || reload.StoppedButHeld?) && runtime.None?))
      && (reload.UnloadRefused? ==> after == runtime)
      && (reload.Loaded? && after.value.host.Some? ==> after.value.host.value.ready == reload.ready)
  {}

  /** A published host carries the stamp of durable authority, or none when there is none. */
  predicate Agrees(runtime: Option<RuntimeData>, active: Option<ActiveReference>) {
    runtime.Some? && runtime.value.host.Some? ==> runtime.value.stamp == StampOf(active)
  }

  function RevisionOf(stamp: Option<Stamp>): Option<nat> {
    if stamp.None? then None else Some(stamp.value.revision)
  }

  /** `_require_expected_reference`. */
  predicate MatchesExpected(current: Option<ActiveReference>, revision: Option<nat>, generation: nat) {
    RevisionOf(StampOf(current)) == revision && GenerationOf(current) == generation
  }

  /** What an activation is refused for before it leaves any trace. */
  predicate Admissible(current: Option<ActiveReference>, candidate: Stamp,
                       fingerprint: nat, expectedRevision: Option<nat>, expectedGeneration: nat,
                       legacyBlocks: bool, compiles: bool) {
    && candidate.fingerprint == fingerprint
    && (current.None? ==> !legacyBlocks)
    && MatchesExpected(current, expectedRevision, expectedGeneration)
    && (current.Some? ==>
          current.value.stamp.scope == candidate.scope && current.value.stamp.revision != candidate.revision)
    && compiles
  }

  /** Nothing fails and the candidate's host comes up ready. */
  predicate Smooth(w: World) {
    && w.prepare.Works? && w.begin.Works? && w.ready.Works? && w.swap.Works? && w.mark.Works?
    && w.reload.Loaded? && w.reload.ready
  }

  predicate Unobstructed(d: Durable, id: nat, candidate: Stamp) {
    id !in d.attempts && !ScopeBusy(d, candidate.scope)
  }

  /** An attempt can be prepared, but not on top of the authority its caller expected. */
  predicate Superseded(base: Durable, id: nat, candidate: Stamp, revision: Option<nat>, generation: nat) {
    Unobstructed(base, id, candidate) && !MatchesExpected(ActiveFor(base, candidate.scope), revision, generation)
  }

  /** A superseded attempt is over: rolled back if there was no authority to keep, failed otherwise. */
  predicate Ended(base: Durable, d: Durable, id: nat, w: World) {
    && id in d.attempts
    && (!w.recover.Refused? ==>
          d.attempts[id].state ==
            if ActiveFor(base, d.attempts[id].candidate.scope).None? then RolledBack else Failed)
  }

  /** `_is_durable_commit`. */
  predicate IsDurableCommit(active: Option<ActiveReference>, id: nat, candidate: Stamp) {
    && active.Some?
    && active.value.operation == id
    && active.value.stamp.revision == candidate.revision
    && active.value.stamp.fingerprint == candidate.fingerprint
  }

  lemma DurableCommitIsTheMarker(base: Durable, d: Durable, id: nat)
    requires Fresh(base, id) && Resumable(base, d, id) && id in d.attempts
    ensures IsDurableCommit(d.active, id, d.attempts[id].candidate) <==> CommittedBy(d.active, d.attempts[id])
  {}

  class Entry {
    var durable: Durable
    var staged: Option<Selection>
    var runtime: Option<RuntimeData>

    constructor (d: Durable)
      ensures durable == d && staged.None? && runtime.None?
    {
      durable, staged, runtime := d, None, None;
    }

    method AsyncReload(reload: Reload) returns (ok: bool)
      modifies this`runtime
      ensures ok == reload.Loaded?
      ensures runtime == Reloaded(Select(staged, durable.active), old(runtime), reload)
    {
      runtime := Reloaded(Select(staged, durable.active), runtime, reload);
      return reload.Loaded?;
    }

    /** `_async_quiesce_non_authoritative_runtime`; the host is given up even if its stop raises. */
    method QuiesceNonAuthoritativeRuntime()
      modifies this`runtime
      ensures Agrees(runtime, durable.active)
      ensures Agrees(old(runtime), durable.active) ==> runtime == old(runtime)
      ensures runtime == old(runtime) || (old(runtime).Some? && runtime == Some(old(runtime).value.(host := None)))
    {
      if runtime.None? {
        return;
      }
      if runtime.value.stamp == StampOf(durable.active) {
        return;
      }
      if runtime.value.host.Some? {
        runtime := Some(runtime.value.(host := None));
      }
    }

    /** `_async_restore_authoritative_runtime`: whatever the reload does, no disagreeing host stays. Success
        is claimed only for the previous authority, active and loaded. */
    method RestoreAuthoritativeRuntime(attempt: Attempt, reload: Reload) returns (restored: bool, stamp: Option<Stamp>)
      requires staged.None? && (attempt.previous.Some? ==> attempt.previous.value.scope == attempt.candidate.scope)
      modifies this`runtime
      ensures Agrees(runtime, durable.active)
      ensures restored <==> reload.Loaded? && attempt.previous == StampOf(durable.active)
      ensures restored ==> runtime.Some? && runtime.value.stamp == attempt.previous && stamp == attempt.previous
      ensures !restored ==> stamp.None?
    {
      var ok := AsyncReload(reload);
      if !ok {
        QuiesceNonAuthoritativeRuntime();
        return false, None;
      }
      var loaded := runtime.value.stamp;
      if attempt.previous.None? {
        restored := durable.active.None? && loaded.None?;
        if !restored {
          QuiesceNonAuthoritativeRuntime();
        }
        return restored, None;
      }
      if durable.active.Some?
         && durable.active.value.stamp.revision == attempt.previous.value.revision
         && durable.active.value.stamp.fingerprint == attempt.previous.value.fingerprint
         && loaded.Some?
         && loaded.value.revision == attempt.previous.value.revision
         && loaded.value.fingerprint == attempt.previous.value.fingerprint
         && loaded.value.scope == attempt.candidate.scope {
        return true, loaded;
      }
      QuiesceNonAuthoritativeRuntime();
      return false, None;
    }

    /** Commit; one that raised after its swap is completed from the marker it left. */
    method CommitOrReconcile(ghost base: Durable, id: nat, w: World) returns (ok: bool, ghost trail: seq<Durable>)
      requires Underway(base, durable, id)
      modifies this`durable
      ensures Underway(base, durable, id) && SameAttempt(old(durable), durable, id)
      ensures (forall d <- trail :: Resumable(base, d, id)) && Trailed(old(durable), trail, durable, id)
      ensures ok ==> durable.attempts[id].state.Committed?
      ensures CommittedBy(durable.active, durable.attempts[id]) && w.recover.Works? ==> ok
      ensures !CommittedBy(durable.active, durable.attempts[id]) ==> durable.attempts[id].state.Applying?
      ensures old(Committable(base, durable, id)) && w.swap.Works? && w.mark.Works? ==> ok
    {
      hide Resumable, IsDurableCommit, Trailed, OneWrite;
      var candidate := durable.attempts[id].candidate;
      var r: Reply;
      r, trail := Commit(base, durable, id, w.swap, w.mark);
      durable, ok := r.durable, r.ok;
      UnderwayIsResumable(base, durable, id);
      DurableCommitIsTheMarker(base, durable, id);
      if ok || !IsDurableCommit(durable.active, id, candidate) {
        return ok, trail;
      }
      ReconcileKeepsUnderway(base, durable, id, w.recover);
      UnderwayHasId(base, durable, id);
      EndIsOne(durable, id, false, None, w.recover);
      r := Recover(durable, id, false, None, w.recover);
      TrailGrows(old(durable), trail, durable, r.durable, id);
      durable, trail := r.durable, trail + [r.durable];
      UnderwayIsResumable(base, durable, id);
      return r.ok, trail;
    }

    /** The handover itself: reload into the staged candidate, check it, persist its readiness, commit.
        `trail` are the durable states passed through. */
    method HandOver(ghost base: Durable, id: nat, w: World) returns (ok: bool, ghost trail: seq<Durable>)
      requires Underway(base, durable, id) && durable.active == base.active
      requires staged == Some(Selection(Some(durable.attempts[id].candidate), Some(id)))
      modifies this`durable, this`runtime
      ensures Underway(base, durable, id) && SameAttempt(old(durable), durable, id)
      ensures (forall d <- trail :: Resumable(base, d, id)) && Trailed(old(durable), trail, durable, id)
      ensures ok ==> durable.attempts[id].state.Committed?
      ensures CommittedBy(durable.active, durable.attempts[id]) ==>
                && runtime.Some? && runtime.value.stamp == Some(durable.attempts[id].candidate)
                && runtime.value.host == Some(Host(true))
      ensures CommittedBy(durable.active, durable.attempts[id]) && w.recover.Works? ==> ok
      ensures !CommittedBy(durable.active, durable.attempts[id]) ==> durable.attempts[id].state.Applying?
      ensures old(Applies(durable, id)) && OwnScope(base, durable.attempts[id].candidate.scope) && Smooth(w) ==> ok
    {
      hide Trailed, OneWrite;
      var candidate := durable.attempts[id].candidate;
      FirstOfTrail(durable, RecordReady(durable, id, candidate, w.ready).durable, id);
      trail := [];
      var loaded := AsyncReload(w.reload);
      if !loaded {
        return false, trail;
      }
      if runtime.value.stamp != Some(candidate) || runtime.value.host.None? || !runtime.value.host.value.ready {
        return false, trail;
      }
      ReadyResumes(base, durable, id, candidate, w.ready);
      ReadyIsOne(durable, id, candidate, w.ready);
      var ready := RecordReady(durable, id, candidate, w.ready);
      durable, trail := ready.durable, [ready.durable];
      if !ready.ok {
        return false, trail;
      }
      ghost var more;
      ghost var before := durable;
      ok, more := CommitOrReconcile(base, id, w);
      TrailsJoin(old(durable), trail, before, more, durable, id);
      return ok, trail + more;
    }

    /** The `except` part of an activation that left no commit marker: unstage, restore, record the failure. */
    method RollBack(ghost base: Durable, id: nat, w: World) returns (restored: bool, ghost trail: seq<Durable>)
      requires Underway(base, durable, id) && !CommittedBy(durable.active, durable.attempts[id])
      modifies this
      ensures staged.None? && Agrees(runtime, durable.active)
      ensures Fresh(base, id) && Resumable(base, durable, id) && id in durable.attempts && durable.active == base.active
      ensures SameAttempt(old(durable), durable, id)
      ensures (forall d <- trail :: Resumable(base, d, id)) && Trailed(old(durable), trail, durable, id)
      ensures restored <==> w.restore.Loaded? && durable.attempts[id].previous == StampOf(base.active)
      ensures restored ==> runtime.Some? && runtime.value.stamp == StampOf(base.active)
      ensures !w.record.Refused? ==> durable.attempts[id].state == if restored then RolledBack else Failed
    {
      MarkerTellsTheSide(base, durable, id);
      var attempt := durable.attempts[id];
      staged := None;
      var stamp;
      restored, stamp := RestoreAuthoritativeRuntime(attempt, w.restore);
      FailedResumes(base, durable, id, restored, stamp, w.record);
      EndIsOne(durable, id, restored, stamp, w.record);
      var recorded := RecordFailed(durable, id, restored, stamp, w.record);
      FirstOfTrail(durable, recorded.durable, id);
      durable, trail := recorded.durable, [recorded.durable];
    }

    /** Preparation, the check of what it recorded, and applying. */
    method PrepareAndBegin(candidate: Stamp, expectedRevision: Option<nat>, expectedGeneration: nat, id: nat, w: World)
      returns (ok: bool, ghost trail: seq<Durable>)
      requires WellStored(durable)
      modifies this`durable
      ensures if id in old(durable).attempts then !ok && durable == old(durable) && trail == []
              else Resumable(old(durable), durable, id) && (forall d <- trail :: Resumable(old(durable), d, id))
                   && Trailed(old(durable), trail, durable, id)
      ensures durable.active == old(durable).active
      ensures ok ==> id in durable.attempts && durable.attempts[id].state.Applying?
      ensures ok ==> durable.attempts[id].candidate == candidate && !CommittedBy(durable.active, durable.attempts[id])
      ensures ok ==> RevisionOf(durable.attempts[id].previous) == expectedRevision
      ensures OwnScope(old(durable), candidate.scope) && Unobstructed(old(durable), id, candidate) && Smooth(w) ==>
                (MatchesExpected(old(durable).active, expectedRevision, expectedGeneration) ==> ok)
      ensures Superseded(old(durable), id, candidate, expectedRevision, expectedGeneration) && w.prepare.Works? ==>
                !ok && Ended(old(durable), durable, id, w)
    {
      hide ScopeBusy, Recover, Trailed, OneWrite;
      ghost var base := durable;
      PrepareIsOne(base, id, candidate, w.prepare);
      FirstOfTrail(base, Prepare(base, id, candidate, w.prepare).durable, id);
      trail := [];
      var prepared := Prepare(durable, id, candidate, w.prepare);
      if id in durable.attempts {
        return false, trail;
      }
      PrepareResumes(durable, id, candidate, w.prepare);
      durable, trail := prepared.durable, [prepared.durable];
      if !prepared.ok {
        return false, trail;
      }
      var attempt := durable.attempts[id];
      if RevisionOf(attempt.previous) != expectedRevision || attempt.expectedGeneration != expectedGeneration {
        RecoveryKeeps(base, durable, id, attempt.previous.None?, None, w.recover);
        if !w.recover.Refused? {
          RecoveryEnds(durable, id, attempt.previous.None?, None, w.recover);
        }
        EndIsOne(durable, id, attempt.previous.None?, None, w.recover);
        var recovered := Recover(durable, id, attempt.previous.None?, None, w.recover);
        TrailGrows(base, trail, durable, recovered.durable, id);
        durable, trail := recovered.durable, trail + [recovered.durable];
        return false, trail;
      }
      BeginResumes(base, durable, id, w.begin);
      OperationIsOne(durable, id, w.begin);
      var begun := BeginApplying(durable, id, w.begin);
      TrailGrows(base, trail, durable, begun.durable, id);
      durable, trail := begun.durable, trail + [begun.durable];
      return begun.ok, trail;
    }

    /** Everything before staging. `changed` is another writer's active reference, seen by the preparation
        but not by the checks before it. */
    method PrepareAttempt(candidate: Stamp, fingerprint: nat, expectedRevision: Option<nat>, expectedGeneration: nat,
                          id: nat, legacyBlocks: bool, compiles: bool,
                          changed: Option<Option<ActiveReference>>, w: World)
      returns (ok: bool, ghost base: Durable, ghost trail: seq<Durable>)
      requires WellStored(durable) && (changed.Some? ==> WellStored(durable.(active := changed.value)))
      modifies this`durable
      ensures base == if changed.Some? && Admissible(old(durable.active), candidate, fingerprint, expectedRevision,
                                                     expectedGeneration, legacyBlocks, compiles)
                      then old(durable).(active := changed.value) else old(durable)
      ensures WellStored(base)
      ensures if id in base.attempts then !ok && durable == base && trail == []
              else Resumable(base, durable, id) && (forall d <- trail :: Resumable(base, d, id))
                   && Trailed(base, trail, durable, id)
      ensures durable.active == base.active
      ensures ok ==> id in durable.attempts && durable.attempts[id].state.Applying?
      ensures ok ==> durable.attempts[id].candidate == candidate && !CommittedBy(durable.active, durable.attempts[id])
      ensures ok ==> RevisionOf(durable.attempts[id].previous) == expectedRevision
      ensures var admissible := Admissible(old(durable.active), candidate, fingerprint, expectedRevision,
                                           expectedGeneration, legacyBlocks, compiles);
        && (!admissible ==> !ok && durable == old(durable))
        && (admissible && changed.None? && Unobstructed(old(durable), id, candidate) && Smooth(w) ==> ok)
        && (admissible && Superseded(base, id, candidate, expectedRevision, expectedGeneration) && w.prepare.Works? ==>
              !ok && Ended(base, durable, id, w))
    {
      base, trail := durable, [];
      FirstOfTrail(durable, durable, id);
      var current := durable.active;
      if candidate.fingerprint != fingerprint || (current.None? && legacyBlocks) {
        return false, base, trail;
      }
      if !MatchesExpected(current, expectedRevision, expectedGeneration) {
        return false, base, trail;
      }
      if current.Some? &&
         (current.value.stamp.scope != candidate.scope || current.value.stamp.revision == candidate.revision) {
        return false, base, trail;
      }
      if !compiles {
        return false, base, trail;
      }
      if changed.Some? {
        durable := durable.(active := changed.value);
        base := durable;
      }
      ok, trail := PrepareAndBegin(candidate, expectedRevision, expectedGeneration, id, w);
      return ok, base, trail;
    }

    /** `async_activate_canonical_revision`. After staging, whatever fails: nothing stays staged, a published
        host agrees with durable authority, and authority is either untouched or exactly the candidate, then
        with its ready runtime published. Every durable state passed through is one a restart can finish from.
        An inadmissible request changes nothing, and if nothing fails the candidate is activated. */
    method AsyncActivate(candidate: Stamp, fingerprint: nat, expectedRevision: Option<nat>, expectedGeneration: nat,
                         id: nat, legacyBlocks: bool, compiles: bool,
                         changed: Option<Option<ActiveReference>>, w: World)
      returns (outcome: Outcome, ghost base: Durable, ghost trail: seq<Durable>)
      requires WellStored(durable) && (changed.Some? ==> WellStored(durable.(active := changed.value)))
      modifies this
      ensures base == if changed.Some? && Admissible(old(durable.active), candidate, fingerprint, expectedRevision,
                                                     expectedGeneration, legacyBlocks, compiles)
                      then old(durable).(active := changed.value) else old(durable)
      ensures WellStored(base)
      ensures if id in base.attempts then outcome.Rejected? && durable == base && trail == []
              else Resumable(base, durable, id) && (forall d <- trail :: Resumable(base, d, id))
                   && Trailed(base, trail, durable, id)
      ensures outcome.Rejected? ==> runtime == old(runtime) && staged == old(staged) && durable.active == base.active
      ensures !outcome.Rejected? ==> staged.None? && Agrees(runtime, durable.active) && id in durable.attempts
                                     && durable.attempts[id].candidate == candidate
      ensures outcome.Activated? ==> durable.attempts[id].state.Committed?
      ensures outcome.Activated? || outcome.RaisedAfterCommit? ==>
                && durable.active == Some(Replacement(durable.attempts[id]))
                && runtime == Some(RuntimeData(Some(candidate), Some(Host(true))))
      ensures outcome.RaisedAfterCommit? ==> !w.recover.Works?
      ensures outcome.RolledBackTo? ==> durable.active == base.active
      ensures outcome.RolledBackTo? && outcome.restored ==>
                && durable.attempts[id].previous == StampOf(base.active)
                && runtime.Some? && runtime.value.stamp == StampOf(base.active)
      ensures outcome.RolledBackTo? && !w.record.Refused? ==>
                durable.attempts[id].state == if outcome.restored then RolledBack else Failed
      ensures var admissible := Admissible(old(durable.active), candidate, fingerprint, expectedRevision,
                                           expectedGeneration, legacyBlocks, compiles);
        && (!admissible ==> outcome.Rejected? && durable == old(durable))
        && ((&& admissible && changed.None? && Unobstructed(old(durable), id, candidate)
             && old(staged).None? && Smooth(w)) ==> outcome.Activated?)
        && (admissible && Superseded(base, id, candidate, expectedRevision, expectedGeneration) && w.prepare.Works? ==>
              outcome.Rejected? && Ended(base, durable, id, w))
    {
      var ok;
      ok, base, trail := PrepareAttempt(candidate, fingerprint, expectedRevision, expectedGeneration, id,
                                        legacyBlocks, compiles, changed, w);
      if !ok || staged.Some? {
        return Rejected, base, trail;
      }
      staged := Some(Selection(Some(candidate), Some(id)));
      ghost var more;
      ghost var before := durable;
      ok, more := HandOver(base, id, w);
      TrailsJoin(base, trail, before, more, durable, id);
      trail, before := trail + more, durable;
      MarkerTellsTheSide(base, durable, id);
      DurableCommitIsTheMarker(base, durable, id);
      if ok {
        staged := None;
        return Activated, base, trail;
      }
      if IsDurableCommit(durable.active, id, candidate) {
        staged := None;
        return RaisedAfterCommit, base, trail;
      }
      var restored;
      restored, more := RollBack(base, id, w);
      TrailsJoin(base, trail, before, more, durable, id);
      trail := trail + more;
      return RolledBackTo(restored), base, trail;
    }
  }

  // ----- recovery after a restart

  /** `_attempt_belongs_to_loaded_authority`. */
  predicate Belongs(a: Attempt, active: Option<ActiveReference>, loaded: Option<Stamp>) {
    if active.Some? then a.candidate.scope == active.value.stamp.scope
    else if loaded.Some? then a.candidate.scope == loaded.value.scope
    else a.previous.None?
  }

  /** Whether recovery reports a successful rollback of `a`; the evidence is then the loaded stamp. */
  predicate ClaimsRollback(a: Attempt, active: Option<ActiveReference>, loaded: Option<Stamp>) {
    if active.Some? && active.value.operation == a.id && active.value.stamp.revision == a.candidate.revision then false
    else
      || (a.previous.None? && loaded.None? && active.None?)
      || (loaded.Some? && RevisionOf(a.previous) == Some(loaded.value.revision))
  }

  function HeatingClaim(a: Attempt, active: Option<ActiveReference>, loaded: Option<Stamp>): Claim {
    if !Belongs(a, active, loaded) then Skip
    else if ClaimsRollback(a, active, loaded) then Report(true, loaded)
    else Report(false, None)
  }

  /** `async_recover_interrupted_activation`, run by setup once the selected runtime is published. */
  method RecoverInterrupted(d: Durable, selection: Selection, locked: bool, pending: seq<nat>, io: map<nat, Io>)
    returns (r: Reply)
    requires forall id <- pending :: id in d.attempts && id in io
    ensures selection.attempt.Some? || locked ==> r == Reply(d, true)
    ensures selection.attempt.None? && !locked ==>
              r == RecoverEach(d, pending, (a: Attempt) => HeatingClaim(a, d.active, selection.stamp), io)
    ensures selection.attempt.None? && !locked && WellStored(d) && Distinct(pending) ==>
              RecoveredInTurn(d, pending, (a: Attempt) => HeatingClaim(a, d.active, selection.stamp), io, r)
  {
    if selection.attempt.Some? || locked {
      return Reply(d, true);
    }
    r := RecoverAttempts(d, pending, (a: Attempt) => HeatingClaim(a, d.active, selection.stamp), io);
  }

  /** A rollback is claimed only for an attempt that did not commit and whose previous revision is the one
      loaded, no revision counting as loaded when there is no authority. */
  lemma RollbackClaimsAreTrue(d: Durable, id: nat, loaded: Option<Stamp>)
    requires WellStored(d) && id in d.attempts
    ensures var a := d.attempts[id];
      HeatingClaim(a, d.active, loaded).Report? && HeatingClaim(a, d.active, loaded).rollback ==>
        !CommittedBy(d.active, a) && RevisionOf(a.previous) == RevisionOf(loaded) && (loaded.None? ==> d.active.None?)
  {}

  /** Whatever durable state of an activation the process dies in, the restart selects its runtime from that
      state alone, and if it loads, recovery finishes the attempt: committed if the swap had happened, rolled
      back if not. It is left alone exactly when authority belongs to another scope. */
  lemma CrashIsAllOrNothing(base: Durable, d: Durable, id: nat)
    requires Fresh(base, id) && Resumable(base, d, id) && id in d.attempts && !Terminal(d.attempts[id].state)
    ensures var a := d.attempts[id];
      var loaded := Select(None, d.active).stamp;
      var claim := HeatingClaim(a, d.active, loaded);
      var r := RecoverOne(d, id, claim, Works);
      && loaded == StampOf(d.active)
      && (claim.Skip? <==> base.active.Some? && base.active.value.stamp.scope != a.candidate.scope)
      && (claim.Report? ==>
            && r.ok && r.durable.active == d.active
            && (d.active == Some(Replacement(a)) ==> r.durable.attempts[id].state.Committed?)
            && (d.active != Some(Replacement(a)) ==>
                  d.active == base.active && r.durable.attempts[id].state.RolledBack?))
  {
    MarkerTellsTheSide(base, d, id);
  }
}
