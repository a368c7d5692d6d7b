/** The durable side of an activation: one module's active reference and the activation attempts, and the
    coordinator's operations on them. Storage may refuse an operation, or carry it out and then raise. */
module ActivationCore {

  import opened Wrappers

  /** Identity of one revision's runtime: what a loaded runtime is stamped with. */
  datatype Stamp = Stamp(revision: nat, fingerprint: nat, scope: nat)

  datatype ActiveReference = ActiveReference(stamp: Stamp, generation: nat, operation: nat)

  datatype AttemptState = Prepared | Applying | Committed | RolledBack | Failed

  /** `previous` is the authority found at preparation, which is also the last known good one. */
  datatype Attempt = Attempt(
    id: nat, state: AttemptState, candidate: Stamp, previous: Option<Stamp>, expectedGeneration: nat,
    ready: Option<Stamp>, rollbackStamp: Option<Stamp>)

  datatype Durable = Durable(active: Option<ActiveReference>, attempts: map<nat, Attempt>)

  /** How one storage write ends: done, done but raising, or not done and raising. */
  datatype Io = Works | LostReply | Refused

  datatype Reply = Reply(durable: Durable, ok: bool)

  function StampOf(active: Option<ActiveReference>): Option<Stamp> {
    if active.None? then None else Some(active.value.stamp)
  }

  function GenerationOf(active: Option<ActiveReference>): nat {
    if active.None? then 0 else active.value.generation
  }

  function ActiveFor(d: Durable, scope: nat): Option<ActiveReference> {
    if d.active.Some? && d.active.value.stamp.scope == scope then d.active else None
  }

  predicate Terminal(state: AttemptState) {
    state.Committed? || state.RolledBack? || state.Failed?
  }

  function Replacement(a: Attempt): ActiveReference {
    ActiveReference(a.candidate, a.expectedGeneration + 1, a.id)
  }

  /** The commit marker of `a` is the durable active reference. */
  predicate CommittedBy(active: Option<ActiveReference>, a: Attempt) {
    active.Some? && active.value.stamp == a.candidate && active.value.operation == a.id
  }

  function Write(d: Durable, a: Attempt, io: Io): Reply {
    if io.Refused? then Reply(d, false) else Reply(d.(attempts := d.attempts[a.id := a]), io.Works?)
  }

  function NewAttempt(d: Durable, id: nat, candidate: Stamp): Attempt {
    var active := ActiveFor(d, candidate.scope);
    Attempt(id, Prepared, candidate, StampOf(active), GenerationOf(active), None, None)
  }

  predicate ScopeBusy(d: Durable, scope: nat) {
    exists id <- d.attempts :: d.attempts[id].candidate.scope == scope && !Terminal(d.attempts[id].state)
  }

  /** `prepare`: one attempt at a time per scope. */
  function Prepare(d: Durable, id: nat, candidate: Stamp, io: Io): Reply {
    if id in d.attempts || ScopeBusy(d, candidate.scope) then Reply(d, false)
    else Write(d, NewAttempt(d, id, candidate), io)
  }

  function BeginApplying(d: Durable, id: nat, io: Io): Reply {
    if id !in d.attempts || !d.attempts[id].state.Prepared? then Reply(d, false)
    else Write(d, d.attempts[id].(state := Applying), io)
  }

  function RecordReady(d: Durable, id: nat, runtime: Stamp, io: Io): Reply {
    if id !in d.attempts || !d.attempts[id].state.Applying? || runtime != d.attempts[id].candidate then Reply(d, false)
    else Write(d, d.attempts[id].(ready := Some(runtime)), io)
  }

  /** The first half of `commit`: the compare-and-swap makes exactly the replacement active, or nothing. */
  function Swap(d: Durable, id: nat, io: Io): Reply {
    if id !in d.attempts then Reply(d, false)
    else
      var a := d.attempts[id];
      if !a.state.Applying? || a.ready != Some(a.candidate) || io.Refused?
         || (d.active.Some? && d.active.value.stamp.scope != a.candidate.scope)
         || !SameRevision(StampOf(d.active), a.previous) || GenerationOf(d.active) != a.expectedGeneration
      then Reply(d, false)
      else Reply(d.(active := Some(Replacement(a))), io.Works?)
  }

  predicate SameRevision(x: Option<Stamp>, y: Option<Stamp>) {
    (x.None? && y.None?) || (x.Some? && y.Some? && x.value.revision == y.value.revision)
  }

  /** The second half of `commit`: the terminal evidence. */
  function MarkCommitted(d: Durable, id: nat, io: Io): Reply {
    if id !in d.attempts || !d.attempts[id].state.Applying? then Reply(d, false)
    else Write(d, d.attempts[id].(state := Committed), io)
  }

  /** A claimed rollback to a previous revision needs that revision's own stamp. */
  predicate RollbackProven(a: Attempt, rollback: bool, stamp: Option<Stamp>) {
    rollback && a.previous.Some? ==> stamp == a.previous
  }

  predicate RollbackStampFits(a: Attempt, stamp: Option<Stamp>) {
    stamp.Some? ==> stamp == a.previous
  }

  function Rolled(a: Attempt, rollback: bool, stamp: Option<Stamp>): Attempt {
    a.(state := if rollback then RolledBack else Failed, rollbackStamp := stamp)
  }

  function RecordFailed(d: Durable, id: nat, rollback: bool, stamp: Option<Stamp>, io: Io): Reply {
    if id !in d.attempts then Reply(d, false)
    else
      var a := d.attempts[id];
      if !a.state.Applying? || !RollbackProven(a, rollback, stamp) || !RollbackStampFits(a, stamp) then Reply(d, false)
      else Write(d, Rolled(a, rollback, stamp), io)
  }

  /** `recover_interrupted`: a terminal attempt stays, a durable commit marker completes the commit, and
      anything else ends as rolled back or failed. */
  function Recover(d: Durable, id: nat, rollback: bool, stamp: Option<Stamp>, io: Io): Reply {
    if id !in d.attempts then Reply(d, false)
    else
      var a := d.attempts[id];
      if Terminal(a.state) then Reply(d, true)
      else if CommittedBy(ActiveFor(d, a.candidate.scope), a) then
        if a.ready != Some(a.candidate) then Reply(d, false) else Write(d, a.(state := Committed), io)
      else if !RollbackProven(a, rollback, stamp) || !RollbackStampFits(a, stamp) then Reply(d, false)
      else Write(d, Rolled(a, rollback, stamp), io)
  }

  /** The attempts written so far are the ones of `base` except `id`, and the active reference is the one of
      `base` or `id`'s replacement, which carries its own readiness evidence: whatever instant the process
      dies at, this is what a restart finds. */
  predicate Resumable(base: Durable, d: Durable, id: nat) {
    && (forall other <- base.attempts :: other != id ==>
          other in d.attempts && d.attempts[other] == base.attempts[other])
    && (forall other <- d.attempts :: other != id ==> other in base.attempts)
    && (id !in d.attempts ==> d.active == base.active)
    && (id in d.attempts ==> Consistent(base, d.active, d.attempts[id], id))
  }

  predicate Consistent(base: Durable, active: Option<ActiveReference>, a: Attempt, id: nat) {
    && a.id == id
    && a.previous == StampOf(ActiveFor(base, a.candidate.scope))
    && a.expectedGeneration == GenerationOf(ActiveFor(base, a.candidate.scope))
    && (a.ready.Some? ==> a.ready == Some(a.candidate))
    && (active == base.active ||
          (&& active == Some(Replacement(a)) && a.ready.Some? && (a.state.Applying? || a.state.Committed?)
           && (base.active.Some? ==> base.active.value.stamp.scope == a.candidate.scope)))
    && (a.state.Committed? ==> active == Some(Replacement(a)))
  }

  /** Attempts are never deleted and only their commits write the active reference. */
  predicate WellStored(d: Durable) {
    && (d.active.Some? ==> d.active.value.operation in d.attempts)
    && (forall id <- d.attempts :: d.attempts[id].id == id)
  }

  predicate Fresh(base: Durable, id: nat) {
    WellStored(base) && id !in base.attempts
  }

  /** Attempt `id` is in the store on top of `base`, applying or committed. */
  predicate Underway(base: Durable, d: Durable, id: nat) {
    && Fresh(base, id) && Resumable(base, d, id) && id in d.attempts
    && (d.attempts[id].state.Applying? || d.attempts[id].state.Committed?)
  }

  predicate OwnScope(base: Durable, scope: nat) {
    base.active.Some? ==> base.active.value.stamp.scope == scope
  }

  predicate Applies(d: Durable, id: nat) {
    id in d.attempts && d.attempts[id].state.Applying?
  }

  /** The swap finds everything it asks for. */
  predicate Committable(base: Durable, d: Durable, id: nat) {
    && Applies(d, id) && d.active == base.active && d.attempts[id].ready == Some(d.attempts[id].candidate)
    && OwnScope(base, d.attempts[id].candidate.scope)
  }

  lemma UntouchedResumes(d: Durable, id: nat)
    requires id !in d.attempts
    ensures Resumable(d, d, id)
  {}

  lemma PrepareResumes(d: Durable, id: nat, candidate: Stamp, io: Io)
    requires Fresh(d, id)
    ensures Resumable(d, Prepare(d, id, candidate, io).durable, id)
    ensures Prepare(d, id, candidate, io).durable.active == d.active
    ensures Prepare(d, id, candidate, io).ok ==>
              id in Prepare(d, id, candidate, io).durable.attempts
              && Prepare(d, id, candidate, io).durable.attempts[id] == NewAttempt(d, id, candidate)
    ensures Prepare(d, id, candidate, io).ok ==> !ScopeBusy(d, candidate.scope)
    ensures !ScopeBusy(d, candidate.scope) && io.Works? ==> Prepare(d, id, candidate, io).ok
  {}

  lemma BeginResumes(base: Durable, d: Durable, id: nat, io: Io)
    requires Fresh(base, id) && Resumable(base, d, id)
    ensures Resumable(base, BeginApplying(d, id, io).durable, id)
  {}

  lemma ReadyResumes(base: Durable, d: Durable, id: nat, runtime: Stamp, io: Io)
    requires Fresh(base, id) && Resumable(base, d, id)
    ensures Resumable(base, RecordReady(d, id, runtime, io).durable, id)
  {}

  lemma BeginKeeps(base: Durable, d: Durable, id: nat, io: Io)
    requires Fresh(base, id) && Resumable(base, d, id) && id in d.attempts
    ensures var r := BeginApplying(d, id, io);
      && Resumable(base, r.durable, id) && SameAttempt(d, r.durable, id) && r.durable.active == d.active
      && (r.durable.attempts[id].state == d.attempts[id].state || Applies(r.durable, id))
      && (r.ok ==> Applies(r.durable, id)) && (d.attempts[id].state.Prepared? && io.Works? ==> r.ok)
  {
    BeginResumes(base, d, id, io);
  }

  lemma ReadyKeeps(base: Durable, d: Durable, id: nat, runtime: Stamp, io: Io)
    requires Fresh(base, id) && Resumable(base, d, id) && Applies(d, id)
    ensures var r := RecordReady(d, id, runtime, io);
      && Resumable(base, r.durable, id) && SameAttempt(d, r.durable, id) && r.durable.active == d.active
      && Applies(r.durable, id) && (r.ok ==> r.durable.attempts[id].ready == Some(d.attempts[id].candidate))
      && (runtime == d.attempts[id].candidate && io.Works? ==> r.ok)
  {
    ReadyResumes(base, d, id, runtime, io);
  }

  lemma SwapResumes(base: Durable, d: Durable, id: nat, io: Io)
    requires Fresh(base, id) && Resumable(base, d, id)
    ensures Resumable(base, Swap(d, id, io).durable, id)
    ensures Swap(d, id, io).ok ==>
              id in d.attempts && Swap(d, id, io).durable.active == Some(Replacement(d.attempts[id]))
  {}

  /** Authority moves only from exactly the revision and generation the attempt was prepared against, by one
      generation, to the attempt's candidate under its own marker. */
  lemma SwapMovesOneGeneration(d: Durable, id: nat, io: Io)
    requires id in d.attempts && d.active != Swap(d, id, io).durable.active
    ensures var a, after := d.attempts[id], Swap(d, id, io).durable;
      && GenerationOf(after.active) == GenerationOf(d.active) + 1
      && SameRevision(StampOf(d.active), a.previous) && GenerationOf(d.active) == a.expectedGeneration
      && CommittedBy(after.active, a) && after.attempts == d.attempts
      && a.state.Applying? && a.ready == Some(a.candidate)
  {}

  lemma MarkResumes(base: Durable, d: Durable, id: nat, io: Io)
    requires Fresh(base, id) && Resumable(base, d, id) && id in d.attempts && CommittedBy(d.active, d.attempts[id])
    ensures Resumable(base, MarkCommitted(d, id, io).durable, id)
  {}

  lemma FailedResumes(base: Durable, d: Durable, id: nat, rollback: bool, stamp: Option<Stamp>, io: Io)
    requires Fresh(base, id) && Resumable(base, d, id)
    requires id in d.attempts ==> !CommittedBy(d.active, d.attempts[id])
    ensures Resumable(base, RecordFailed(d, id, rollback, stamp, io).durable, id)
  {}

  lemma RecoverResumes(base: Durable, d: Durable, id: nat, rollback: bool, stamp: Option<Stamp>, io: Io)
    requires Fresh(base, id) && Resumable(base, d, id)
    ensures Resumable(base, Recover(d, id, rollback, stamp, io).durable, id)
  {
    if id in d.attempts {
      var a := d.attempts[id];
      WriteResumes(base, d, a.(state := Committed), io);
      WriteResumes(base, d, Rolled(a, rollback, stamp), io);
    }
  }

  lemma WriteResumes(base: Durable, d: Durable, a: Attempt, io: Io)
    requires Fresh(base, a.id) && Resumable(base, d, a.id)
    ensures a.id in d.attempts && Consistent(base, d.active, a, a.id) ==> Resumable(base, Write(d, a, io).durable, a.id)
  {}

  /** Which side of the swap the store is on is visible in the commit marker. */
  lemma MarkerTellsTheSide(base: Durable, d: Durable, id: nat)
    requires Fresh(base, id) && Resumable(base, d, id) && id in d.attempts
    ensures CommittedBy(d.active, d.attempts[id]) <==> d.active == Some(Replacement(d.attempts[id]))
    ensures !CommittedBy(d.active, d.attempts[id]) ==> d.active == base.active
  {}

  // ----- the durable states passed through

  /** One write of attempt `id`, or one of authority. */
  predicate OneWrite(d: Durable, e: Durable, id: nat) {
    || e.attempts == d.attempts
    || (e.active == d.active && e.attempts - {id} == d.attempts - {id})
  }

  /** The states storage goes through from `d` to `e`, one write at a time. */
  predicate Trailed(d: Durable, trail: seq<Durable>, e: Durable, id: nat) {
    if trail == [] then e == d
    else
      && OneWrite(d, trail[0], id) && e == trail[|trail| - 1]
      && (forall i | 0 < i < |trail| :: OneWrite(trail[i - 1], trail[i], id))
  }

  lemma TrailGrows(d: Durable, trail: seq<Durable>, e: Durable, f: Durable, id: nat)
    requires Trailed(d, trail, e, id) && OneWrite(e, f, id)
    ensures Trailed(d, trail + [f], f, id)
  {}

  lemma TrailsJoin(d: Durable, trail: seq<Durable>, e: Durable, more: seq<Durable>, f: Durable, id: nat)
    requires Trailed(d, trail, e, id) && Trailed(e, more, f, id)
    ensures Trailed(d, trail + more, f, id)
  {
    hide OneWrite;
    if more == [] {
      assert trail + more == trail;
    }
  }

  lemma FirstOfTrail(d: Durable, e: Durable, id: nat)
    ensures Trailed(d, [], d, id)
    ensures OneWrite(d, e, id) ==> Trailed(d, [e], e, id)
  {}

  lemma WriteIsOne(d: Durable, a: Attempt, io: Io)
    ensures OneWrite(d, Write(d, a, io).durable, a.id)
  {
    assert d.attempts[a.id := a] - {a.id} == d.attempts - {a.id};
  }

  lemma PrepareIsOne(d: Durable, id: nat, candidate: Stamp, io: Io)
    ensures OneWrite(d, Prepare(d, id, candidate, io).durable, id)
  {
    WriteIsOne(d, NewAttempt(d, id, candidate), io);
  }

  /** So is every operation on a stored attempt. */
  lemma OperationIsOne(d: Durable, id: nat, io: Io)
    requires id in d.attempts && d.attempts[id].id == id
    ensures OneWrite(d, BeginApplying(d, id, io).durable, id)
    ensures OneWrite(d, MarkCommitted(d, id, io).durable, id)
    ensures OneWrite(d, Swap(d, id, io).durable, id)
  {
    hide OneWrite, Write;
    AuthorityIsOne(d);
    WriteIsOne(d, d.attempts[id].(state := Applying), io);
    WriteIsOne(d, d.attempts[id].(state := Committed), io);
  }

  lemma AuthorityIsOne(d: Durable)
    ensures forall active, id :: OneWrite(d, d.(active := active), id)
    ensures forall id :: OneWrite(d, d, id)
  {}

  lemma ReadyIsOne(d: Durable, id: nat, runtime: Stamp, io: Io)
    requires id in d.attempts && d.attempts[id].id == id
    ensures OneWrite(d, RecordReady(d, id, runtime, io).durable, id)
  {
    hide OneWrite, Write;
    AuthorityIsOne(d);
    WriteIsOne(d, d.attempts[id].(ready := Some(runtime)), io);
  }

  lemma EndIsOne(d: Durable, id: nat, rollback: bool, stamp: Option<Stamp>, io: Io)
    requires id in d.attempts && d.attempts[id].id == id
    ensures OneWrite(d, RecordFailed(d, id, rollback, stamp, io).durable, id)
    ensures OneWrite(d, Recover(d, id, rollback, stamp, io).durable, id)
  {
    hide OneWrite, Write, RollbackProven, RollbackStampFits;
    AuthorityIsOne(d);
    WriteIsOne(d, Rolled(d.attempts[id], rollback, stamp), io);
    WriteIsOne(d, d.attempts[id].(state := Committed), io);
  }

  // ----- the commit

  /** The attempt is still for the same candidate, on top of the same authority. */
  predicate SameAttempt(d: Durable, e: Durable, id: nat) {
    id in d.attempts && id in e.attempts && e.attempts[id].candidate == d.attempts[id].candidate
    && Replacement(e.attempts[id]) == Replacement(d.attempts[id])
  }

  lemma SwapKeepsUnderway(base: Durable, d: Durable, id: nat, io: Io)
    requires Underway(base, d, id)
    ensures var r := Swap(d, id, io);
      && Underway(base, r.durable, id) && SameAttempt(d, r.durable, id)
      && (r.ok ==> r.durable.active == Some(Replacement(d.attempts[id])) && Applies(r.durable, id))
      && (!CommittedBy(r.durable.active, d.attempts[id]) ==> Applies(r.durable, id))
      && (Committable(base, d, id) && io.Works? ==> r.ok)
  {
    SwapResumes(base, d, id, io);
  }

  lemma MarkKeepsUnderway(base: Durable, d: Durable, id: nat, io: Io)
    requires Underway(base, d, id) && CommittedBy(d.active, d.attempts[id]) && Applies(d, id)
    ensures var r := MarkCommitted(d, id, io);
      && Underway(base, r.durable, id) && SameAttempt(d, r.durable, id) && r.durable.active == d.active
      && (r.ok ==> r.durable.attempts[id].state.Committed?) && (io.Works? ==> r.ok)
  {
    MarkResumes(base, d, id, io);
  }

  /** `commit`: the swap, then the terminal evidence. The durable states passed through are all resumable. */
  method Commit(ghost base: Durable, d: Durable, id: nat, swap: Io, mark: Io)
    returns (r: Reply, ghost trail: seq<Durable>)
    requires Underway(base, d, id)
    ensures Underway(base, r.durable, id) && SameAttempt(d, r.durable, id)
    ensures (forall t <- trail :: Resumable(base, t, id)) && Trailed(d, trail, r.durable, id)
    ensures r.ok ==> r.durable.active == Some(Replacement(d.attempts[id])) && r.durable.attempts[id].state.Committed?
    ensures !CommittedBy(r.durable.active, d.attempts[id]) ==> Applies(r.durable, id)
    ensures Committable(base, d, id) && swap.Works? && mark.Works? ==> r.ok
  {
    hide Swap, MarkCommitted, Consistent, Trailed, OneWrite;
    UnderwayHasId(base, d, id);
    SwapKeepsUnderway(base, d, id, swap);
    OperationIsOne(d, id, swap);
    FirstOfTrail(d, Swap(d, id, swap).durable, id);
    r := Swap(d, id, swap);
    trail := [r.durable];
    if r.ok {
      MarkKeepsUnderway(base, r.durable, id, mark);
      UnderwayHasId(base, r.durable, id);
      OperationIsOne(r.durable, id, mark);
      TrailGrows(d, trail, r.durable, MarkCommitted(r.durable, id, mark).durable, id);
      r := MarkCommitted(r.durable, id, mark);
      trail := trail + [r.durable];
    }
  }

  lemma UnderwayIsResumable(base: Durable, d: Durable, id: nat)
    requires Underway(base, d, id)
    ensures Resumable(base, d, id)
    ensures CommittedBy(d.active, d.attempts[id]) <==> d.active == Some(Replacement(d.attempts[id]))
  {
    MarkerTellsTheSide(base, d, id);
  }

  lemma ResumableHasId(base: Durable, d: Durable, id: nat)
    requires Resumable(base, d, id) && id in d.attempts
    ensures d.attempts[id].id == id
  {}

  lemma UnderwayHasId(base: Durable, d: Durable, id: nat)
    requires Underway(base, d, id)
    ensures d.attempts[id].id == id
  {}

  /** `recover_interrupted` under the attempt's own durable marker completes the commit. */
  lemma ReconcileKeepsUnderway(base: Durable, d: Durable, id: nat, io: Io)
    requires Underway(base, d, id) && CommittedBy(d.active, d.attempts[id])
    ensures var r := Recover(d, id, false, None, io);
      && Underway(base, r.durable, id) && SameAttempt(d, r.durable, id) && r.durable.active == d.active
      && (r.ok ==> r.durable.attempts[id].state.Committed?) && (io.Works? ==> r.ok)
  {
    RecoverResumes(base, d, id, false, None, io);
  }

  /** Recovery leaves authority and the attempt's identity alone. */
  lemma RecoveryKeeps(base: Durable, d: Durable, id: nat, rollback: bool, stamp: Option<Stamp>, io: Io)
    requires Fresh(base, id) && Resumable(base, d, id) && id in d.attempts
    ensures var e := Recover(d, id, rollback, stamp, io).durable;
      Resumable(base, e, id) && e.active == d.active && SameAttempt(d, e, id)
  {
    hide Fresh, CommittedBy, RollbackProven, RollbackStampFits;
    RecoverResumes(base, d, id, rollback, stamp, io);
  }

  /** Without the attempt's marker, evidence that fits ends an unfinished attempt as claimed. */
  lemma RecoveryEnds(d: Durable, id: nat, rollback: bool, stamp: Option<Stamp>, io: Io)
    requires id in d.attempts && !Terminal(d.attempts[id].state) && d.attempts[id].id == id && !io.Refused?
    requires !CommittedBy(d.active, d.attempts[id])
    requires RollbackProven(d.attempts[id], rollback, stamp) && RollbackStampFits(d.attempts[id], stamp)
    ensures Recover(d, id, rollback, stamp, io).durable.attempts[id].state == if rollback then RolledBack else Failed
  {}

  /** So does failure evidence, which is recorded only without the attempt's marker. */
  lemma FailureKeeps(base: Durable, d: Durable, id: nat, rollback: bool, stamp: Option<Stamp>, io: Io)
    requires Fresh(base, id) && Resumable(base, d, id) && id in d.attempts
    requires !(d.active.Some? && d.active.value.operation == id)
    ensures var e := RecordFailed(d, id, rollback, stamp, io).durable;
      Resumable(base, e, id) && e.active == d.active && SameAttempt(d, e, id)
  {
    hide Fresh, RollbackProven, RollbackStampFits;
    FailedResumes(base, d, id, rollback, stamp, io);
  }

  /** An attempt that is over blocks no other one of its scope. */
  lemma EndedFreesTheScope(base: Durable, d: Durable, id: nat)
    requires Fresh(base, id) && Resumable(base, d, id) && id in d.attempts && Terminal(d.attempts[id].state)
    requires !ScopeBusy(base, d.attempts[id].candidate.scope)
    ensures !ScopeBusy(d, d.attempts[id].candidate.scope)
  {}

  // ----- recovery of interrupted attempts

  /** What an adapter reports to recovery about one attempt. */
  datatype Claim = Skip | Report(rollback: bool, stamp: Option<Stamp>)

  function RecoverOne(d: Durable, id: nat, claim: Claim, io: Io): Reply {
    if claim.Skip? then Reply(d, true) else Recover(d, id, claim.rollback, claim.stamp, io)
  }

  /** Every attempt of `ids` in turn, up to the first that raises. */
  function RecoverEach(d: Durable, ids: seq<nat>, claim: Attempt -> Claim, io: map<nat, Io>): Reply
    requires forall id <- ids :: id in d.attempts && id in io
    decreases |ids|
  {
    if ids == [] then Reply(d, true)
    else
      var r := RecoverOne(d, ids[0], claim(d.attempts[ids[0]]), io[ids[0]]);
      RecoverOneKeeps(d, ids[0], claim(d.attempts[ids[0]]), io[ids[0]]);
      if !r.ok then r else RecoverEach(r.durable, ids[1..], claim, io)
  }

  lemma RecoverOneKeeps(d: Durable, id: nat, claim: Claim, io: Io)
    ensures RecoverOne(d, id, claim, io).durable.active == d.active
    ensures forall other <- d.attempts :: other in RecoverOne(d, id, claim, io).durable.attempts
    ensures WellStored(d) ==> WellStored(RecoverOne(d, id, claim, io).durable)
    ensures WellStored(d) ==> RecoverOne(d, id, claim, io).durable.attempts.Keys == d.attempts.Keys
  {}

  lemma {:induction false} RecoverEachKeeps(d: Durable, ids: seq<nat>, claim: Attempt -> Claim, io: map<nat, Io>)
    requires forall id <- ids :: id in d.attempts && id in io
    ensures RecoverEach(d, ids, claim, io).durable.active == d.active
    ensures WellStored(d) ==> WellStored(RecoverEach(d, ids, claim, io).durable)
    decreases |ids|
  {
    if ids != [] {
      var r := RecoverOne(d, ids[0], claim(d.attempts[ids[0]]), io[ids[0]]);
      RecoverOneKeeps(d, ids[0], claim(d.attempts[ids[0]]), io[ids[0]]);
      if r.ok {
        RecoverEachKeeps(r.durable, ids[1..], claim, io);
      }
    }
  }

  /** Recovery of `a` raises: its durable marker lacks the readiness evidence, what is claimed does not fit, or the
      write does not go through. */
  predicate Raises(a: Attempt, active: Option<ActiveReference>, claim: Claim, io: Io) {
    && claim.Report? && !Terminal(a.state)
    && (|| !io.Works?
        || if CommittedBy(active, a) then a.ready != Some(a.candidate)
           else !RollbackProven(a, claim.rollback, claim.stamp) || !RollbackStampFits(a, claim.stamp))
  }

  /** What recovery makes of `a`: nothing if it is skipped or over, otherwise it is committed exactly under its
      marker, rolled back exactly if that was claimed without it, and failed in all other cases. */
  predicate Recovered(a: Attempt, b: Attempt, active: Option<ActiveReference>, claim: Claim) {
    if claim.Skip? || Terminal(a.state) then b == a
    else
      && b == a.(state := b.state, rollbackStamp := b.rollbackStamp) && Terminal(b.state)
      && (b.state.Committed? <==> CommittedBy(active, a))
      && (b.state.RolledBack? <==> !CommittedBy(active, a) && claim.rollback)
      && b.rollbackStamp == if CommittedBy(active, a) then a.rollbackStamp else claim.stamp
  }

  predicate Distinct(ids: seq<nat>) {
    forall i, j | 0 <= i < j < |ids| :: ids[i] != ids[j]
  }

  /** The first `k` attempts of `ids` have been recovered, none of them raising. The next one raised, if there is one;
      those after it and those not listed are as they were. */
  predicate RecoveredUpTo(d: Durable, ids: seq<nat>, claim: Attempt -> Claim, io: map<nat, Io>, r: Reply, k: nat)
    requires forall id <- ids :: id in d.attempts && id in io
  {
    && k <= |ids| && (r.ok <==> k == |ids|)
    && r.durable.active == d.active && r.durable.attempts.Keys == d.attempts.Keys
    && (forall i | 0 <= i < k ::
          var a := d.attempts[ids[i]];
          !Raises(a, d.active, claim(a), io[ids[i]]) && Recovered(a, r.durable.attempts[ids[i]], d.active, claim(a)))
    && (k < |ids| ==>
          var a := d.attempts[ids[k]];
          Raises(a, d.active, claim(a), io[ids[k]])
          && (r.durable.attempts[ids[k]] == a || Recovered(a, r.durable.attempts[ids[k]], d.active, claim(a))))
    && (forall i | k < i < |ids| :: r.durable.attempts[ids[i]] == d.attempts[ids[i]])
    && (forall id <- d.attempts | id !in ids :: r.durable.attempts[id] == d.attempts[id])
  }

  ghost predicate RecoveredInTurn(d: Durable, ids: seq<nat>, claim: Attempt -> Claim, io: map<nat, Io>, r: Reply)
    requires forall id <- ids :: id in d.attempts && id in io
  {
    exists k: nat :: RecoveredUpTo(d, ids, claim, io, r, k)
  }

  lemma RecoverOneEnds(d: Durable, id: nat, claim: Claim, io: Io)
    requires WellStored(d) && id in d.attempts
    ensures var (a, r) := (d.attempts[id], RecoverOne(d, id, claim, io));
      && (r.ok <==> !Raises(a, d.active, claim, io))
      && r.durable.active == d.active && r.durable.attempts.Keys == d.attempts.Keys
      && (forall other <- d.attempts | other != id :: r.durable.attempts[other] == d.attempts[other])
      && (r.ok ==> Recovered(a, r.durable.attempts[id], d.active, claim))
      && (r.durable.attempts[id] == a || Recovered(a, r.durable.attempts[id], d.active, claim))
  {
    var a := d.attempts[id];
    assert CommittedBy(ActiveFor(d, a.candidate.scope), a) <==> CommittedBy(d.active, a);
  }

  /** Recovery goes through all attempts: unless it raises, each that is reported ends as its durable marker and what
      is claimed of it say; if it raises at one, those before it have ended so and those after it are untouched. */
  lemma {:induction false} EachIsRecoveredInTurn(d: Durable, ids: seq<nat>, claim: Attempt -> Claim, io: map<nat, Io>)
    requires WellStored(d) && Distinct(ids) && forall id <- ids :: id in d.attempts && id in io
    ensures RecoveredInTurn(d, ids, claim, io, RecoverEach(d, ids, claim, io))
    decreases |ids|
  {
    hide WellStored, RecoverOne, Recovered, Raises;
    var e := RecoverEach(d, ids, claim, io);
    if ids == [] {
      assert RecoveredUpTo(d, ids, claim, io, e, 0);
    } else {
      var a := d.attempts[ids[0]];
      var r := RecoverOne(d, ids[0], claim(a), io[ids[0]]);
      RecoverOneEnds(d, ids[0], claim(a), io[ids[0]]);
      RecoverOneKeeps(d, ids[0], claim(a), io[ids[0]]);
      if r.ok {
        EachIsRecoveredInTurn(r.durable, ids[1..], claim, io);
        var k: nat :| RecoveredUpTo(r.durable, ids[1..], claim, io, e, k);
        RecoveredFirst(d, ids, claim, io, r, e, k);
      } else {
        assert RecoveredUpTo(d, ids, claim, io, e, 0);
      }
    }
  }

  lemma RecoveredFirst(d: Durable, ids: seq<nat>, claim: Attempt -> Claim, io: map<nat, Io>, r: Reply, e: Reply, k: nat)
    requires ids != [] && Distinct(ids) && (forall id <- ids :: id in d.attempts && id in io)
    requires r.durable.active == d.active && r.durable.attempts.Keys == d.attempts.Keys
    requires forall other <- d.attempts | other != ids[0] :: r.durable.attempts[other] == d.attempts[other]
    requires var a := d.attempts[ids[0]];
      !Raises(a, d.active, claim(a), io[ids[0]]) && Recovered(a, r.durable.attempts[ids[0]], d.active, claim(a))
    requires RecoveredUpTo(r.durable, ids[1..], claim, io, e, k)
    ensures RecoveredUpTo(d, ids, claim, io, e, k + 1)
  {
    hide Recovered, Raises;
    var rest := ids[1..];
    assert forall i | 0 < i < |ids| :: ids[i] == rest[i - 1] && ids[i] != ids[0];
    assert ids[0] !in rest;
  }

  /** So, once recovery succeeds over all unfinished attempts of a scope, a new attempt can be prepared there. */
  lemma RecoveryFreesTheScope(d: Durable, ids: seq<nat>, claim: Attempt -> Claim, io: map<nat, Io>, scope: nat)
    requires WellStored(d) && Distinct(ids) && forall id <- ids :: id in d.attempts && id in io
    requires forall id <- d.attempts ::
      d.attempts[id].candidate.scope == scope && !Terminal(d.attempts[id].state) ==>
        id in ids && claim(d.attempts[id]).Report?
    requires RecoverEach(d, ids, claim, io).ok
    ensures !ScopeBusy(RecoverEach(d, ids, claim, io).durable, scope)
  {
    EachIsRecoveredInTurn(d, ids, claim, io);
    var e := RecoverEach(d, ids, claim, io);
    assert RecoveredUpTo(d, ids, claim, io, e, |ids|);
    forall id <- e.durable.attempts | e.durable.attempts[id].candidate.scope == scope
      ensures Terminal(e.durable.attempts[id].state)
    {
      if id in ids {
        var i :| 0 <= i < |ids| && ids[i] == id;
        assert Recovered(d.attempts[ids[i]], e.durable.attempts[ids[i]], d.active, claim(d.attempts[ids[i]]));
      }
    }
  }

  /** The loop over the non-terminal attempts. */
  method RecoverAttempts(d: Durable, pending: seq<nat>, claim: Attempt -> Claim, io: map<nat, Io>) returns (r: Reply)
    requires forall id <- pending :: id in d.attempts && id in io
    ensures r == RecoverEach(d, pending, claim, io)
    ensures WellStored(d) && Distinct(pending) ==> RecoveredInTurn(d, pending, claim, io, r)
  {
    hide RecoveredInTurn;
    r := Reply(d, true);
    if WellStored(d) && Distinct(pending) {
      EachIsRecoveredInTurn(d, pending, claim, io);
    }
    for i := 0 to |pending|
      invariant r.ok && (forall id <- pending :: id in r.durable.attempts)
      invariant RecoverEach(d, pending, claim, io) == RecoverEach(r.durable, pending[i..], claim, io)
    {
      var a := r.durable.attempts[pending[i]];
      RecoverOneKeeps(r.durable, pending[i], claim(a), io[pending[i]]);
      r := RecoverOne(r.durable, pending[i], claim(a), io[pending[i]]);
      if !r.ok {
        return;
      }
    }
  }

  /** Recovery never invents an outcome: it ends an attempt as committed only under that attempt's own durable
      marker, and as rolled back only without it and, if there was a previous revision, on that one's stamp. */
  lemma RecoveryIsHonest(d: Durable, id: nat, claim: Claim, io: Io)
    requires id in d.attempts && !Terminal(d.attempts[id].state)
    ensures var a, b := d.attempts[id], RecoverOne(d, id, claim, io).durable.attempts[id];
      && (b.state.Committed? ==> CommittedBy(d.active, a))
      && (b.state.RolledBack? ==> !CommittedBy(d.active, a) && claim.Report? && claim.rollback
                                  && (a.previous.Some? ==> claim.stamp == a.previous))
  {}
}
