/** The coordinator over whole runs: any operations on any attempts, in any order, whatever storage does with them. */
module ActivationRuns {
  import opened ActivationCore
  import opened Wrappers

  datatype Op =
    | PrepareOp(id: nat, candidate: Stamp, io: Io)
    | BeginOp(id: nat, io: Io)
    | ReadyOp(id: nat, runtime: Stamp, io: Io)
    | CommitOp(id: nat, swap: Io, mark: Io)
    | FailOp(id: nat, rollback: bool, stamp: Option<Stamp>, io: Io)
    | RecoverOp(id: nat, rollback: bool, stamp: Option<Stamp>, io: Io)

  function CommitStep(d: Durable, id: nat, swap: Io, mark: Io): Reply {
    var r := Swap(d, id, swap);
    if r.ok then MarkCommitted(r.durable, id, mark) else r
  }

  function Apply(d: Durable, op: Op): Reply {
    match op
    case PrepareOp(id, candidate, io) => Prepare(d, id, candidate, io)
    case BeginOp(id, io) => BeginApplying(d, id, io)
    case ReadyOp(id, runtime, io) => RecordReady(d, id, runtime, io)
    case CommitOp(id, swap, mark) => CommitStep(d, id, swap, mark)
    case FailOp(id, rollback, stamp, io) => RecordFailed(d, id, rollback, stamp, io)
    case RecoverOp(id, rollback, stamp, io) => Recover(d, id, rollback, stamp, io)
  }

  function Run(d: Durable, ops: seq<Op>): Durable
    decreases |ops|
  {
    if ops == [] then d else Run(Apply(d, ops[0]).durable, ops[1..])
  }

  const START := Durable(None, map[])

  /** An attempt carries the evidence its state calls for, and no other. */
  predicate Evidenced(a: Attempt) {
    && (a.ready.Some? ==> a.ready == Some(a.candidate) && !a.state.Prepared?)
    && (a.state.Committed? ==> a.ready.Some?)
    && (a.rollbackStamp.Some? ==> a.rollbackStamp == a.previous)
    && (a.state.RolledBack? && a.previous.Some? ==> a.rollbackStamp == a.previous)
  }

  predicate OneUnfinished(d: Durable) {
    forall x <- d.attempts, y <- d.attempts ::
      (&& !Terminal(d.attempts[x].state) && !Terminal(d.attempts[y].state)
       && d.attempts[x].candidate.scope == d.attempts[y].candidate.scope) ==> x == y
  }

  /** Authority is what an attempt that was ready replaced it with; nothing was committed in its generation but that. */
  predicate Owned(d: Durable) {
    && (d.active.Some? ==>
          && d.active.value.operation in d.attempts
          && d.active == Some(Replacement(d.attempts[d.active.value.operation]))
          && d.attempts[d.active.value.operation].ready.Some?)
    && (forall x <- d.attempts :: d.attempts[x].state.Committed? ==>
          && d.attempts[x].expectedGeneration < GenerationOf(d.active)
          && (d.attempts[x].expectedGeneration + 1 == GenerationOf(d.active) ==> d.active.value.operation == x))
  }

  predicate OneCommitPerGeneration(d: Durable) {
    forall x <- d.attempts, y <- d.attempts ::
      (&& d.attempts[x].state.Committed? && d.attempts[y].state.Committed?
       && d.attempts[x].expectedGeneration == d.attempts[y].expectedGeneration) ==> x == y
  }

  predicate Inv(d: Durable) {
    && (forall x <- d.attempts :: d.attempts[x].id == x && Evidenced(d.attempts[x]))
    && OneUnfinished(d) && Owned(d) && OneCommitPerGeneration(d)
  }

  // ----- one step

  /** How an attempt may go on: to the end only, and no further. */
  predicate Advances(a: Attempt, b: Attempt) {
    && b == a.(state := b.state, ready := b.ready, rollbackStamp := b.rollbackStamp)
    && (Terminal(a.state) ==> b == a)
    && (a.state.Prepared? ==> !b.state.Committed?)
    && (a.state.Applying? ==> !b.state.Prepared?)
  }

  lemma WriteKeeps(d: Durable, b: Attempt, io: Io)
    requires Inv(d) && b.id in d.attempts && Advances(d.attempts[b.id], b) && Evidenced(b)
    requires b.state.Committed? && !d.attempts[b.id].state.Committed? ==> CommittedBy(d.active, d.attempts[b.id])
    requires d.attempts[b.id].ready.Some? ==> b.ready.Some?
    ensures Inv(Write(d, b, io).durable)
  {}

  lemma PrepareKeeps(d: Durable, id: nat, candidate: Stamp, io: Io)
    requires Inv(d)
    ensures Inv(Prepare(d, id, candidate, io).durable)
    ensures forall x <- d.attempts :: x in Prepare(d, id, candidate, io).durable.attempts
                                      && Prepare(d, id, candidate, io).durable.attempts[x] == d.attempts[x]
  {}

  lemma AuthoritysAttempt(d: Durable, id: nat)
    requires Inv(d) && id in d.attempts && CommittedBy(d.active, d.attempts[id])
    ensures d.active == Some(Replacement(d.attempts[id])) && d.attempts[id].ready.Some?
  {}

  lemma RecoverKeeps(d: Durable, id: nat, rollback: bool, stamp: Option<Stamp>, io: Io)
    requires Inv(d)
    ensures Inv(Recover(d, id, rollback, stamp, io).durable)
  {
    hide Inv, Write;
    if id in d.attempts {
      var a := d.attempts[id];
      OneIsEvidenced(d, id);
      if !Terminal(a.state) {
        if CommittedBy(d.active, a) {
          AuthoritysAttempt(d, id);
          WriteKeeps(d, a.(state := Committed), io);
        } else if RollbackProven(a, rollback, stamp) && RollbackStampFits(a, stamp) {
          WriteKeeps(d, Rolled(a, rollback, stamp), io);
        }
      }
    }
  }

  lemma OneIsEvidenced(d: Durable, id: nat)
    requires Inv(d) && id in d.attempts
    ensures d.attempts[id].id == id && Evidenced(d.attempts[id])
  {}

  lemma FailKeeps(d: Durable, id: nat, rollback: bool, stamp: Option<Stamp>, io: Io)
    requires Inv(d)
    ensures Inv(RecordFailed(d, id, rollback, stamp, io).durable)
  {
    hide Inv, Write;
    if id in d.attempts {
      OneIsEvidenced(d, id);
      var a := d.attempts[id];
      if a.state.Applying? && RollbackProven(a, rollback, stamp) && RollbackStampFits(a, stamp) {
        WriteKeeps(d, Rolled(a, rollback, stamp), io);
      }
    }
  }

  lemma BeginKeepsInv(d: Durable, id: nat, io: Io)
    requires Inv(d)
    ensures Inv(BeginApplying(d, id, io).durable)
  {
    hide Inv, Write;
    if id in d.attempts && d.attempts[id].state.Prepared? {
      OneIsEvidenced(d, id);
      WriteKeeps(d, d.attempts[id].(state := Applying), io);
    }
  }

  lemma ReadyKeepsInv(d: Durable, id: nat, runtime: Stamp, io: Io)
    requires Inv(d)
    ensures Inv(RecordReady(d, id, runtime, io).durable)
  {
    hide Inv, Write;
    if id in d.attempts && d.attempts[id].state.Applying? && runtime == d.attempts[id].candidate {
      OneIsEvidenced(d, id);
      WriteKeeps(d, d.attempts[id].(ready := Some(runtime)), io);
    }
  }

  /** The swap moves authority on by one generation, within its scope, from what the attempt was prepared on. */
  predicate Moves(before: Option<ActiveReference>, after: Option<ActiveReference>, a: Attempt) {
    && after == Some(Replacement(a)) && a.state.Applying? && a.ready == Some(a.candidate)
    && after.value.generation == GenerationOf(before) + 1
    && SameRevision(StampOf(before), a.previous)
    && (before.Some? ==> before.value.stamp.scope == after.value.stamp.scope)
  }

  lemma SwapMoves(d: Durable, id: nat, io: Io)
    ensures var e := Swap(d, id, io).durable;
      && e.attempts == d.attempts
      && (e.active == d.active || (id in d.attempts && Moves(d.active, e.active, d.attempts[id])))
    ensures Swap(d, id, io).ok ==>
              id in d.attempts && Swap(d, id, io).durable.active == Some(Replacement(d.attempts[id]))
  {}

  lemma MovedKeeps(d: Durable, active: Option<ActiveReference>, id: nat)
    requires Inv(d) && id in d.attempts && Moves(d.active, active, d.attempts[id])
    ensures Inv(d.(active := active))
  {}

  lemma CommitKeeps(d: Durable, id: nat, swap: Io, mark: Io)
    requires Inv(d)
    ensures Inv(CommitStep(d, id, swap, mark).durable)
  {
    hide Inv, Swap, Write, Moves;
    var r := Swap(d, id, swap);
    SwapMoves(d, id, swap);
    if r.durable.active != d.active {
      MovedKeeps(d, r.durable.active, id);
    }
    assert r.durable == d.(active := r.durable.active);
    if r.ok && d.attempts[id].state.Applying? {
      OneIsEvidenced(d, id);
      AuthoritysAttempt(r.durable, id);
      WriteKeeps(r.durable, d.attempts[id].(state := Committed), mark);
    }
  }

  lemma StepKeepsInv(d: Durable, op: Op)
    requires Inv(d)
    ensures Inv(Apply(d, op).durable)
  {
    hide Inv, Prepare, BeginApplying, RecordReady, CommitStep, RecordFailed, Recover;
    match op
    case PrepareOp(id, candidate, io) => PrepareKeeps(d, id, candidate, io);
    case BeginOp(id, io) => BeginKeepsInv(d, id, io);
    case ReadyOp(id, runtime, io) => ReadyKeepsInv(d, id, runtime, io);
    case CommitOp(id, swap, mark) => CommitKeeps(d, id, swap, mark);
    case FailOp(id, rollback, stamp, io) => FailKeeps(d, id, rollback, stamp, io);
    case RecoverOp(id, rollback, stamp, io) => RecoverKeeps(d, id, rollback, stamp, io);
  }

  lemma {:induction false} RunKeepsInv(d: Durable, ops: seq<Op>)
    requires Inv(d)
    ensures Inv(Run(d, ops))
    decreases |ops|
  {
    hide Inv, Apply;
    if ops != [] {
      StepKeepsInv(d, ops[0]);
      RunKeepsInv(Apply(d, ops[0]).durable, ops[1..]);
    }
  }

  // ----- the results

  /** Whatever is attempted, crashes in storage included: a scope never has two unfinished attempts, no two attempts are
      ever committed in the same generation, authority is the candidate of an attempt that was ready for it, and a
      rollback is on record only with the previous revision's own stamp. */
  lemma {:induction false} CoordinatorIsSafe(ops: seq<Op>)
    ensures var d := Run(START, ops);
      && OneUnfinished(d) && OneCommitPerGeneration(d) && Owned(d)
      && forall x <- d.attempts :: d.attempts[x].id == x && Evidenced(d.attempts[x])
  {
    RunKeepsInv(START, ops);
  }

  lemma WriteAdvances(d: Durable, b: Attempt, io: Io, x: nat)
    requires x in d.attempts && b.id in d.attempts && Advances(d.attempts[b.id], b)
    ensures var e := Write(d, b, io).durable; x in e.attempts && Advances(d.attempts[x], e.attempts[x])
  {}

  lemma EndAdvances(d: Durable, id: nat, rollback: bool, stamp: Option<Stamp>, io: Io, x: nat)
    requires Inv(d) && x in d.attempts
    ensures var e := RecordFailed(d, id, rollback, stamp, io).durable;
      x in e.attempts && Advances(d.attempts[x], e.attempts[x])
    ensures var e := Recover(d, id, rollback, stamp, io).durable;
      x in e.attempts && Advances(d.attempts[x], e.attempts[x])
  {
    hide Inv, Write, RollbackProven, RollbackStampFits;
    if id in d.attempts {
      OneIsEvidenced(d, id);
      var a := d.attempts[id];
      if !Terminal(a.state) {
        WriteAdvances(d, Rolled(a, rollback, stamp), io, x);
        if CommittedBy(d.active, a) {
          AuthoritysAttempt(d, id);
          WriteAdvances(d, a.(state := Committed), io, x);
        }
      }
    }
  }

  lemma CommitAdvances(d: Durable, id: nat, swap: Io, mark: Io, x: nat)
    requires Inv(d) && x in d.attempts
    ensures var e := CommitStep(d, id, swap, mark).durable;
      x in e.attempts && Advances(d.attempts[x], e.attempts[x])
  {
    hide Inv, Write, Swap, Moves;
    SwapMoves(d, id, swap);
    if id in d.attempts && d.attempts[id].state.Applying? {
      OneIsEvidenced(d, id);
      WriteAdvances(Swap(d, id, swap).durable, d.attempts[id].(state := Committed), mark, x);
    }
  }

  lemma StepAdvances(d: Durable, op: Op, x: nat)
    requires Inv(d) && x in d.attempts
    ensures var e := Apply(d, op).durable; x in e.attempts && Advances(d.attempts[x], e.attempts[x])
  {
    hide Inv, Write, CommitStep, RecordFailed, Recover, Prepare;
    if op.id in d.attempts {
      OneIsEvidenced(d, op.id);
    }
    match op
    case PrepareOp(id, candidate, io) => PrepareKeeps(d, id, candidate, io);
    case BeginOp(id, io) =>
      if id in d.attempts && d.attempts[id].state.Prepared? {
        WriteAdvances(d, d.attempts[id].(state := Applying), io, x);
      }
    case ReadyOp(id, runtime, io) =>
      if id in d.attempts && d.attempts[id].state.Applying? {
        WriteAdvances(d, d.attempts[id].(ready := Some(runtime)), io, x);
      }
    case CommitOp(id, swap, mark) => CommitAdvances(d, id, swap, mark, x);
    case FailOp(id, rollback, stamp, io) => EndAdvances(d, id, rollback, stamp, io, x);
    case RecoverOp(id, rollback, stamp, io) => EndAdvances(d, id, rollback, stamp, io, x);
  }

  /** An attempt is never deleted, its candidate and what it was prepared on never change, it goes from prepared to
      applying to its end or straight to a failure, and what has ended stays exactly as it is. */
  lemma {:induction false} AttemptsOnlyAdvance(ops: seq<Op>, later: seq<Op>, op: Op, x: nat)
    requires x in Run(START, ops).attempts
    ensures var (d, e) := (Run(START, ops), Run(Run(START, ops), later));
      var f := Apply(e, op).durable;
      && x in e.attempts && Advanced(d.attempts[x], e.attempts[x])
      && x in f.attempts && Advances(e.attempts[x], f.attempts[x])
  {
    hide Apply, Run, Inv;
    StartIsSafe();
    RunKeepsInv(START, ops);
    RunKeepsInv(Run(START, ops), later);
    StaysAdvanced(Run(START, ops), later, x);
    StepAdvances(Run(Run(START, ops), later), op, x);
  }

  lemma StartIsSafe()
    ensures Inv(START)
  {}

  /** What any number of steps make of an attempt. */
  predicate Advanced(a: Attempt, b: Attempt) {
    && b == a.(state := b.state, ready := b.ready, rollbackStamp := b.rollbackStamp)
    && (Terminal(a.state) ==> b == a)
    && (!a.state.Prepared? ==> !b.state.Prepared?)
  }

  lemma {:induction false} StaysAdvanced(d: Durable, later: seq<Op>, x: nat)
    requires Inv(d) && x in d.attempts
    ensures var e := Run(d, later); x in e.attempts && Advanced(d.attempts[x], e.attempts[x])
    decreases |later|
  {
    hide Inv, Apply;
    if later != [] {
      StepAdvances(d, later[0], x);
      StepKeepsInv(d, later[0]);
      StaysAdvanced(Apply(d, later[0]).durable, later[1..], x);
    }
  }

  /** The operation comes at its turn in the attempt's life. */
  predicate InTurn(d: Durable, op: Op) {
    match op
    case PrepareOp(id, candidate, _) => id !in d.attempts && !ScopeBusy(d, candidate.scope)
    case BeginOp(id, _) => id in d.attempts && d.attempts[id].state.Prepared?
    case ReadyOp(id, runtime, _) =>
      id in d.attempts && d.attempts[id].state.Applying? && runtime == d.attempts[id].candidate
    case CommitOp(id, _, _) =>
      id in d.attempts && d.attempts[id].state.Applying? && d.attempts[id].ready == Some(d.attempts[id].candidate)
    case FailOp(id, rollback, stamp, _) =>
      id in d.attempts && d.attempts[id].state.Applying? && RollbackProven(d.attempts[id], rollback, stamp)
    case RecoverOp(id, _, _, _) => id in d.attempts
  }

  /** An operation out of turn raises and changes nothing, whatever storage would have done. */
  lemma OutOfTurnChangesNothing(d: Durable, op: Op)
    requires !InTurn(d, op)
    ensures Apply(d, op) == Reply(d, false)
  {
    hide Write, ScopeBusy, RollbackProven;
  }

  /** Authority moves only by a commit, by one generation, within its scope, on top of exactly the revision the attempt
      was prepared on; and an operation that storage refuses changes nothing. */
  lemma {:induction false} AuthorityMovesByCommitsOnly(ops: seq<Op>, op: Op)
    ensures var d := Run(START, ops);
      var e := Apply(d, op).durable;
      && (e.active != d.active ==> op.CommitOp? && op.id in d.attempts && Moves(d.active, e.active, d.attempts[op.id]))
      && ((if op.CommitOp? then op.swap.Refused? else op.io.Refused?) ==> e == d)
  {
    var d := Run(START, ops);
    if op.CommitOp? {
      SwapMoves(d, op.id, op.swap);
    }
    hide Moves, SameRevision;
  }
}
