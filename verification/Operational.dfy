/** The operational snapshot source: one current snapshot whose countdowns and summaries are derived from its
    base fields and the clock, and a bounded trace. Times are whole microseconds. */
module Operational {

  import opened Wrappers

  datatype RuntimeStatus = Starting | Active | Stopped | FatalError
  datatype MeasurementStatus = Valid | NotValid
  datatype Demand = HeatRequired | NoHeatRequired | Indeterminate
  datatype Confirmation = NotPending | Pending
  datatype ConfirmationReason = Cancelled | OtherReason
  datatype Safety = Normal | Grace | TimeoutApplied | Ended
  datatype SourceControl = Requesting | NotRequesting | OtherControl
  datatype Lockout = MinimumOn | MinimumOff
  datatype Command = Enable | Disable
  datatype Outcome = CommandFailed | OtherOutcome

  /** The fields callers set. */
  datatype Base = Base(
    status: RuntimeStatus, emergencyDisableFailed: bool,
    measurementAt: Option<int>, measurementStatus: MeasurementStatus, maxAge: int,
    safety: Safety, graceDeadline: Option<int>,
    confirmation: Confirmation, confirmationDeadline: Option<int>, confirmationReason: Option<ConfirmationReason>,
    lockout: Option<Lockout>, lockoutDeadline: Option<int>, bypassedLockout: bool,
    deferred: Option<Command>, deferredDeadline: Option<int>,
    debugDeadline: Option<int>, nextEnable: Option<int>,
    demand: Demand, control: SourceControl, lastCommand: Option<Command>, lastOutcome: Outcome,
    decisionCode: Option<nat>, decisionReason: Option<nat>, decisionAt: Option<int>, meaningfulAt: Option<int>)

  datatype SummaryCode =
    | StartingUp | Halted | FatalEmergencyDisableFailed | Fatal | SensorFailureGrace | HeatConfirmationPending
    | HeatConfirmationCancelled | SafetyTimeoutEnableRequested | SafetyTimeoutDisableRequested
    | SafetyDisableBypassedLockout | HeatDeferredMinimumOff | NoHeatDeferredMinimumOn | HeatCommandFailed
    | NoHeatCommandFailed | HeatRequested | NoHeatEnableBoundary | NoHeatRequested | DemandIndeterminate

  /** The human summary, with the value it quotes. */
  datatype SourceSummary =
    | RuntimeFatal | RuntimeStopped | RuntimeStarting | BypassedMinimumOn
    | WaitingMinimumOff(remaining: int) | WaitingMinimumOn(remaining: int) | DeferredUntil(command: Command, at: int)
    | RequestActive | NotRequestedUntil(at: int) | NotRequested | SourceIndeterminate

  datatype Derived = Derived(
    age: Option<int>, staleDeadline: Option<int>, staleRemaining: Option<int>, graceRemaining: Option<int>,
    confirmationRemaining: Option<int>, activeLockoutRemaining: Option<int>, lockoutRemaining: Option<int>,
    deferredRemaining: Option<int>, debugRemaining: Option<int>,
    code: SummaryCode, summary: SourceSummary)

  const BLANK := Derived(None, None, None, None, None, None, None, None, None, StartingUp, RuntimeStarting)

  datatype Snapshot = Snapshot(revision: nat, updatedAt: int, base: Base, derived: Derived)

  function Max0(x: int): nat {
    if x < 0 then 0 else x
  }

  /** Time left to a deadline that has not passed. */
  function Ahead(deadline: Option<int>, now: int): Option<int> {
    if deadline.Some? && deadline.value > now then Some(Max0(deadline.value - now)) else None
  }

  function SummaryCodeOf(b: Base): SummaryCode {
    match b.status
    case Starting => StartingUp
    case Stopped => Halted
    case FatalError => if b.emergencyDisableFailed then FatalEmergencyDisableFailed else Fatal
    case Active =>
      if b.safety.Grace? then SensorFailureGrace
      else if b.confirmation.Pending? then HeatConfirmationPending
      else if b.confirmationReason == Some(Cancelled) then HeatConfirmationCancelled
      else if b.safety.TimeoutApplied? then
        if b.lastCommand == Some(Enable) then SafetyTimeoutEnableRequested else SafetyTimeoutDisableRequested
      else if b.bypassedLockout then SafetyDisableBypassedLockout
      else if b.lockout == Some(MinimumOff) then HeatDeferredMinimumOff
      else if b.lockout == Some(MinimumOn) then NoHeatDeferredMinimumOn
      else if b.lastOutcome.CommandFailed? then
        if b.demand.HeatRequired? then HeatCommandFailed else NoHeatCommandFailed
      else match b.demand
        case HeatRequired => HeatRequested
        case NoHeatRequired => if b.nextEnable.Some? then NoHeatEnableBoundary else NoHeatRequested
        case Indeterminate => DemandIndeterminate
  }

  function SourceSummaryOf(b: Base, d: Derived): SourceSummary {
    if b.status.FatalError? then RuntimeFatal
    else if b.status.Stopped? then RuntimeStopped
    else if b.status.Starting? then RuntimeStarting
    else if b.bypassedLockout then BypassedMinimumOn
    else if b.lockout == Some(MinimumOff) && d.activeLockoutRemaining.Some? then
      WaitingMinimumOff(d.activeLockoutRemaining.value)
    else if b.lockout == Some(MinimumOn) && d.activeLockoutRemaining.Some? then
      WaitingMinimumOn(d.activeLockoutRemaining.value)
    else if b.deferred.Some? && b.deferredDeadline.Some? then DeferredUntil(b.deferred.value, b.deferredDeadline.value)
    else if b.control.Requesting? then RequestActive
    else if b.control.NotRequesting? then
      if b.nextEnable.Some? then NotRequestedUntil(b.nextEnable.value) else NotRequested
    else SourceIndeterminate
  }

  /** `_with_elapsed`: every derived field is replaced, the summaries last because they quote the others. */
  function WithElapsed(s: Snapshot, now: int): Snapshot {
    var b := s.base;
    var staleDeadline :=
      if b.measurementAt.Some? && b.measurementStatus.Valid? then Some(b.measurementAt.value + b.maxAge) else None;
    var lockoutRemaining := if b.lockout.Some? then Ahead(b.lockoutDeadline, now) else None;
    var updated := s.derived.(
      age := if b.measurementAt.Some? then Some(Max0(now - b.measurementAt.value)) else None,
      staleDeadline := staleDeadline,
      staleRemaining := Ahead(staleDeadline, now),
      graceRemaining :=
        if b.graceDeadline.Some? && b.safety.Grace? then Some(Max0(b.graceDeadline.value - now)) else None,
      confirmationRemaining := if b.confirmation.Pending? then Ahead(b.confirmationDeadline, now) else None,
      activeLockoutRemaining := lockoutRemaining,
      lockoutRemaining := lockoutRemaining,
      deferredRemaining := Ahead(b.deferredDeadline, now),
      debugRemaining := Ahead(b.debugDeadline, now));
    s.(derived := updated.(code := SummaryCodeOf(b), summary := SourceSummaryOf(b, updated)))
  }

  /** The derived fields computed from base fields and a clock value alone. */
  function Recomputed(b: Base, now: int): Derived {
    WithElapsed(Snapshot(0, 0, b, BLANK), now).derived
  }

  datatype Countdown =
    MeasurementMaximumAge | GracePeriod | HeatDemandConfirmation | MinimumHeatingOn | MinimumHeatingOff
    | DeferredSourceCommand | DebugProfileExpiry

  function Named(active: bool, names: seq<Countdown>): seq<Countdown> {
    if active then names else []
  }

  /** `active_countdown_names`. */
  function ActiveCountdowns(s: Snapshot): seq<Countdown> {
    var d := s.derived;
    Named(d.staleRemaining.Some?, [MeasurementMaximumAge])
    + Named(d.graceRemaining.Some?, [GracePeriod])
    + Named(d.confirmationRemaining.Some?, [HeatDemandConfirmation])
    + Named(s.base.lockout == Some(MinimumOn) && d.activeLockoutRemaining.Some?,
            [MinimumHeatingOn, DeferredSourceCommand])
    + Named(s.base.lockout == Some(MinimumOff) && d.activeLockoutRemaining.Some?,
            [MinimumHeatingOff, DeferredSourceCommand])
    + Named(d.debugRemaining.Some?, [DebugProfileExpiry])
  }

  // ----- the source

  datatype Record = Record(code: nat, reason: nat, at: int, sequence: nat)

  datatype DecisionField = Code | Reason | At | Meaningful

  /** The fields a trace record fills in unless the caller gave them. */
  function WithDecision(b: Base, given: set<DecisionField>, record: Option<Record>): Base {
    if record.None? then b
    else b.(decisionCode := if Code in given then b.decisionCode else Some(record.value.code),
            decisionReason := if Reason in given then b.decisionReason else Some(record.value.reason),
            decisionAt := if At in given then b.decisionAt else Some(record.value.at),
            meaningfulAt := if Meaningful in given then b.meaningfulAt else Some(record.value.at))
  }

  /** `history` is every record ever accepted, `clock` the last clock value a live operation used. */
  datatype Source = Source(
    snapshot: Snapshot, trace: seq<Record>, capacity: nat, total: nat, closed: bool,
    history: seq<Record>, clock: Option<int>)

  /** `base` and `passed` are the snapshot's fields with the caller's changes in place, `valid` whether the new
      snapshot passes its own validation. If not, the update raises after it has appended its record. */
  datatype Op =
    | Update(now: int, base: Base, passed: Derived, given: set<DecisionField>, record: Option<Record>, valid: bool)
    | Refresh(now: int)
    | Resize(capacity: nat)
    | Close

  function Bounded(records: seq<Record>, capacity: nat): seq<Record> {
    if |records| <= capacity then records else records[|records| - capacity..]
  }

  /** The record's append, numbered with the revision to come. */
  function Append(s: Source, record: Option<Record>): Source {
    if record.None? then s
    else
      var numbered := record.value.(sequence := s.snapshot.revision + 1);
      s.(trace := Bounded(s.trace + [numbered], s.capacity), total := s.total + 1, history := s.history + [numbered])
  }

  function Replace(s: Source, now: int, base: Base, passed: Derived): Source {
    s.(snapshot := WithElapsed(Snapshot(s.snapshot.revision + 1, now, base, passed), now), clock := Some(now))
  }

  function UpdateStep(s: Source, now: int, base: Base, passed: Derived, given: set<DecisionField>,
                      record: Option<Record>, valid: bool): Source
  {
    if s.closed then s
    else if !valid then Append(s, record)
    else Replace(Append(s, record), now, WithDecision(base, given, record), passed)
  }

  function RefreshStep(s: Source, now: int): Source {
    if s.closed then s else s.(snapshot := WithElapsed(s.snapshot, now), clock := Some(now))
  }

  /** A capacity that is not positive is refused. */
  function ResizeStep(s: Source, capacity: nat): Source {
    if capacity == 0 || s.closed || s.capacity == capacity then s
    else s.(trace := Bounded(s.trace, capacity), capacity := capacity)
  }

  function Apply(s: Source, op: Op): Source {
    match op
    case Update(now, base, passed, given, record, valid) => UpdateStep(s, now, base, passed, given, record, valid)
    case Refresh(now) => RefreshStep(s, now)
    case Resize(capacity) => ResizeStep(s, capacity)
    case Close => s.(closed := true)
  }

  function Run(s: Source, ops: seq<Op>): Source
    decreases |ops|
  {
    if ops == [] then s else Run(Apply(s, ops[0]), ops[1..])
  }

  function Start(initial: Snapshot, capacity: nat): Source {
    Source(initial, [], capacity, 0, false, [], None)
  }

  /** The base fields the last live update that did not raise left, and the clock of the last live operation. */
  function LastBase(s: Source, ops: seq<Op>): (Base, Option<int>)
    decreases |ops|
  {
    if ops == [] then (s.snapshot.base, s.clock)
    else
      var (base, clock) := LastBase(s, ops[..|ops| - 1]);
      var op := ops[|ops| - 1];
      if s.closed || Close in ops then (base, clock)
      else match op
        case Update(now, changed, passed, given, record, valid) =>
          if valid then (WithDecision(changed, given, record), Some(now)) else (base, clock)
        case Refresh(now) => (base, Some(now))
        case _ => (base, clock)
  }

  /** The trace is the newest part of the history, within capacity, and numbers do not go back. */
  ghost predicate TraceInv(s: Source) {
    && s.capacity > 0 && |s.trace| <= s.capacity
    && |s.trace| <= |s.history| && s.trace == s.history[|s.history| - |s.trace|..]
    && s.total == |s.history|
    && (forall i, j :: 0 <= i < j < |s.history| ==> s.history[i].sequence <= s.history[j].sequence)
    && (forall r <- s.history :: r.sequence <= s.snapshot.revision + 1)
  }

  lemma AppendKeepsTrace(s: Source, record: Option<Record>)
    requires TraceInv(s)
    ensures TraceInv(Append(s, record)) && Append(s, record).snapshot == s.snapshot
  {
    if record.Some? {
      var numbered := record.value.(sequence := s.snapshot.revision + 1);
      NewestKept(s.trace, s.history, numbered, s.capacity);
    }
  }

  lemma NewestKept(trace: seq<Record>, history: seq<Record>, r: Record, capacity: nat)
    requires 0 < capacity && |trace| <= capacity && |trace| <= |history| && trace == history[|history| - |trace|..]
    ensures var (t, h) := (Bounded(trace + [r], capacity), history + [r]);
      |t| <= capacity && |t| <= |h| && t == h[|h| - |t|..]
  {}

  lemma ResizedKeepsTrace(s: Source, capacity: nat)
    requires TraceInv(s)
    ensures TraceInv(ResizeStep(s, capacity))
  {
    if capacity > 0 {
      NewestOfNewest(s.trace, s.history, capacity);
    }
  }

  lemma NewestOfNewest(trace: seq<Record>, history: seq<Record>, capacity: nat)
    requires |trace| <= |history| && trace == history[|history| - |trace|..]
    ensures var t := Bounded(trace, capacity); |t| <= capacity && |t| <= |history| && t == history[|history| - |t|..]
  {}

  lemma ApplyKeepsTrace(s: Source, op: Op)
    requires TraceInv(s)
    ensures TraceInv(Apply(s, op))
  {
    hide WithElapsed, WithDecision, Append, ResizeStep;
    match op
    case Update(now, base, passed, given, record, valid) =>
      AppendKeepsTrace(s, record);
      ReplaceKeepsTrace(Append(s, record), now, WithDecision(base, given, record), passed);
    case Refresh(now) => RefreshKeepsTrace(s, now);
    case Resize(capacity) => ResizedKeepsTrace(s, capacity);
    case Close =>
  }

  lemma ReplaceKeepsTrace(s: Source, now: int, base: Base, passed: Derived)
    requires TraceInv(s)
    ensures TraceInv(Replace(s, now, base, passed))
    ensures Replace(s, now, base, passed).snapshot.revision == s.snapshot.revision + 1
  {}

  lemma RefreshKeepsTrace(s: Source, now: int)
    requires TraceInv(s)
    ensures TraceInv(RefreshStep(s, now)) && RefreshStep(s, now).snapshot.revision == s.snapshot.revision
  {}

  lemma {:induction false} TraceIsNewestHistory(s: Source, ops: seq<Op>)
    requires TraceInv(s)
    ensures TraceInv(Run(s, ops))
    decreases |ops|
  {
    hide TraceInv, Apply;
    if ops != [] {
      ApplyKeepsTrace(s, ops[0]);
      TraceIsNewestHistory(Apply(s, ops[0]), ops[1..]);
    }
  }

  // ----- what the trace keeps: told by the operations

  /** The revision after a run: one for every update that took effect. */
  function RevisionAfter(revision: nat, ops: seq<Op>): nat {
    if ops == [] then revision
    else
      var before, op := ops[..|ops| - 1], ops[|ops| - 1];
      RevisionAfter(revision, before) + if op.Update? && op.valid && Close !in before then 1 else 0
  }

  /** The records a run has accepted, each with the number of the revision it was to become. */
  function Recorded(revision: nat, ops: seq<Op>): seq<Record> {
    if ops == [] then []
    else
      var before, op := ops[..|ops| - 1], ops[|ops| - 1];
      if op.Update? && op.record.Some? && Close !in before
      then Recorded(revision, before) + [op.record.value.(sequence := RevisionAfter(revision, before) + 1)]
      else Recorded(revision, before)
  }

  lemma StepRecords(s: Source, op: Op)
    ensures var t := Apply(s, op);
      && t.snapshot.revision == s.snapshot.revision + (if op.Update? && op.valid && !s.closed then 1 else 0)
      && t.history == (if op.Update? && op.record.Some? && !s.closed
                       then s.history + [op.record.value.(sequence := s.snapshot.revision + 1)] else s.history)
  {
    hide WithDecision;
  }

  /** Over any run the records ever accepted, and the number of each, are what the operations tell: a record that comes
      with an update of the open source is accepted, whether or not its update then raises. */
  lemma {:induction false} HistoryIsTold(initial: Snapshot, capacity: nat, ops: seq<Op>)
    ensures var s := Run(Start(initial, capacity), ops);
      s.history == Recorded(initial.revision, ops) && s.snapshot.revision == RevisionAfter(initial.revision, ops)
    decreases |ops|
  {
    hide Apply;
    if ops != [] {
      var before, op := ops[..|ops| - 1], ops[|ops| - 1];
      HistoryIsTold(initial, capacity, before);
      assert ops == before + [op];
      RunSplits(Start(initial, capacity), before, op);
      ClosedIff(Start(initial, capacity), before);
      StepRecords(Run(Start(initial, capacity), before), op);
    }
  }

  /** No resize goes below. */
  predicate NeverBelow(ops: seq<Op>, capacity: nat) {
    forall op <- ops :: op.Resize? && op.capacity > 0 ==> op.capacity >= capacity
  }

  /** At least the newest records up to `capacity` are kept. */
  predicate KeepsAtLeast(s: Source, t: Source, capacity: nat) {
    && capacity <= t.capacity && |s.history| <= |t.history|
    && (capacity <= |t.trace| || |s.trace| + |t.history| - |s.history| <= |t.trace|)
  }

  lemma StepKeepsNewest(s: Source, op: Op, capacity: nat)
    requires TraceInv(s) && capacity <= s.capacity && NeverBelow([op], capacity)
    ensures KeepsAtLeast(s, Apply(s, op), capacity)
  {
    hide WithElapsed, WithDecision;
    assert op in [op];
  }

  /** No record is dropped early: as long as the capacity is at least `capacity`, the trace keeps what it had and what
      came since, or at least that many of the newest. */
  lemma {:induction false} NothingIsDroppedEarly(s: Source, ops: seq<Op>, capacity: nat)
    requires TraceInv(s) && capacity <= s.capacity && NeverBelow(ops, capacity)
    ensures KeepsAtLeast(s, Run(s, ops), capacity) && TraceInv(Run(s, ops))
    decreases |ops|
  {
    hide TraceInv, Apply;
    if ops != [] {
      assert forall op <- ops[1..] :: op in ops;
      assert ops[0] in ops;
      StepKeepsNewest(s, ops[0], capacity);
      ApplyKeepsTrace(s, ops[0]);
      NothingIsDroppedEarly(Apply(s, ops[0]), ops[1..], capacity);
    }
  }

  /** A resize of the open source takes effect at once and keeps as many of the newest records as fit. */
  lemma ResizeTakesEffect(s: Source, capacity: nat)
    requires TraceInv(s) && !s.closed && capacity > 0
    ensures var t := Apply(s, Resize(capacity));
      && t.capacity == capacity && t.snapshot == s.snapshot
      && |t.trace| == (if |s.trace| < capacity then |s.trace| else capacity)
      && t.trace == s.trace[|s.trace| - |t.trace|..]
  {}

  /** Nothing changes a closed source. */
  lemma {:induction false} ClosedSourceStays(s: Source, ops: seq<Op>)
    requires s.closed
    ensures Run(s, ops) == s
    decreases |ops|
  {
    if ops != [] {
      ClosedSourceStays(s, ops[1..]);
    }
  }

  // ----- the numbers of the records

  predicate Increasing(records: seq<Record>) {
    forall i, j :: 0 <= i < j < |records| ==> records[i].sequence < records[j].sequence
  }

  /** Of the updates before it that succeeded or had a record, the last one raised: its record stands in the trace
      with a number no revision has reached. */
  predicate Owes(ops: seq<Op>) {
    if ops == [] then false
    else
      var before, op := ops[..|ops| - 1], ops[|ops| - 1];
      if op.Update? && Close !in before && (op.valid || op.record.Some?) then !op.valid else Owes(before)
  }

  /** No record follows a raising update's record without a successful update in between. */
  predicate NumberedApart(ops: seq<Op>) {
    if ops == [] then true
    else
      var before, op := ops[..|ops| - 1], ops[|ops| - 1];
      NumberedApart(before) && (op.Update? && op.record.Some? && Close !in before ==> !Owes(before))
  }

  /** Whether the newest record already has the number the next one will get. */
  predicate Owing(s: Source) {
    s.history != [] && s.history[|s.history| - 1].sequence == s.snapshot.revision + 1
  }

  lemma AppendedIncreasing(s: Source, record: Option<Record>)
    requires TraceInv(s)
    ensures Increasing(Append(s, record).history) <==> Increasing(s.history) && (record.Some? ==> !Owing(s))
    ensures Owing(Append(s, record)) <==> record.Some? || Owing(s)
  {
    hide Increasing;
    if record.Some? {
      LastOfHistory(s);
      IncreasingSnoc(s.history, record.value.(sequence := s.snapshot.revision + 1));
    }
  }

  lemma LastOfHistory(s: Source)
    requires TraceInv(s)
    ensures s.history != [] ==> s.history[|s.history| - 1].sequence <= s.snapshot.revision + 1
  {
    assert s.history != [] ==> s.history[|s.history| - 1] in s.history;
  }

  lemma IncreasingSnoc(records: seq<Record>, r: Record)
    ensures Increasing(records + [r]) <==>
      Increasing(records) && (records != [] ==> records[|records| - 1].sequence < r.sequence)
  {
    var more := records + [r];
    assert forall i :: 0 <= i < |records| ==> more[i] == records[i];
    assert more[|records|] == r;
  }

  lemma ReplacedOwesNothing(s: Source, now: int, base: Base, passed: Derived)
    requires TraceInv(s)
    ensures !Owing(Replace(s, now, base, passed)) && Replace(s, now, base, passed).history == s.history
  {
    ReplaceKeepsTrace(s, now, base, passed);
    LastOfHistory(s);
  }

  lemma UpdateNumbers(s: Source, op: Op)
    requires TraceInv(s) && op.Update? && !s.closed
    ensures Increasing(Apply(s, op).history) <==> Increasing(s.history) && (op.record.Some? ==> !Owing(s))
    ensures Owing(Apply(s, op)) <==> !op.valid && (op.record.Some? || Owing(s))
  {
    hide TraceInv, Owing, Increasing, WithDecision, Append, Replace;
    AppendKeepsTrace(s, op.record);
    AppendedIncreasing(s, op.record);
    ReplacedOwesNothing(Append(s, op.record), op.now, WithDecision(op.base, op.given, op.record), op.passed);
  }

  lemma OthersKeepNumbers(s: Source, op: Op)
    requires !op.Update? || s.closed
    ensures Apply(s, op).history == s.history && Apply(s, op).snapshot.revision == s.snapshot.revision
  {}

  /** Over any run the numbers of the records increase strictly exactly when no record follows one that a raising
      update left behind before some update has succeeded. */
  lemma {:induction false} NumbersIncreaseExactlyWhenApart(initial: Snapshot, capacity: nat, ops: seq<Op>)
    requires capacity > 0
    ensures var s := Run(Start(initial, capacity), ops);
      TraceInv(s) && (Owing(s) <==> Owes(ops)) && (Increasing(s.history) <==> NumberedApart(ops))
    decreases |ops|
  {
    hide TraceInv, Increasing, Apply;
    var start := Start(initial, capacity);
    StartIsTraced(initial, capacity);
    if ops != [] {
      var before, op := ops[..|ops| - 1], ops[|ops| - 1];
      NumbersIncreaseExactlyWhenApart(initial, capacity, before);
      assert ops == before + [op];
      RunSplits(start, before, op);
      ClosedIff(start, before);
      ApplyKeepsTrace(Run(start, before), op);
      if op.Update? && Close !in before {
        UpdateNumbers(Run(start, before), op);
      } else {
        OthersKeepNumbers(Run(start, before), op);
      }
    }
  }

  lemma StartIsTraced(initial: Snapshot, capacity: nat)
    requires capacity > 0
    ensures TraceInv(Start(initial, capacity)) && Increasing(Start(initial, capacity).history)
  {}

  /** Such a run: an update whose snapshot is refused, then one that succeeds. Their records share a number. */
  lemma RaisingUpdateRepeatsANumber(initial: Snapshot, capacity: nat, first: Op, second: Op)
    requires first.Update? && !first.valid && first.record.Some? && second.Update? && second.record.Some?
    ensures var h := Run(Start(initial, capacity), [first, second]).history;
      |h| == 2 && h[0].sequence == h[1].sequence == initial.revision + 1
      && h[0] == first.record.value.(sequence := h[0].sequence)
      && h[1] == second.record.value.(sequence := h[0].sequence)
  {
    hide WithElapsed, WithDecision;
    var s := Start(initial, capacity);
    assert [first, second][1..] == [second] && [second][1..] == [];
    assert Run(Apply(s, first), [second]) == Run(Apply(Apply(s, first), second), []);
  }

  lemma ElapsedForgets(s: Snapshot, now: int)
    ensures WithElapsed(s, now) == s.(derived := Recomputed(s.base, now))
  {}

  /** An accepted record is numbered with the new revision and tells every decision field the caller did not
      give, and only those. */
  lemma RecordTellsTheRest(s: Source, now: int, base: Base, passed: Derived, given: set<DecisionField>, record: Record)
    requires !s.closed && s.capacity > 0
    ensures var t := UpdateStep(s, now, base, passed, given, Some(record), true);
      var b := t.snapshot.base;
      && t.trace != [] && t.trace[|t.trace| - 1] == record.(sequence := t.snapshot.revision)
      && (if Code in given then b.decisionCode == base.decisionCode else b.decisionCode == Some(record.code))
      && (if Reason in given then b.decisionReason == base.decisionReason else b.decisionReason == Some(record.reason))
      && (if At in given then b.decisionAt == base.decisionAt else b.decisionAt == Some(record.at))
      && (if Meaningful in given then b.meaningfulAt == base.meaningfulAt else b.meaningfulAt == Some(record.at))
  {}

  lemma {:induction false} RunSplits(s: Source, ops: seq<Op>, op: Op)
    ensures Run(s, ops + [op]) == Apply(Run(s, ops), op)
    decreases |ops|
  {
    if ops == [] {
      assert ops + [op] == [op];
      assert Run(Apply(s, op), []) == Apply(s, op);
    } else {
      assert (ops + [op])[1..] == ops[1..] + [op];
      RunSplits(Apply(s, ops[0]), ops[1..], op);
    }
  }

  lemma {:induction false} ClosedIff(s: Source, ops: seq<Op>)
    ensures Run(s, ops).closed <==> s.closed || Close in ops
    decreases |ops|
  {
    if ops != [] {
      ClosedIff(Apply(s, ops[0]), ops[1..]);
      assert ops == [ops[0]] + ops[1..];
    }
  }

  /** After any run, the current base fields are those of the last live update, and once anything live
      happened every derived field equals recomputing it from them at the last clock value: nothing a caller
      passed for a derived field, and nothing an earlier refresh computed, survives. */
  lemma {:induction false} CurrentIsRecomputed(initial: Snapshot, capacity: nat, ops: seq<Op>)
    ensures var s := Run(Start(initial, capacity), ops);
      var (base, clock) := LastBase(Start(initial, capacity), ops);
      s.snapshot.base == base && s.clock == clock
      && (clock.Some? ==> s.snapshot.derived == Recomputed(base, clock.value))
      && (clock.None? ==> s.snapshot == initial)
    decreases |ops|
  {
    if ops != [] {
      var before, op := ops[..|ops| - 1], ops[|ops| - 1];
      CurrentIsRecomputed(initial, capacity, before);
      assert ops == before + [op];
      RunSplits(Start(initial, capacity), before, op);
      ClosedIff(Start(initial, capacity), before);
      StepRecomputes(Run(Start(initial, capacity), before), op);
    }
  }

  lemma StepRecomputes(s: Source, op: Op)
    ensures !s.closed && op.Update? && op.valid ==>
      var base := WithDecision(op.base, op.given, op.record);
      Apply(s, op).snapshot == Snapshot(s.snapshot.revision + 1, op.now, base, Recomputed(base, op.now))
    ensures !s.closed && op.Refresh? ==>
      Apply(s, op).snapshot == s.snapshot.(derived := Recomputed(s.snapshot.base, op.now))
    ensures s.closed || op.Resize? || op.Close? || (op.Update? && !op.valid) ==>
      Apply(s, op).snapshot == s.snapshot && Apply(s, op).clock == s.clock
  {
    if op.Update? {
      ElapsedForgets(
        Snapshot(s.snapshot.revision + 1, op.now, WithDecision(op.base, op.given, op.record), op.passed), op.now);
    } else if op.Refresh? {
      ElapsedForgets(s.snapshot, op.now);
    }
  }

  // ----- countdowns without updates

  /** Later, a countdown has gone down by the time passed, stopped at zero, or disappeared. */
  predicate RunsDown(before: Option<int>, after: Option<int>, elapsed: int) {
    after.Some? ==> before.Some? && after.value == Max0(before.value - elapsed)
  }

  predicate AllRunDown(d: Derived, e: Derived, elapsed: int) {
    && RunsDown(d.staleRemaining, e.staleRemaining, elapsed)
    && RunsDown(d.graceRemaining, e.graceRemaining, elapsed)
    && RunsDown(d.confirmationRemaining, e.confirmationRemaining, elapsed)
    && RunsDown(d.activeLockoutRemaining, e.activeLockoutRemaining, elapsed)
    && RunsDown(d.deferredRemaining, e.deferredRemaining, elapsed)
    && RunsDown(d.debugRemaining, e.debugRemaining, elapsed)
    && d.code == e.code
    && (d.age.Some? <==> e.age.Some?) && (d.age.Some? ==> d.age.value <= e.age.value <= d.age.value + elapsed)
  }

  /** The same base fields at two clock values. */
  lemma LaterRunsDown(b: Base, t: int, u: int)
    requires t <= u
    ensures AllRunDown(Recomputed(b, t), Recomputed(b, u), u - t)
    ensures b.measurementAt.Some? ==> Recomputed(b, u).age == Some(Max0(u - b.measurementAt.value))
  {}

  lemma LaterNamesFewer(b: Base, t: int, u: int)
    requires t <= u
    ensures forall c <- ActiveCountdowns(Snapshot(0, 0, b, Recomputed(b, u))) ::
              c in ActiveCountdowns(Snapshot(0, 0, b, Recomputed(b, t)))
  {
    hide ActiveCountdowns, Recomputed;
    forall c <- ActiveCountdowns(Snapshot(0, 0, b, Recomputed(b, u)))
      ensures c in ActiveCountdowns(Snapshot(0, 0, b, Recomputed(b, t)))
    {
      ActiveExactlyWhenDue(b, u, c);
      ActiveExactlyWhenDue(b, t, c);
    }
  }

  /** No update takes effect, and no refresh reads a clock that has gone back. */
  predicate OnlyTimePasses(clock: int, ops: seq<Op>)
    decreases |ops|
  {
    if ops == [] then true
    else match ops[0]
      case Update(_, _, _, _, _, valid) => !valid && OnlyTimePasses(clock, ops[1..])
      case Refresh(now) => clock <= now && OnlyTimePasses(now, ops[1..])
      case _ => OnlyTimePasses(clock, ops[1..])
  }

  /** What a live operation leaves: derived fields recomputed at the clock. */
  predicate UpToDate(s: Source) {
    s.clock.Some? && s.snapshot.derived == Recomputed(s.snapshot.base, s.clock.value)
  }

  lemma TimePasses(s: Source, op: Op)
    requires UpToDate(s) && (op.Update? ==> !op.valid) && (op.Refresh? ==> s.clock.value <= op.now)
    ensures var t := Apply(s, op);
      && UpToDate(t) && t.snapshot.base == s.snapshot.base && t.snapshot.revision == s.snapshot.revision
      && s.clock.value <= t.clock.value && (op.Refresh? ==> t.clock.value <= op.now)
      && (!op.Refresh? ==> t.clock == s.clock)
  {
    StepRecomputes(s, op);
    hide Recomputed, WithElapsed;
  }

  lemma {:induction false} TimeOnlyPasses(s: Source, clock: int, ops: seq<Op>)
    requires UpToDate(s) && s.clock.value <= clock && OnlyTimePasses(clock, ops)
    ensures var t := Run(s, ops); UpToDate(t) && t.snapshot.base == s.snapshot.base && s.clock.value <= t.clock.value
    decreases |ops|
  {
    hide UpToDate, Apply, Recomputed;
    UpToDateHasClock(s);
    if ops != [] {
      TimePasses(s, ops[0]);
      var next := if ops[0].Refresh? then ops[0].now else clock;
      UpToDateHasClock(Apply(s, ops[0]));
      TimeOnlyPasses(Apply(s, ops[0]), next, ops[1..]);
    }
  }

  lemma UpToDateHasClock(s: Source)
    requires UpToDate(s)
    ensures s.clock.Some?
  {}

  /** After any run, while no update takes effect and the clock does not go back, every countdown only runs down, by
      exactly the time passed, and only disappears, whatever is refreshed, resized, closed or refused meanwhile. */
  lemma {:induction false} CountdownsOnlyRunDown(initial: Snapshot, capacity: nat, ops: seq<Op>, later: seq<Op>)
    requires var s := Run(Start(initial, capacity), ops); s.clock.Some? && OnlyTimePasses(s.clock.value, later)
    ensures var s := Run(Start(initial, capacity), ops);
      var t := Run(s, later);
      && t.clock.Some? && s.clock.value <= t.clock.value && t.snapshot.base == s.snapshot.base
      && AllRunDown(s.snapshot.derived, t.snapshot.derived, t.clock.value - s.clock.value)
      && forall c <- ActiveCountdowns(t.snapshot) :: c in ActiveCountdowns(s.snapshot)
  {
    hide Run, Recomputed, AllRunDown;
    var s := Run(Start(initial, capacity), ops);
    CurrentIsRecomputed(initial, capacity, ops);
    TimeOnlyPasses(s, s.clock.value, later);
    var t := Run(s, later);
    LaterRunsDown(s.snapshot.base, s.clock.value, t.clock.value);
    LaterNamesFewer(s.snapshot.base, s.clock.value, t.clock.value);
    SameCountdowns(s.snapshot);
    SameCountdowns(t.snapshot);
  }

  /** Which countdowns are named active depends on base fields and derived fields only. */
  lemma SameCountdowns(s: Snapshot)
    ensures ActiveCountdowns(s) == ActiveCountdowns(Snapshot(0, 0, s.base, s.derived))
  {}

  /** The grace countdown is the one that stays: at and after its deadline it is active with nothing left. */
  lemma GraceStaysActiveAtZero(b: Base, now: int)
    requires b.safety.Grace? && b.graceDeadline.Some? && b.graceDeadline.value <= now
    ensures Recomputed(b, now).graceRemaining == Some(0)
    ensures GracePeriod in ActiveCountdowns(Snapshot(0, 0, b, Recomputed(b, now)))
  {}

  predicate AheadOf(deadline: Option<int>, now: int) {
    deadline.Some? && deadline.value > now
  }

  predicate LockoutRunning(b: Base, now: int) {
    b.lockout.Some? && AheadOf(b.lockoutDeadline, now)
  }

  /** Whether a countdown is due, from base fields and the clock alone. */
  predicate Due(b: Base, now: int, c: Countdown) {
    match c
    case MeasurementMaximumAge =>
      b.measurementStatus.Valid? && b.measurementAt.Some? && b.measurementAt.value + b.maxAge > now
    case GracePeriod => b.safety.Grace? && b.graceDeadline.Some?
    case HeatDemandConfirmation => b.confirmation.Pending? && AheadOf(b.confirmationDeadline, now)
    case MinimumHeatingOn => b.lockout == Some(MinimumOn) && LockoutRunning(b, now)
    case MinimumHeatingOff => b.lockout == Some(MinimumOff) && LockoutRunning(b, now)
    case DeferredSourceCommand => LockoutRunning(b, now)
    case DebugProfileExpiry => AheadOf(b.debugDeadline, now)
  }

  lemma LockoutKinds(lockout: Option<Lockout>)
    ensures lockout.None? || lockout == Some(MinimumOn) || lockout == Some(MinimumOff)
  {
    if lockout.Some? {
      match lockout.value
      case MinimumOn =>
      case MinimumOff =>
    }
  }

  lemma NamedHas(active: bool, names: seq<Countdown>, c: Countdown)
    ensures c in Named(active, names) <==> active && c in names
  {}

  /** A countdown is named active exactly when it is due. */
  lemma ActiveExactlyWhenDue(b: Base, now: int, c: Countdown)
    ensures c in ActiveCountdowns(Snapshot(0, 0, b, Recomputed(b, now))) <==> Due(b, now, c)
  {
    LockoutKinds(b.lockout);
    var d := Recomputed(b, now);
    NamedHas(d.staleRemaining.Some?, [MeasurementMaximumAge], c);
    NamedHas(d.graceRemaining.Some?, [GracePeriod], c);
    NamedHas(d.confirmationRemaining.Some?, [HeatDemandConfirmation], c);
    NamedHas(b.lockout == Some(MinimumOn) && d.activeLockoutRemaining.Some?,
             [MinimumHeatingOn, DeferredSourceCommand], c);
    NamedHas(b.lockout == Some(MinimumOff) && d.activeLockoutRemaining.Some?,
             [MinimumHeatingOff, DeferredSourceCommand], c);
    NamedHas(d.debugRemaining.Some?, [DebugProfileExpiry], c);
  }

  /** The time left is given exactly while the countdown is due, and then is what is left. */
  predicate Tells(remaining: Option<int>, due: bool, deadline: Option<int>, now: int) {
    (remaining.Some? <==> due) && (due ==> deadline.Some? && remaining.value == Max0(deadline.value - now))
  }

  /** Every remaining time counts down to its own deadline, and the age up from the measurement. */
  lemma CountdownsAreExact(b: Base, now: int)
    ensures var d := Recomputed(b, now);
      && (d.age.Some? <==> b.measurementAt.Some?)
      && (d.age.Some? ==> d.age.value == if now < b.measurementAt.value then 0 else now - b.measurementAt.value)
      && (d.staleDeadline.Some? <==> b.measurementAt.Some? && b.measurementStatus.Valid?)
      && (d.staleDeadline.Some? ==> d.staleDeadline.value - b.maxAge == b.measurementAt.value)
      && Tells(d.staleRemaining, Due(b, now, MeasurementMaximumAge), d.staleDeadline, now)
      && Tells(d.graceRemaining, Due(b, now, GracePeriod), b.graceDeadline, now)
      && Tells(d.confirmationRemaining, Due(b, now, HeatDemandConfirmation), b.confirmationDeadline, now)
      && Tells(d.activeLockoutRemaining, LockoutRunning(b, now), b.lockoutDeadline, now)
      && Tells(d.lockoutRemaining, LockoutRunning(b, now), b.lockoutDeadline, now)
      && Tells(d.deferredRemaining, AheadOf(b.deferredDeadline, now), b.deferredDeadline, now)
      && Tells(d.debugRemaining, Due(b, now, DebugProfileExpiry), b.debugDeadline, now)
  {}

  /** A running host without a sensor grace and about whose confirmation there is nothing to say. */
  predicate Confirmed(b: Base) {
    b.status.Active? && !b.safety.Grace? && !b.confirmation.Pending? && b.confirmationReason != Some(Cancelled)
  }

  /** A running host about which there is nothing more urgent to say than its source control. */
  predicate Plain(b: Base) {
    Confirmed(b) && !b.safety.TimeoutApplied?
  }

  /** Nothing is held back, and the last command went through. */
  predicate Unhindered(b: Base) {
    Plain(b) && !b.bypassedLockout && b.lockout.None? && !b.lastOutcome.CommandFailed?
  }

  /** The summary code says exactly what the base fields say, the most urgent first: lifecycle, sensor grace,
      confirmation, safety timeout, bypassed protection, protection, failed command, demand. */
  lemma SummaryCodeIsTrue(b: Base)
    ensures var c := SummaryCodeOf(b);
      && (c.StartingUp? <==> b.status.Starting?) && (c.Halted? <==> b.status.Stopped?)
      && (c.FatalEmergencyDisableFailed? <==> b.status.FatalError? && b.emergencyDisableFailed)
      && (c.Fatal? <==> b.status.FatalError? && !b.emergencyDisableFailed)
      && (c.SensorFailureGrace? <==> b.status.Active? && b.safety.Grace?)
      && (c.HeatConfirmationPending? <==> b.status.Active? && !b.safety.Grace? && b.confirmation.Pending?)
      && (c.HeatConfirmationCancelled? <==>
            b.status.Active? && !b.safety.Grace? && !b.confirmation.Pending? && b.confirmationReason == Some(Cancelled))
      && (c.SafetyTimeoutEnableRequested? <==>
            Confirmed(b) && b.safety.TimeoutApplied? && b.lastCommand == Some(Enable))
      && (c.SafetyTimeoutDisableRequested? <==>
            Confirmed(b) && b.safety.TimeoutApplied? && b.lastCommand != Some(Enable))
      && (c.SafetyDisableBypassedLockout? <==> Plain(b) && b.bypassedLockout)
      && (c.HeatDeferredMinimumOff? <==> Plain(b) && !b.bypassedLockout && b.lockout == Some(MinimumOff))
      && (c.NoHeatDeferredMinimumOn? <==> Plain(b) && !b.bypassedLockout && b.lockout == Some(MinimumOn))
      && (c.HeatCommandFailed? || c.NoHeatCommandFailed? <==>
            Plain(b) && !b.bypassedLockout && b.lockout.None? && b.lastOutcome.CommandFailed?)
      && (c.HeatCommandFailed? ==> b.demand.HeatRequired?) && (c.NoHeatCommandFailed? ==> !b.demand.HeatRequired?)
      && (c.HeatRequested? <==> Unhindered(b) && b.demand.HeatRequired?)
      && (c.NoHeatEnableBoundary? <==> Unhindered(b) && b.demand.NoHeatRequired? && b.nextEnable.Some?)
      && (c.NoHeatRequested? <==> Unhindered(b) && b.demand.NoHeatRequired? && b.nextEnable.None?)
      && (c.DemandIndeterminate? <==> Unhindered(b) && b.demand.Indeterminate?)
  {
    LockoutKinds(b.lockout);
  }

  /** A running host with no protection to report and nothing deferred. */
  predicate SourceFree(b: Base, now: int) {
    && b.status.Active? && !b.bypassedLockout && !LockoutRunning(b, now)
    && (b.deferred.None? || b.deferredDeadline.None?)
  }

  /** The human summary quotes a waiting time exactly while that protection runs, and then exactly what is left; of a
      deferred command, or the source's request, it speaks exactly when no protection is to be reported. */
  lemma SourceSummaryIsTrue(b: Base, now: int)
    ensures var m := Recomputed(b, now).summary;
      && (m.RuntimeFatal? <==> b.status.FatalError?) && (m.RuntimeStopped? <==> b.status.Stopped?)
      && (m.RuntimeStarting? <==> b.status.Starting?)
      && (m.BypassedMinimumOn? <==> b.status.Active? && b.bypassedLockout)
      && (m.WaitingMinimumOff? <==>
            b.status.Active? && !b.bypassedLockout && LockoutRunning(b, now) && b.lockout == Some(MinimumOff))
      && (m.WaitingMinimumOn? <==>
            b.status.Active? && !b.bypassedLockout && LockoutRunning(b, now) && b.lockout == Some(MinimumOn))
      && (m.WaitingMinimumOff? || m.WaitingMinimumOn? ==> m.remaining == b.lockoutDeadline.value - now)
      && (m.DeferredUntil? <==>
            && b.status.Active? && !b.bypassedLockout && !LockoutRunning(b, now)
            && b.deferred.Some? && b.deferredDeadline.Some?)
      && (m.DeferredUntil? ==> b.deferred == Some(m.command) && b.deferredDeadline == Some(m.at))
      && (m.RequestActive? <==> SourceFree(b, now) && b.control.Requesting?)
      && (m.NotRequestedUntil? <==> SourceFree(b, now) && b.control.NotRequesting? && b.nextEnable.Some?)
      && (m.NotRequestedUntil? ==> b.nextEnable == Some(m.at))
      && (m.NotRequested? <==> SourceFree(b, now) && b.control.NotRequesting? && b.nextEnable.None?)
      && (m.SourceIndeterminate? <==> SourceFree(b, now) && b.control.OtherControl?)
  {
    LockoutKinds(b.lockout);
  }

  /** `initial_snapshot`: nothing known yet but the Debug deadline the profile may carry. */
  function InitialBase(debugDeadline: Option<int>, maxAge: int): Base {
    Base(Starting, false, None, NotValid, maxAge, Ended, None, NotPending, None, None, None, None, false, None, None,
         debugDeadline, None, Indeterminate, OtherControl, None, OtherOutcome, None, None, None, None)
  }

  /** Before the first live operation the derived fields are blank, which is what recomputing gives exactly
      when no Debug deadline lies ahead. */
  lemma InitialIsRecomputedIff(debugDeadline: Option<int>, maxAge: int, now: int)
    ensures Recomputed(InitialBase(debugDeadline, maxAge), now) == BLANK <==> Ahead(debugDeadline, now).None?
  {}

  lemma TraceIsBounded(s: Source)
    requires TraceInv(s)
    ensures 0 < s.capacity && |s.trace| <= s.capacity
  {}

  /** `OperationalSnapshotSource`. A subscriber is a token and whether it wants elapsed refreshes too. */
  class OperationalSnapshotSource {
    var snapshot: Snapshot
    var trace: seq<Record>
    var capacity: nat
    var totalTraceRecords: nat
    var subscribers: map<nat, bool>
    var nextSubscriber: nat
    var closed: bool
    ghost var history: seq<Record>
    ghost var clock: Option<int>

    ghost function View(): Source
      reads this
    {
      Source(snapshot, trace, capacity, totalTraceRecords, closed, history, clock)
    }

    ghost predicate Valid()
      reads this
    {
      TraceInv(View()) && (forall token <- subscribers :: token < nextSubscriber) && (closed ==> subscribers == map[])
    }

    constructor (initial: Snapshot, traceLimit: nat)
      requires traceLimit > 0
      ensures Valid() && View() == Start(initial, traceLimit) && subscribers == map[]
    {
      snapshot, trace, capacity, totalTraceRecords := initial, [], traceLimit, 0;
      subscribers, nextSubscriber, closed := map[], 0, false;
      history, clock := [], None;
    }

    /** The bounded deque's append: at capacity the oldest record goes. */
    method AppendTrace(numbered: Record)
      requires 0 < capacity && |trace| <= capacity
      modifies this`trace, this`totalTraceRecords, this`history
      ensures trace == Bounded(old(trace) + [numbered], capacity)
      ensures history == old(history) + [numbered] && totalTraceRecords == old(totalTraceRecords) + 1
    {
      trace := trace + [numbered];
      if |trace| > capacity {
        trace := trace[1..];
      }
      totalTraceRecords := totalTraceRecords + 1;
      history := history + [numbered];
    }

    /** `update`: the recipients are every subscriber. A snapshot that does not pass its validation raises after the
        record has been appended, and reaches nobody. */
    method Update(now: int, base: Base, passed: Derived, given: set<DecisionField>, record: Option<Record>, valid: bool)
      returns (raised: bool, recipients: set<nat>)
      requires Valid()
      modifies this
      ensures Valid() && View() == UpdateStep(old(View()), now, base, passed, given, record, valid)
      ensures raised <==> !valid && !old(closed)
      ensures recipients == (if raised then {} else old(subscribers).Keys) && subscribers == old(subscribers)
    {
      hide WithElapsed, WithDecision, TraceInv;
      TraceIsBounded(View());
      ApplyKeepsTrace(View(), Op.Update(now, base, passed, given, record, valid));
      if closed {
        return false, {};
      }
      var revision := snapshot.revision + 1;
      if record.Some? {
        AppendTrace(record.value.(sequence := revision));
      }
      assert View() == Append(old(View()), record);
      if !valid {
        return true, {};
      }
      snapshot := WithElapsed(Snapshot(revision, now, WithDecision(base, given, record), passed), now);
      clock := Some(now);
      return false, subscribers.Keys;
    }

    /** `refresh_elapsed`: the recipients are the subscribers to elapsed refreshes. */
    method RefreshElapsed(now: int) returns (recipients: set<nat>)
      requires Valid()
      modifies this
      ensures Valid() && View() == RefreshStep(old(View()), now)
      ensures recipients == (set token <- old(subscribers) | old(subscribers)[token]) && subscribers == old(subscribers)
    {
      if closed {
        return {};
      }
      snapshot := WithElapsed(snapshot, now);
      clock := Some(now);
      return set token <- subscribers | subscribers[token];
    }

    /** `set_trace_capacity`: the newest records stay; a capacity that is not positive is refused. */
    method SetTraceCapacity(newCapacity: nat) returns (accepted: bool)
      requires Valid()
      modifies this
      ensures Valid() && View() == ResizeStep(old(View()), newCapacity)
      ensures accepted <==> newCapacity > 0
      ensures subscribers == old(subscribers)
    {
      hide TraceInv;
      TraceIsBounded(View());
      ResizedKeepsTrace(View(), newCapacity);
      if newCapacity == 0 {
        return false;
      }
      if !closed && capacity != newCapacity {
        if |trace| > newCapacity {
          trace := trace[|trace| - newCapacity..];
        }
        capacity := newCapacity;
      }
      return true;
    }

    /** `subscribe`: the current snapshot is delivered at once, also by a closed source. */
    method Subscribe(elapsedRefresh: bool) returns (token: Option<nat>, delivered: Snapshot)
      requires Valid()
      modifies this
      ensures Valid() && View() == old(View()) && delivered == snapshot
      ensures token.Some? <==> !closed
      ensures token.Some? ==> token.value !in old(subscribers)
      ensures token.Some? ==> subscribers == old(subscribers)[token.value := elapsedRefresh]
      ensures token.None? ==> subscribers == old(subscribers)
    {
      if closed {
        return None, snapshot;
      }
      token := Some(nextSubscriber);
      nextSubscriber := nextSubscriber + 1;
      subscribers := subscribers[token.value := elapsedRefresh];
      return token, snapshot;
    }

    method Unsubscribe(token: nat)
      requires Valid()
      modifies this
      ensures Valid() && View() == old(View()) && subscribers == old(subscribers) - {token}
    {
      subscribers := subscribers - {token};
    }

    method Close()
      requires Valid()
      modifies this
      ensures Valid() && View() == old(View()).(closed := true) && subscribers == map[]
    {
      closed := true;
      subscribers := map[];
    }
  }
}
