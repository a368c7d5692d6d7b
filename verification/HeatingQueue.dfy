/** The Heating host's temperature states: buffered until startup has caught up, then drained from a live queue
    by one task at a time, with exact repetitions of the last state discarded. */
module HeatingQueue {

  import opened Wrappers

  /** A state by its version: entity, timestamp, text and unit. */
  datatype Reported = Absent | Reported(version: nat)

  function VersionOf(x: Reported): Option<nat> {
    if x.Absent? then None else Some(x.version)
  }

  /** A state repeats the one right before it. */
  predicate Repeats(before: seq<Reported>, x: Reported) {
    before != [] && x.Reported? && x == before[|before| - 1]
  }

  /** The states to process among `taken`: those that do not repeat the one right before. */
  function Collapse(taken: seq<Reported>): seq<Reported> {
    if taken == [] then []
    else
      var before, x := taken[..|taken| - 1], taken[|taken| - 1];
      if Repeats(before, x) then Collapse(before) else Collapse(before) + [x]
  }

  /** A drain task's place: at its loop check, or inside the processing of one state. */
  datatype Drain = AtCheck | Processing

  /** `taken` are the states handed to processing so far, `processed` those not discarded, `offered` the initial
      snapshot and every accepted arrival, `drains` the drain tasks that are not done. */
  datatype State = State(
    subscribed: bool, accepting: bool, buffering: bool, failed: bool, closed: bool,
    snapshot: Option<Reported>, buffer: seq<Reported>, live: seq<Reported>,
    drains: map<nat, Drain>, recorded: Option<nat>, lastVersion: Option<nat>,
    taken: seq<Reported>, processed: seq<Reported>, offered: seq<Reported>)

  const START := State(false, true, true, false, false, None, [], [], map[], None, None, [], [], [])

  datatype Event =
    | Subscribe(snapshot: Reported)
    | Arrive(state: Reported)
    | TakeSnapshot            // startup has begun the runtime
    | TakeBuffered
    | GoLive                  // the buffer is found empty and startup is complete
    | InitFails
    | DrainChecks(task: nat)
    | DrainReturns(task: nat) // the processing of its state is over
    | DrainRaises(task: nat)
    | StopAccepting
    | StopEnds                // no drain task is left; what is still queued is cleared

  /** `_async_process_state_now` up to its first await. */
  function Take(s: State, x: Reported): State {
    var t := s.(taken := s.taken + [x]);
    if VersionOf(x).Some? && VersionOf(x) == s.lastVersion then t
    else t.(lastVersion := VersionOf(x), processed := s.processed + [x])
  }

  predicate Discarded(s: State, x: Reported) {
    VersionOf(x).Some? && VersionOf(x) == s.lastVersion
  }

  function SubscribeStep(s: State, snapshot: Reported): State {
    if s.subscribed || s.closed then s
    else s.(subscribed := true,
            snapshot := if snapshot.Absent? then None else Some(snapshot),
            offered := if snapshot.Absent? then [] else [snapshot])
  }

  /** `_on_state_change`: in live mode a drain task is created unless the recorded one is still at work. */
  function ArriveStep(s: State, x: Reported): State {
    if !s.subscribed || !s.accepting then s
    else if s.buffering then s.(buffer := s.buffer + [x], offered := s.offered + [x])
    else
      var t := s.(live := s.live + [x], offered := s.offered + [x]);
      if s.recorded.Some? && s.recorded.value in s.drains then t
      else
        var task := if s.recorded.Some? then s.recorded.value + 1 else 0;
        t.(drains := s.drains[task := AtCheck], recorded := Some(task))
  }

  function TakeSnapshotStep(s: State): State {
    if !s.buffering || s.failed || s.closed || s.snapshot.None? then s
    else Take(s, s.snapshot.value).(snapshot := None)
  }

  function TakeBufferedStep(s: State): State {
    if !s.subscribed || !s.buffering || s.failed || s.closed || s.snapshot.Some? || s.buffer == [] then s
    else Take(s, s.buffer[0]).(buffer := s.buffer[1..])
  }

  function GoLiveStep(s: State): State {
    if !s.subscribed || s.failed || s.closed || s.snapshot.Some? || s.buffer != [] then s else s.(buffering := false)
  }

  function CheckStep(s: State, task: nat): State {
    if task !in s.drains || s.drains[task].Processing? then s
    else if s.live == [] then s.(drains := s.drains - {task})
    else Take(s, s.live[0]).(
           live := s.live[1..],
           drains := if Discarded(s, s.live[0]) then s.drains else s.drains[task := Processing])
  }

  function Apply(s: State, e: Event): State {
    match e
    case Subscribe(snapshot) => SubscribeStep(s, snapshot)
    case Arrive(state) => ArriveStep(s, state)
    case TakeSnapshot => TakeSnapshotStep(s)
    case TakeBuffered => TakeBufferedStep(s)
    case GoLive => GoLiveStep(s)
    case InitFails => if s.buffering then s.(failed := true) else s
    case DrainChecks(task) => CheckStep(s, task)
    case DrainReturns(task) =>
      if task in s.drains && s.drains[task].Processing? then s.(drains := s.drains[task := AtCheck]) else s
    case DrainRaises(task) =>
      if task in s.drains && s.drains[task].Processing? then s.(drains := s.drains - {task}) else s
    case StopAccepting => s.(accepting := false)
    case StopEnds =>
      if s.accepting || s.drains != map[] then s
      else s.(closed := true, buffering := false, buffer := [], live := [], snapshot := None)
  }

  function Run(s: State, events: seq<Event>): State
    decreases |events|
  {
    if events == [] then s else Run(Apply(s, events[0]), events[1..])
  }

  /** What has been offered and not taken yet, in the order it will be. */
  function Backlog(s: State): seq<Reported> {
    (if s.snapshot.Some? then [s.snapshot.value] else []) + s.buffer + s.live
  }

  predicate Ordered(s: State) {
    && (!s.closed ==> s.taken + Backlog(s) == s.offered)
    && s.taken <= s.offered
    && (s.buffering ==> s.live == [] && s.drains == map[])
    && (!s.buffering ==> s.buffer == [] && s.snapshot.None?)
    && (!s.subscribed ==> s.offered == [] && Backlog(s) == [] && s.drains == map[] && (s.buffering || s.closed))
    && (s.closed ==> !s.accepting && !s.buffering && s.drains == map[])
  }

  predicate Deduplicated(s: State) {
    && s.processed == Collapse(s.taken)
    && s.lastVersion == (if s.taken == [] then None else VersionOf(s.taken[|s.taken| - 1]))
  }

  ghost predicate OneDrain(s: State) {
    forall task <- s.drains :: s.recorded == Some(task)
  }

  ghost predicate Inv(s: State) {
    Ordered(s) && Deduplicated(s) && OneDrain(s)
  }

  lemma CollapseNext(taken: seq<Reported>, x: Reported)
    ensures Collapse(taken + [x]) == if Repeats(taken, x) then Collapse(taken) else Collapse(taken) + [x]
  {
    var t := taken + [x];
    assert t[..|t| - 1] == taken && t[|t| - 1] == x;
  }

  lemma TakeDeduplicates(s: State, x: Reported)
    requires Deduplicated(s)
    ensures Deduplicated(Take(s, x))
  {
    hide Collapse;
    CollapseNext(s.taken, x);
    assert Discarded(s, x) <==> Repeats(s.taken, x);
    assert Take(s, x).taken == s.taken + [x];
  }

  lemma ArriveKeepsInv(s: State, x: Reported)
    requires Inv(s)
    ensures Inv(ArriveStep(s, x))
  {
    var t := ArriveStep(s, x);
    if s.subscribed && s.accepting {
      assert Backlog(t) == Backlog(s) + [x];
      assert s.taken + (Backlog(s) + [x]) == s.taken + Backlog(s) + [x];
    }
  }

  /** What has been taken and how it was collapsed does not depend on the queues. */
  lemma DeduplicatedFrame(s: State, t: State)
    requires Deduplicated(s) && t.taken == s.taken && t.processed == s.processed && t.lastVersion == s.lastVersion
    ensures Deduplicated(t)
  {}

  lemma TakeFrame(s: State, x: Reported)
    ensures var t := Take(s, x);
      t == s.(taken := s.taken + [x], lastVersion := t.lastVersion, processed := t.processed)
  {}

  lemma MovingOneKeepsTheWhole(taken: seq<Reported>, rest: seq<Reported>)
    requires rest != []
    ensures taken + [rest[0]] + rest[1..] == taken + rest
    ensures taken + [rest[0]] <= taken + rest
  {}

  lemma SnapshotTakeKeepsOrder(s: State)
    requires Ordered(s) && s.buffering && !s.closed && s.snapshot.Some?
    ensures Ordered(Take(s, s.snapshot.value).(snapshot := None))
  {
    hide Take;
    var x := s.snapshot.value;
    var t := Take(s, x).(snapshot := None);
    TakeFrame(s, x);
    MovingOneKeepsTheWhole(s.taken, [x] + s.buffer);
    assert ([x] + s.buffer)[1..] == s.buffer;
    assert Backlog(s) == [x] + s.buffer && Backlog(t) == s.buffer;
    assert t.offered == s.offered == s.taken + ([x] + s.buffer);
  }

  lemma TakeSnapshotKeepsInv(s: State)
    requires Inv(s)
    ensures Inv(TakeSnapshotStep(s))
  {
    hide Deduplicated;
    if s.buffering && !s.failed && !s.closed && s.snapshot.Some? {
      var x := s.snapshot.value;
      TakeDeduplicates(s, x);
      DeduplicatedFrame(Take(s, x), TakeSnapshotStep(s));
      SnapshotTakeKeepsOrder(s);
    }
  }

  lemma BufferedTakeKeepsOrder(s: State)
    requires Inv(s) && s.buffering && s.snapshot.None? && s.buffer != []
    ensures Ordered(Take(s, s.buffer[0]).(buffer := s.buffer[1..]))
  {
    hide Deduplicated, Take;
    var t := Take(s, s.buffer[0]).(buffer := s.buffer[1..]);
    TakeFrame(s, s.buffer[0]);
    MovingOneKeepsTheWhole(s.taken, s.buffer);
    assert s.subscribed && !s.closed && s.live == [];
    assert Backlog(s) == s.buffer && Backlog(t) == s.buffer[1..];
    assert t.offered == s.offered == s.taken + s.buffer;
  }

  lemma TakeBufferedKeepsInv(s: State)
    requires Inv(s)
    ensures Inv(TakeBufferedStep(s))
  {
    hide Deduplicated;
    if s.buffering && s.snapshot.None? && s.buffer != [] {
      BufferedTakeKeepsOrder(s);
      TakeDeduplicates(s, s.buffer[0]);
      DeduplicatedFrame(Take(s, s.buffer[0]), Take(s, s.buffer[0]).(buffer := s.buffer[1..]));
    }
  }

  lemma DrainKeepsInv(s: State, drains: map<nat, Drain>)
    requires Inv(s) && drains.Keys <= s.drains.Keys
    ensures Inv(s.(drains := drains))
  {}

  lemma LiveTakeKeepsOrder(s: State)
    requires Inv(s) && s.drains != map[] && s.live != []
    ensures Ordered(Take(s, s.live[0]).(live := s.live[1..]))
  {
    hide Deduplicated, Take;
    var t := Take(s, s.live[0]).(live := s.live[1..]);
    TakeFrame(s, s.live[0]);
    MovingOneKeepsTheWhole(s.taken, s.live);
    assert !s.buffering && !s.closed && s.subscribed;
    assert Backlog(s) == s.live && Backlog(t) == s.live[1..];
    assert t.offered == s.offered == s.taken + s.live;
  }

  lemma LiveTakeKeepsInv(s: State)
    requires Inv(s) && s.drains != map[] && s.live != []
    ensures Inv(Take(s, s.live[0]).(live := s.live[1..]))
  {
    hide Deduplicated, Take;
    LiveTakeKeepsOrder(s);
    TakeFrame(s, s.live[0]);
    TakeDeduplicates(s, s.live[0]);
    DeduplicatedFrame(Take(s, s.live[0]), Take(s, s.live[0]).(live := s.live[1..]));
  }

  lemma CheckKeepsInv(s: State, task: nat)
    requires Inv(s)
    ensures Inv(CheckStep(s, task))
  {
    hide Take, Deduplicated, Backlog;
    if task in s.drains && s.drains[task].AtCheck? {
      if s.live == [] {
        DrainKeepsInv(s, s.drains - {task});
      } else {
        LiveTakeKeepsInv(s);
        TakeFrame(s, s.live[0]);
        var t := Take(s, s.live[0]).(live := s.live[1..]);
        DrainKeepsInv(t, t.drains[task := Processing]);
      }
    }
  }

  /** Subscribing, going live, failing and stopping take nothing. */
  lemma PhaseKeepsInv(s: State, e: Event)
    requires Inv(s) && (e.Subscribe? || e.GoLive? || e.InitFails? || e.StopAccepting? || e.StopEnds?)
    ensures Inv(Apply(s, e))
  {
    hide Deduplicated;
    DeduplicatedFrame(s, Apply(s, e));
  }

  lemma ApplyKeepsInv(s: State, e: Event)
    requires Inv(s)
    ensures Inv(Apply(s, e))
  {
    hide Inv, ArriveStep, TakeSnapshotStep, TakeBufferedStep, CheckStep;
    match e
    case Arrive(state) => ArriveKeepsInv(s, state);
    case TakeSnapshot => TakeSnapshotKeepsInv(s);
    case TakeBuffered => TakeBufferedKeepsInv(s);
    case DrainChecks(task) => CheckKeepsInv(s, task);
    case DrainReturns(task) =>
      if task in s.drains { DrainKeepsInv(s, s.drains[task := AtCheck]); }
    case DrainRaises(task) => DrainKeepsInv(s, s.drains - {task});
    case _ => PhaseKeepsInv(s, e);
  }

  lemma {:induction false} RunKeepsInv(s: State, events: seq<Event>)
    requires Inv(s)
    ensures Inv(Run(s, events))
    decreases |events|
  {
    if events != [] {
      ApplyKeepsInv(s, events[0]);
      RunKeepsInv(Apply(s, events[0]), events[1..]);
    }
  }

  // ----- what the host owes: told by the events

  /** The snapshot of the subscription that took effect, then every arrival since then that came before the host was
      told to stop accepting. */
  function Offered(events: seq<Event>): seq<Reported> {
    if events == [] then []
    else
      var before, e := events[..|events| - 1], events[|events| - 1];
      match e
      case Subscribe(snapshot) => if TakesEffect(before) && !snapshot.Absent? then [snapshot] else Offered(before)
      case Arrive(x) => if Listening(before) then Offered(before) + [x] else Offered(before)
      case _ => Offered(before)
  }

  /** A subscription takes effect if it is the first one and the host has not been stopped. */
  predicate TakesEffect(before: seq<Event>) {
    !Subscribed(before) && !Run(START, before).closed
  }

  predicate Subscribed(events: seq<Event>) {
    if events == [] then false
    else
      var before, e := events[..|events| - 1], events[|events| - 1];
      Subscribed(before) || (e.Subscribe? && !Run(START, before).closed)
  }

  predicate Listening(events: seq<Event>) {
    Subscribed(events) && StopAccepting !in events
  }

  lemma OfferStep(s: State, e: Event)
    requires Inv(s)
    ensures var t := Apply(s, e);
      && (t.accepting <==> s.accepting && !e.StopAccepting?)
      && (t.subscribed <==> s.subscribed || (e.Subscribe? && !s.closed))
      && t.offered ==
           (match e
            case Subscribe(x) => if !s.subscribed && !s.closed && !x.Absent? then [x] else s.offered
            case Arrive(x) => if s.subscribed && s.accepting then s.offered + [x] else s.offered
            case _ => s.offered)
  {
    hide Deduplicated, Backlog;
    match e
    case TakeSnapshot => if s.snapshot.Some? { TakeFrame(s, s.snapshot.value); }
    case TakeBuffered => if s.buffer != [] { TakeFrame(s, s.buffer[0]); }
    case DrainChecks(task) => if s.live != [] { TakeFrame(s, s.live[0]); }
    case _ =>
  }

  lemma {:induction false} OffersAreTold(events: seq<Event>)
    ensures var s := Run(START, events);
      && s.offered == Offered(events)
      && (s.subscribed <==> Subscribed(events)) && (s.accepting <==> StopAccepting !in events)
    decreases |events|
  {
    hide Inv, Apply;
    if events != [] {
      var before, e := events[..|events| - 1], events[|events| - 1];
      OffersAreTold(before);
      assert events == before + [e];
      RunSplits(START, before, e);
      StartKeepsInv();
      RunKeepsInv(START, before);
      OfferStep(Run(START, before), e);
    }
  }

  /** In every interleaving the states processed are the initial snapshot and the accepted arrivals, in order
      and with adjacent equal versions collapsed, as far as they have been taken; until the host has stopped,
      the rest is exactly the backlog. */
  lemma {:induction false} ProcessedInOrder(events: seq<Event>)
    ensures var s := Run(START, events);
      && s.processed == Collapse(s.taken) && s.taken <= Offered(events)
      && (!s.closed ==> s.taken + Backlog(s) == Offered(events))
  {
    RunKeepsInv(START, events);
    OffersAreTold(events);
  }

  // ----- and can be processed

  /** Nothing keeps the queues from being worked off: the startup has not failed and no task is missing. */
  predicate Workable(s: State) {
    s.subscribed && !s.closed && !(s.buffering && s.failed) && !Stalled(s)
  }

  /** Steps by which the host works off what it has, while nothing arrives and nothing fails. */
  predicate Working(events: seq<Event>) {
    forall e <- events ::
      e.TakeSnapshot? || e.TakeBuffered? || e.GoLive? || e.DrainChecks? || e.DrainReturns?
  }

  ghost predicate CanCatchUp(s: State) {
    exists later :: Working(later) && CaughtUp(Run(s, later), s.offered)
  }

  /** Live, with everything taken. */
  predicate CaughtUp(s: State, offered: seq<Reported>) {
    !s.buffering && s.taken == offered
  }

  lemma CatchesUpAfter(s: State, e: Event)
    requires Working([e]) && CanCatchUp(Apply(s, e)) && Apply(s, e).offered == s.offered
    ensures CanCatchUp(s)
  {
    hide Apply;
    var later :| Working(later) && CaughtUp(Run(Apply(s, e), later), s.offered);
    var all := [e] + later;
    assert all[1..] == later && Run(s, all) == Run(Apply(s, e), later);
    assert e in [e] && Working(all);
  }

  lemma NothingIsLeft(s: State)
    requires Inv(s) && !s.closed && !s.buffering && Backlog(s) == []
    ensures CanCatchUp(s)
  {
    assert Run(s, []) == s && Working([]);
    assert s.taken + [] == s.taken;
  }

  /** The one step that goes on from here. */
  function NextStep(s: State): Event
    requires Inv(s) && Workable(s) && (s.buffering || Backlog(s) != [])
  {
    if s.snapshot.Some? then TakeSnapshot
    else if s.buffer != [] then TakeBuffered
    else if s.buffering then GoLive
    else
      assert s.drains != map[];
      assert exists task :: task in s.drains;
      var task := s.recorded.value;
      if s.drains[task].Processing? then DrainReturns(task) else DrainChecks(task)
  }

  /** How much is left to do: two steps for each queued state, one for a state in processing, one for going live. */
  function Left(s: State): nat {
    2 * |Backlog(s)| + (if exists task <- s.drains :: s.drains[task].Processing? then 1 else 0)
    + (if s.buffering then 1 else 0)
  }

  lemma StepWorksOff(s: State)
    requires Inv(s) && Workable(s) && (s.buffering || Backlog(s) != [])
    ensures var t := Apply(s, NextStep(s));
      Workable(t) && t.offered == s.offered && Working([NextStep(s)]) && Left(t) < Left(s)
  {
    hide Deduplicated;
    if s.snapshot.Some? {
      TakeFrame(s, s.snapshot.value);
    } else if s.buffer != [] {
      TakeFrame(s, s.buffer[0]);
    } else if !s.buffering {
      TakeFrame(s, s.live[0]);
    }
  }

  /** In every reachable state of a subscribed host whose startup has not failed and whose queue does not stand still,
      the host can go live and work off its whole backlog by itself; then everything offered has been processed,
      repetitions aside. */
  lemma {:induction false} BacklogCanBeProcessed(events: seq<Event>)
    requires Workable(Run(START, events))
    ensures exists later :: Working(later) && Processed(Run(Run(START, events), later), Offered(events))
  {
    hide Inv, Run, Offered;
    var s := Run(START, events);
    StartKeepsInv();
    RunKeepsInv(START, events);
    OffersAreTold(events);
    Catches(s);
    var later :| Working(later) && CaughtUp(Run(s, later), s.offered);
    RunKeepsInv(s, later);
    InvProcesses(Run(s, later));
    assert Processed(Run(s, later), Offered(events));
  }

  predicate Processed(s: State, offered: seq<Reported>) {
    !s.buffering && s.processed == Collapse(offered)
  }

  lemma InvProcesses(s: State)
    requires Inv(s)
    ensures s.processed == Collapse(s.taken)
  {}

  lemma {:induction false} Catches(s: State)
    requires Inv(s) && Workable(s)
    ensures CanCatchUp(s)
    decreases Left(s)
  {
    hide Inv, Apply, Backlog, CanCatchUp, Left;
    if !s.buffering && Backlog(s) == [] {
      NothingIsLeft(s);
    } else {
      StepWorksOff(s);
      ApplyKeepsInv(s, NextStep(s));
      Catches(Apply(s, NextStep(s)));
      CatchesUpAfter(s, NextStep(s));
    }
  }

  /** In every reachable state a drain task at its check takes the oldest queued state and is busy with it unless it
      repeats the one before, or finds the queue empty and is over; while it is busy it takes nothing more. */
  lemma {:induction false} DrainTakesOneAtATime(events: seq<Event>, task: nat)
    requires task in Run(START, events).drains
    ensures var s := Run(START, events);
      var t := Apply(s, DrainChecks(task));
      if s.drains[task].Processing? then t == s
      else if s.live == [] then t.drains == map[] && t.taken == s.taken
      else && t.taken == s.taken + [s.live[0]] && t.live == s.live[1..]
           && t.drains == map[task := if Repeats(s.taken, s.live[0]) then AtCheck else Processing]
  {
    hide Inv, Run, Apply;
    StartKeepsInv();
    RunKeepsInv(START, events);
    CheckTakesOne(Run(START, events), task);
  }

  lemma CheckTakesOne(s: State, task: nat)
    requires Inv(s) && task in s.drains
    ensures var t := Apply(s, DrainChecks(task));
      if s.drains[task].Processing? then t == s
      else if s.live == [] then t.drains == map[] && t.taken == s.taken
      else && t.taken == s.taken + [s.live[0]] && t.live == s.live[1..]
           && t.drains == map[task := if Repeats(s.taken, s.live[0]) then AtCheck else Processing]
  {
    hide Collapse, Backlog;
    assert s.drains == map[task := s.drains[task]];
    if s.live != [] {
      TakeFrame(s, s.live[0]);
    }
  }

  // ----- a failed start

  lemma FailedStep(s: State, e: Event)
    requires Inv(s) && s.failed && (s.buffering || s.closed)
    ensures var t := Apply(s, e); t.failed && (t.buffering || t.closed) && t.taken == s.taken
  {
    hide Deduplicated, Backlog;
  }

  lemma {:induction false} FailedRun(s: State, later: seq<Event>)
    requires Inv(s) && s.failed && (s.buffering || s.closed)
    ensures Run(s, later).taken == s.taken
    decreases |later|
  {
    hide Inv, Apply;
    if later != [] {
      FailedStep(s, later[0]);
      ApplyKeepsInv(s, later[0]);
      FailedRun(Apply(s, later[0]), later[1..]);
    }
  }

  /** A start that fails processes nothing any more, whatever comes; once the host is live it cannot fail. */
  lemma {:induction false} FailedStartProcessesNothing(events: seq<Event>, later: seq<Event>)
    ensures var s := Run(START, events);
      if s.buffering then Run(Apply(s, InitFails), later).taken == s.taken else Apply(s, InitFails) == s
  {
    hide Inv, Run;
    StartKeepsInv();
    RunKeepsInv(START, events);
    ApplyKeepsInv(Run(START, events), InitFails);
    if Run(START, events).buffering {
      FailedRun(Apply(Run(START, events), InitFails), later);
    }
  }

  // ----- the end of the stop

  lemma ClosedStep(s: State, e: Event)
    requires Inv(s) && s.closed && Backlog(s) == []
    ensures var t := Apply(s, e);
      t.closed && t.taken == s.taken && t.processed == s.processed && Backlog(t) == []
  {
    hide Deduplicated;
  }

  lemma {:induction false} ClosedRun(s: State, later: seq<Event>)
    requires Inv(s) && s.closed && Backlog(s) == []
    ensures var t := Run(s, later);
      t.closed && t.taken == s.taken && t.processed == s.processed && Backlog(t) == []
    decreases |later|
  {
    hide Inv, Apply, Backlog;
    if later != [] {
      ClosedStep(s, later[0]);
      ApplyKeepsInv(s, later[0]);
      ClosedRun(Apply(s, later[0]), later[1..]);
    }
  }

  /** The end of the stop clears what is still queued, and no step after it processes anything. It comes exactly when
      the host does not accept any more and no drain task is left. */
  lemma {:induction false} StopEndsForGood(events: seq<Event>, later: seq<Event>)
    ensures var s := Run(START, events);
      var t := Run(Apply(s, StopEnds), later);
      && (!s.closed ==> (Apply(s, StopEnds).closed <==> StopAccepting in events && s.drains == map[]))
      && (Apply(s, StopEnds).closed && !s.closed ==> t.closed && t.processed == s.processed && Backlog(t) == [])
  {
    hide Inv, Run;
    var s := Run(START, events);
    StartKeepsInv();
    RunKeepsInv(START, events);
    OffersAreTold(events);
    ApplyKeepsInv(s, StopEnds);
    if Apply(s, StopEnds).closed && !s.closed {
      ClosedRun(Apply(s, StopEnds), later);
    }
  }

  /** There is never more than one drain task at work, none during startup, and it is the recorded one. */
  lemma {:induction false} AtMostOneDrain(events: seq<Event>)
    ensures var s := Run(START, events);
      && (forall t <- s.drains, u <- s.drains :: t == u)
      && (s.buffering ==> s.drains == map[])
      && (forall t <- s.drains :: s.recorded == Some(t))
  {
    RunKeepsInv(START, events);
  }

  /** A drain task that raises leaves the rest of the queue where it was: nothing is lost, but nothing is
      processed either until the next arrival creates a new task. */
  lemma {:induction false} RaisingDrainStalls(events: seq<Event>, task: nat, x: Reported)
    requires task in Run(START, events).drains && Run(START, events).drains[task].Processing? &&
             Run(START, events).accepting
    ensures var t := Apply(Run(START, events), DrainRaises(task));
      && t.drains == map[] && t.live == Run(START, events).live
      && Apply(t, Arrive(x)).drains != map[] && Apply(t, Arrive(x)).live == t.live + [x]
  {
    var s := Run(START, events);
    RunKeepsInv(START, events);
    assert s.recorded == Some(task);
    var t := s.(drains := s.drains - {task});
    assert t.drains.Keys == {};
    assert task + 1 in ArriveStep(t, x).drains;
  }

  // ----- when the queue stands still

  /** States are queued and no task is at work on them. */
  predicate Stalled(s: State) {
    s.live != [] && s.drains == map[]
  }

  /** Step `i` is a drain task's that raises while states are still queued. */
  predicate RaisesWithQueue(events: seq<Event>, i: nat)
    requires i < |events|
  {
    var s, e := Run(START, events[..i]), events[i];
    e.DrainRaises? && e.task in s.drains && s.drains[e.task].Processing? && s.live != []
  }

  /** Step `i` accepts an arrival in live mode or clears the queue at the end of the stop. */
  predicate EndsStall(events: seq<Event>, i: nat)
    requires i < |events|
  {
    var s, e := Run(START, events[..i]), events[i];
    (e.Arrive? && s.subscribed && s.accepting && !s.buffering) || (e.StopEnds? && !s.accepting && s.drains == map[])
  }

  /** A drain raised with states still queued, and nothing has woken the queue since. */
  ghost predicate LeftByARaise(events: seq<Event>) {
    exists i: nat | i < |events| ::
      RaisesWithQueue(events, i) && forall j: nat | i < j < |events| :: !EndsStall(events, j)
  }

  /** One step makes the queue stand still exactly by raising with states queued, or by not waking it. */
  lemma StallStep(s: State, e: Event)
    requires Inv(s)
    ensures Stalled(Apply(s, e)) <==>
      || (e.DrainRaises? && e.task in s.drains && s.drains[e.task].Processing? && s.live != [])
      || (Stalled(s) && !(e.Arrive? && s.subscribed && s.accepting && !s.buffering)
                     && !(e.StopEnds? && !s.accepting && s.drains == map[]))
  {
    hide Deduplicated, Backlog, Collapse;
    match e
    case Arrive(x) => ArriveStalls(s, x);
    case TakeSnapshot => if s.snapshot.Some? { TakeFrame(s, s.snapshot.value); }
    case TakeBuffered => if s.buffer != [] { TakeFrame(s, s.buffer[0]); }
    case DrainChecks(task) => CheckStalls(s, task);
    case DrainReturns(task) =>
    case DrainRaises(task) => RaiseStalls(s, task);
    case _ =>
  }

  lemma ArriveStalls(s: State, x: Reported)
    requires Inv(s)
    ensures Stalled(ArriveStep(s, x)) <==> Stalled(s) && !(s.subscribed && s.accepting && !s.buffering)
  {
    hide Deduplicated, Backlog;
    if s.subscribed && s.accepting && !s.buffering && !(s.recorded.Some? && s.recorded.value in s.drains) {
      var task := if s.recorded.Some? then s.recorded.value + 1 else 0;
      assert task in ArriveStep(s, x).drains;
    }
  }

  lemma CheckStalls(s: State, task: nat)
    requires Inv(s)
    ensures Stalled(CheckStep(s, task)) <==> Stalled(s)
  {
    hide Deduplicated, Backlog, Take;
    if task in s.drains && s.drains[task].AtCheck? && s.live != [] {
      TakeFrame(s, s.live[0]);
      assert task in CheckStep(s, task).drains;
    }
  }

  lemma RaiseStalls(s: State, task: nat)
    requires Inv(s)
    ensures Stalled(Apply(s, DrainRaises(task))) <==>
      (task in s.drains && s.drains[task].Processing? && s.live != []) || Stalled(s)
  {
    hide Deduplicated, Backlog;
    if task in s.drains {
      forall t <- s.drains ensures t == task {
        assert s.recorded == Some(t) && s.recorded == Some(task);
      }
      assert (s.drains - {task}).Keys == {};
    }
  }

  lemma {:induction false} RunSplits(s: State, events: seq<Event>, e: Event)
    ensures Run(s, events + [e]) == Apply(Run(s, events), e)
    decreases |events|
  {
    hide Apply;
    if events == [] {
      assert events + [e] == [e] && [e][1..] == [];
      assert Run(Apply(s, e), []) == Apply(s, e);
    } else {
      assert (events + [e])[1..] == events[1..] + [e];
      RunSplits(Apply(s, events[0]), events[1..], e);
    }
  }

  /** A step is judged by the run before it, however the run goes on. */
  lemma SameInPrefix(events: seq<Event>, i: nat)
    requires i < |events| - 1
    ensures RaisesWithQueue(events, i) == RaisesWithQueue(events[..|events| - 1], i)
    ensures EndsStall(events, i) == EndsStall(events[..|events| - 1], i)
  {
    assert events[..|events| - 1][..i] == events[..i];
  }

  lemma LeftBySnoc(events: seq<Event>)
    requires events != []
    ensures var n := |events| - 1;
      LeftByARaise(events) <==> RaisesWithQueue(events, n) || (LeftByARaise(events[..n]) && !EndsStall(events, n))
  {
    hide RaisesWithQueue, EndsStall;
    var n := |events| - 1;
    var before := events[..n];
    forall i: nat | i < n
      ensures RaisesWithQueue(events, i) == RaisesWithQueue(before, i) && EndsStall(events, i) == EndsStall(before, i)
    {
      SameInPrefix(events, i);
    }
    if LeftByARaise(before) && !EndsStall(events, n) {
      var i: nat :| i < n && RaisesWithQueue(before, i) && forall j: nat | i < j < n :: !EndsStall(before, j);
      assert RaisesWithQueue(events, i);
      assert forall j: nat | i < j < |events| :: !EndsStall(events, j);
    }
    if LeftByARaise(events) && !RaisesWithQueue(events, n) {
      var i: nat :| i < |events| && RaisesWithQueue(events, i) &&
        forall j: nat | i < j < |events| :: !EndsStall(events, j);
      assert RaisesWithQueue(before, i);
      assert forall j: nat | i < j < n :: !EndsStall(before, j);
    }
  }

  /** In every interleaving the queue stands still exactly after a drain task raised with states still queued, until
      an arrival is accepted or the end of the stop clears the queue: no wake-up is ever lost otherwise. */
  lemma {:induction false} StalledExactlyAfterARaise(events: seq<Event>)
    ensures Stalled(Run(START, events)) <==> LeftByARaise(events)
    decreases |events|
  {
    hide Inv, Stalled, LeftByARaise, Apply;
    if events == [] {
      NothingStalls();
    } else {
      var before, e := events[..|events| - 1], events[|events| - 1];
      StalledExactlyAfterARaise(before);
      assert events == before + [e];
      RunSplits(START, before, e);
      StartKeepsInv();
      RunKeepsInv(START, before);
      StallStep(Run(START, before), e);
      LeftBySnoc(events);
    }
  }

  lemma NothingStalls()
    ensures !Stalled(START) && !LeftByARaise([])
  {}

  lemma StartKeepsInv()
    ensures Inv(START)
  {}

  // ----- what collapsing drops

  /** A state that does not repeat the one right before it. */
  predicate IsNew(taken: seq<Reported>, k: nat)
    requires k < |taken|
  {
    k == 0 || taken[k].Absent? || taken[k] != taken[k - 1]
  }

  /** The positions of the states that collapsing keeps. */
  function Positions(taken: seq<Reported>): seq<nat> {
    if taken == [] then []
    else
      var before, x := taken[..|taken| - 1], taken[|taken| - 1];
      if Repeats(before, x) then Positions(before) else Positions(before) + [|before|]
  }

  lemma NewInPrefix(taken: seq<Reported>, k: nat)
    requires k < |taken| - 1
    ensures IsNew(taken, k) <==> IsNew(taken[..|taken| - 1], k)
  {}

  lemma LastIsNew(taken: seq<Reported>)
    requires taken != []
    ensures IsNew(taken, |taken| - 1) <==> !Repeats(taken[..|taken| - 1], taken[|taken| - 1])
  {}

  /** Collapsing keeps exactly the states that do not repeat the one right before them, each at its own position and
      in order: what it drops always stands next to its own repetition. */
  lemma {:induction false} CollapseDropsOnlyRepetitions(taken: seq<Reported>)
    ensures var (c, at) := (Collapse(taken), Positions(taken));
      && |at| == |c|
      && (forall i | 0 <= i < |at| :: at[i] < |taken| && c[i] == taken[at[i]])
      && (forall i, j | 0 <= i < j < |at| :: at[i] < at[j])
      && (forall k: nat | k < |taken| :: k in at <==> IsNew(taken, k))
    decreases |taken|
  {
    hide IsNew, Repeats;
    if taken != [] {
      var n := |taken| - 1;
      var before := taken[..n];
      CollapseDropsOnlyRepetitions(before);
      LastIsNew(taken);
      forall k: nat | k < n ensures k in Positions(taken) <==> IsNew(taken, k) {
        NewInPrefix(taken, k);
      }
      assert n !in Positions(before);
    }
  }

  /** And no reported state is left next to its own repetition. */
  lemma {:induction false} CollapseLeavesNoRepetition(taken: seq<Reported>)
    ensures var c := Collapse(taken);
      && (taken != [] ==> c != [] && c[|c| - 1] == taken[|taken| - 1])
      && (forall i | 0 < i < |c| :: c[i].Reported? ==> c[i] != c[i - 1])
    decreases |taken|
  {
    if taken != [] {
      CollapseLeavesNoRepetition(taken[..|taken| - 1]);
    }
  }

  // ----- the loops themselves

  class TemperatureQueue {
    var lastStateVersion: Option<nat>
    var queue: seq<Reported>
    var taken: seq<Reported>
    var processed: seq<Reported>

    predicate Valid()
      reads this
    {
      && processed == Collapse(taken)
      && lastStateVersion == (if taken == [] then None else VersionOf(taken[|taken| - 1]))
    }

    constructor ()
      ensures Valid() && queue == [] && taken == [] && processed == []
    {
      lastStateVersion, queue, taken, processed := None, [], [], [];
    }

    /** `_async_process_state_now` for one state, while `arrivals` join the queue behind. */
    method ProcessStateNow(state: Reported, arrivals: seq<Reported>)
      requires Valid()
      modifies this
      ensures Valid() && taken == old(taken) + [state] && queue == old(queue) + arrivals
    {
      var version := VersionOf(state);
      CollapseNext(taken, state);
      taken := taken + [state];
      if version.None? || version != lastStateVersion {
        lastStateVersion := version;
        processed := processed + [state];
      }
      queue := queue + arrivals;
    }

    /** `_async_drain_setup_buffer` and `_async_drain_live_queue`: `bursts[i]` arrives during the i-th state. */
    method Drain(bursts: seq<seq<Reported>>) returns (rounds: nat)
      requires Valid()
      modifies this
      ensures Valid() && queue == []
      ensures taken == old(taken) + old(queue) + Concat(bursts[..Least(rounds, |bursts|)])
      ensures processed == Collapse(taken) && |taken| == |old(taken)| + rounds
    {
      hide Collapse;
      rounds := 0;
      ghost var base := taken + queue;
      assert bursts[..0] == [];
      while queue != []
        invariant Valid()
        invariant Accounted(taken + queue, base, bursts, rounds) && |taken| == |old(taken)| + rounds
        decreases |bursts| - Least(rounds, |bursts|), |queue|
      {
        var state := queue[0];
        ghost var before := taken + queue;
        queue := queue[1..];
        var burst := if rounds < |bursts| then bursts[rounds] else [];
        ProcessStateNow(state, burst);
        assert taken + queue == before + burst;
        StillAccounted(before, taken + queue, base, bursts, rounds);
        rounds := rounds + 1;
      }
    }
  }

  /** What was taken and what is queued are together `base` and the first `rounds` bursts. */
  predicate Accounted(whole: seq<Reported>, base: seq<Reported>, bursts: seq<seq<Reported>>, rounds: nat) {
    whole == base + Concat(bursts[..Least(rounds, |bursts|)])
  }

  lemma StillAccounted(before: seq<Reported>, after: seq<Reported>, base: seq<Reported>,
                       bursts: seq<seq<Reported>>, rounds: nat)
    requires Accounted(before, base, bursts, rounds)
    requires after == before + (if rounds < |bursts| then bursts[rounds] else [])
    ensures Accounted(after, base, bursts, rounds + 1)
  {
    if rounds < |bursts| {
      assert bursts[..rounds + 1][..rounds] == bursts[..rounds];
    }
  }

  function Least(a: nat, b: nat): nat {
    if a < b then a else b
  }

  function Concat(bursts: seq<seq<Reported>>): seq<Reported> {
    if bursts == [] then [] else Concat(bursts[..|bursts| - 1]) + bursts[|bursts| - 1]
  }
}
