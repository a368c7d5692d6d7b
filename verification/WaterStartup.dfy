/** Startup of the Water Safety host: the listener is subscribed before the runtime has started, arrivals
    are buffered until everything before them is serialized, and then dispatch goes live. */
module WaterStartup {

  import opened Wrappers

  datatype Condition = Wet | Dry | Unavailable | Unknown

  datatype Timestamp = Missing | Naive | Aware(at: int)

  /** A Home Assistant state as the mapper reads it; `reading` is its text stripped and case-folded. */
  datatype Reported = Absent | Reported(ourEntity: bool, timestamp: Timestamp, reading: string)

  datatype Rejection = MissingState | WrongEntity | MissingTimestamp | NaiveTimestamp

  /** `unknownNow` stands for the observation made up at the moment of mapping, for want of a usable state. */
  datatype Observation = Observed(condition: Condition, at: int) | UnknownNow

  datatype Mapping = Mapped(observation: Observation) | Rejected(reason: Rejection)

  datatype Call = Start(observation: Observation) | Observe(observation: Observation)

  function MapCondition(reading: string): Condition {
    if reading == "unavailable" then Unavailable
    else if reading in ["wet", "on", "true", "1"] then Wet
    else if reading in ["dry", "off", "false", "0"] then Dry
    else Unknown
  }

  /** Neither an unavailable sensor nor an unreadable one is ever taken for dry, nor for wet. */
  lemma OnlyExplicitReadingsCount(reading: string)
    ensures MapCondition(reading).Dry? <==> reading in ["dry", "off", "false", "0"]
    ensures MapCondition(reading).Wet? <==> reading in ["wet", "on", "true", "1"]
    ensures reading == "unavailable" || reading == "unknown" || reading == "" ==>
              !MapCondition(reading).Dry? && !MapCondition(reading).Wet?
  {
    assert "unavailable" !in ["wet", "on", "true", "1"] && "unavailable" !in ["dry", "off", "false", "0"];
    forall r <- ["dry", "off", "false", "0"] ensures r !in ["wet", "on", "true", "1"] {}
  }

  function MapState(state: Reported): Mapping {
    match state
    case Absent => Rejected(MissingState)
    case Reported(ours, timestamp, reading) =>
      if !ours then Rejected(WrongEntity)
      else if timestamp.Missing? then Rejected(MissingTimestamp)
      else if timestamp.Naive? then Rejected(NaiveTimestamp)
      else Mapped(Observed(MapCondition(reading), timestamp.at))
  }

  /** `_observation_for_state`: only a state of ours without a usable timestamp is dropped. */
  function ObservationFor(state: Reported): (o: Option<Observation>)
    ensures o.None? <==> state.Reported? && state.ourEntity && !state.timestamp.Aware?
  {
    match MapState(state)
    case Mapped(observation) => Some(observation)
    case Rejected(reason) => if reason.MissingTimestamp? || reason.NaiveTimestamp? then None else Some(UnknownNow)
  }

  /** `_require_observation` for the snapshot: only another entity's state prevents the start. */
  function SnapshotObservation(state: Reported): (o: Option<Observation>)
    ensures o.None? <==> state.Reported? && !state.ourEntity
  {
    match MapState(state)
    case Mapped(observation) => Some(observation)
    case Rejected(reason) => if reason.WrongEntity? then None else Some(UnknownNow)
  }

  /** The runtime call one arrival is due, if any. */
  function Due(state: Reported): seq<Call> {
    var o := ObservationFor(state);
    if o.Some? then [Observe(o.value)] else []
  }

  function DueAll(states: seq<Reported>): seq<Call> {
    if states == [] then [] else DueAll(states[..|states| - 1]) + Due(states[|states| - 1])
  }

  function ObserveAll(observations: seq<Observation>): seq<Call> {
    seq(|observations|, i requires 0 <= i < |observations| => Observe(observations[i]))
  }

  lemma {:induction false} DueAllSplits(a: seq<Reported>, b: seq<Reported>)
    ensures DueAll(a + b) == DueAll(a) + DueAll(b)
    decreases |b|
  {
    if b == [] {
      assert a + b == a;
    } else {
      DueAllSplits(a, b[..|b| - 1]);
      assert (a + b)[..|a + b| - 1] == a + b[..|b| - 1];
    }
  }

  lemma DueAllOfOne(x: Reported)
    ensures DueAll([x]) == Due(x)
  {
    assert [x][..0] == [];
  }

  /** `tasks` are live state changes whose callback task has not run, `queue` calls past the submission
      lock, `seen` what the runtime was called with, `arrivals` every state event since the subscription. */
  datatype State = State(
    subscribed: bool, accepting: bool, buffer: Option<seq<Observation>>, live: bool,
    tasks: seq<Reported>, queue: seq<Call>, seen: seq<Call>, snapshot: Reported, arrivals: seq<Reported>)

  const START := State(false, true, None, false, [], [], [], Absent, [])

  datatype Event =
    | Subscribe(snapshot: Reported)   // subscribe, snapshot and submit the start, without yielding
    | Arrive(state: Reported)
    | InitResumes                     // the call of `async_initialize` has returned
    | InitRaises
    | TaskRuns
    | WorkerRuns
    | Retire

  function SubscribeStep(s: State, snapshot: Reported): State {
    if s.subscribed || !s.accepting then s
    else
      var o := SnapshotObservation(snapshot);
      if o.None? then s.(subscribed := true, snapshot := snapshot, accepting := false)
      else s.(subscribed := true, snapshot := snapshot, buffer := Some([]), queue := [Start(o.value)])
  }

  function ArriveStep(s: State, state: Reported): State {
    if !s.subscribed then s
    else
      var t := s.(arrivals := s.arrivals + [state]);
      if !s.accepting then t
      else if s.buffer.Some? then
        var o := ObservationFor(state);
        if o.Some? then t.(buffer := Some(s.buffer.value + [o.value])) else t
      else t.(tasks := s.tasks + [state])
  }

  function ResumeStep(s: State): State {
    if !s.accepting || s.buffer.None? || s.queue != [] then s
    else if s.buffer.value == [] then s.(buffer := None, live := true)
    else s.(buffer := Some(s.buffer.value[1..]), queue := [Observe(s.buffer.value[0])])
  }

  function RaiseStep(s: State): State {
    if s.buffer.None? then s else s.(accepting := false, buffer := None)
  }

  function TaskStep(s: State): State {
    if s.tasks == [] then s
    else if !s.accepting then s.(tasks := s.tasks[1..])
    else s.(tasks := s.tasks[1..], queue := s.queue + Due(s.tasks[0]))
  }

  function WorkerStep(s: State): State {
    if s.queue == [] then s
    else if !s.accepting then s.(queue := s.queue[1..])
    else s.(queue := s.queue[1..], seen := s.seen + [s.queue[0]])
  }

  function Apply(s: State, e: Event): State {
    match e
    case Subscribe(snapshot) => SubscribeStep(s, snapshot)
    case Arrive(state) => ArriveStep(s, state)
    case InitResumes => ResumeStep(s)
    case InitRaises => RaiseStep(s)
    case TaskRuns => TaskStep(s)
    case WorkerRuns => WorkerStep(s)
    case Retire => s.(accepting := false)
  }

  function Run(s: State, events: seq<Event>): State
    decreases |events|
  {
    if events == [] then s else Run(Apply(s, events[0]), events[1..])
  }

  /** What the runtime is owed: the start on the snapshot, then every mappable arrival in order. */
  function Owed(s: State): seq<Call> {
    if !s.subscribed || SnapshotObservation(s.snapshot).None? then []
    else [Start(SnapshotObservation(s.snapshot).value)] + DueAll(s.arrivals)
  }

  /** What is still on its way, in the order it will be delivered. */
  function Backlog(s: State): seq<Call> {
    s.queue + (if s.buffer.Some? then ObserveAll(s.buffer.value) else []) + DueAll(s.tasks)
  }

  predicate Inv(s: State) {
    && (s.accepting ==> s.seen + Backlog(s) == Owed(s))
    && s.seen <= Owed(s)
    && (s.buffer.Some? ==> s.tasks == [])
    && (s.subscribed && s.accepting ==> SnapshotObservation(s.snapshot).Some?)
    && (!s.subscribed ==> s.buffer.None? && s.tasks == [] && s.queue == [] && s.arrivals == [])
  }

  lemma SubscribeKeepsInv(s: State, snapshot: Reported)
    requires Inv(s)
    ensures Inv(SubscribeStep(s, snapshot))
  {}

  lemma ArrivalIsOwed(s: State, state: Reported)
    requires s.subscribed
    ensures SnapshotObservation(s.snapshot).Some? ==> Owed(ArriveStep(s, state)) == Owed(s) + Due(state)
    ensures Owed(s) <= Owed(ArriveStep(s, state))
  {
    assert ArriveStep(s, state).arrivals == s.arrivals + [state];
    assert (s.arrivals + [state])[..|s.arrivals|] == s.arrivals;
  }

  lemma ArrivalIsOnItsWay(s: State, state: Reported)
    requires s.subscribed && s.accepting && (s.buffer.Some? ==> s.tasks == [])
    ensures Backlog(ArriveStep(s, state)) == Backlog(s) + Due(state)
  {
    var t := ArriveStep(s, state);
    if s.buffer.Some? {
      assert ObserveAll(t.buffer.value) == ObserveAll(s.buffer.value) + Due(state);
    } else {
      assert t.tasks == s.tasks + [state];
      assert (s.tasks + [state])[..|s.tasks|] == s.tasks;
    }
  }

  lemma AcceptedArrivalBalances(s: State, state: Reported)
    requires Inv(s) && s.subscribed && s.accepting
    ensures ArriveStep(s, state).seen + Backlog(ArriveStep(s, state)) == Owed(ArriveStep(s, state))
  {
    ArrivalIsOwed(s, state);
    ArrivalIsOnItsWay(s, state);
    Regroup(s.seen, Backlog(s), Due(state));
  }

  lemma Regroup(a: seq<Call>, b: seq<Call>, c: seq<Call>)
    ensures a + (b + c) == (a + b) + c
  {}

  lemma PrefixChain(a: seq<Call>, b: seq<Call>, c: seq<Call>)
    requires a <= b && b <= c
    ensures a <= c
  {}

  lemma ArriveKeepsInv(s: State, state: Reported)
    requires Inv(s)
    ensures Inv(ArriveStep(s, state))
  {
    if s.subscribed {
      ArrivalIsOwed(s, state);
      PrefixChain(s.seen, Owed(s), Owed(ArriveStep(s, state)));
      if s.accepting {
        AcceptedArrivalBalances(s, state);
      }
    }
  }

  lemma ResumeKeepsInv(s: State)
    requires Inv(s)
    ensures Inv(ResumeStep(s))
  {
    if s.accepting && s.buffer.Some? && s.queue == [] {
      assert Backlog(ResumeStep(s)) == Backlog(s);
    }
  }

  lemma LiveBacklog(s: State)
    requires s.buffer.None?
    ensures Backlog(s) == s.queue + DueAll(s.tasks)
  {}

  lemma DueAllFirst(states: seq<Reported>)
    requires states != []
    ensures DueAll(states) == Due(states[0]) + DueAll(states[1..])
  {
    DueAllSplits([states[0]], states[1..]);
    DueAllOfOne(states[0]);
    assert states == [states[0]] + states[1..];
  }

  lemma TaskKeepsBacklog(s: State)
    requires s.tasks != [] && s.accepting && s.buffer.None?
    ensures Backlog(TaskStep(s)) == Backlog(s)
  {
    LiveBacklog(s);
    LiveBacklog(TaskStep(s));
    DueAllFirst(s.tasks);
    Regroup(s.queue, Due(s.tasks[0]), DueAll(s.tasks[1..]));
  }

  lemma TaskKeepsInv(s: State)
    requires Inv(s)
    ensures Inv(TaskStep(s))
  {
    if s.tasks != [] && s.accepting {
      TaskKeepsBacklog(s);
    }
  }

  lemma WorkerKeepsInv(s: State)
    requires Inv(s)
    ensures Inv(WorkerStep(s))
  {
    var t := WorkerStep(s);
    if s.queue != [] && s.accepting {
      assert t.seen + Backlog(t) == s.seen + Backlog(s);
      assert t.seen <= t.seen + Backlog(t);
    }
  }

  lemma ApplyKeepsInv(s: State, e: Event)
    requires Inv(s)
    ensures Inv(Apply(s, e))
  {
    match e
    case Subscribe(snapshot) => SubscribeKeepsInv(s, snapshot);
    case Arrive(state) => ArriveKeepsInv(s, state);
    case InitResumes => ResumeKeepsInv(s);
    case InitRaises =>
    case TaskRuns => TaskKeepsInv(s);
    case WorkerRuns => WorkerKeepsInv(s);
    case Retire =>
  }

  lemma {:induction false} RunKeepsInv(s: State, events: seq<Event>)
    requires Inv(s)
    ensures Inv(Run(s, events))
    decreases |events|
  {
    if events != [] {
      ApplyKeepsInv(s, events[0]);
      RunKeepsInv(Apply(s, events[0]), events[1..]);
    }
  }

  // ----- what the runtime is owed: told by the events

  /** The snapshot of the subscription that took effect, and the state events since. */
  function Told(events: seq<Event>): (Option<Reported>, seq<Reported>) {
    if events == [] then (None, [])
    else
      var before, e := events[..|events| - 1], events[|events| - 1];
      var (snapshot, arrivals) := Told(before);
      match e
      case Subscribe(x) => if snapshot.None? && Run(START, before).accepting then (Some(x), []) else Told(before)
      case Arrive(x) => if snapshot.Some? then (snapshot, arrivals + [x]) else Told(before)
      case _ => Told(before)
  }

  /** The start on the snapshot, unless that is of another entity, then every mappable event in order. */
  function OwedBy(events: seq<Event>): seq<Call> {
    var (snapshot, arrivals) := Told(events);
    if snapshot.None? || SnapshotObservation(snapshot.value).None? then []
    else [Start(SnapshotObservation(snapshot.value).value)] + DueAll(arrivals)
  }

  lemma {:induction false} RunSplits(s: State, events: seq<Event>, e: Event)
    ensures Run(s, events + [e]) == Apply(Run(s, events), e)
    decreases |events|
  {
    hide Apply;
    if events == [] {
      assert events + [e] == [e] && [e][1..] == [];
      assert Run(Apply(s, e), []) == Apply(s, e);
    } else {
      assert (events + [e])[1..] == events[1..] + [e];
      RunSplits(Apply(s, events[0]), events[1..], e);
    }
  }

  lemma TellStep(s: State, e: Event)
    requires Inv(s)
    ensures var t := Apply(s, e);
      && (t.subscribed <==> s.subscribed || (e.Subscribe? && s.accepting))
      && t.snapshot == (if e.Subscribe? && !s.subscribed && s.accepting then e.snapshot else s.snapshot)
      && t.arrivals == (if e.Arrive? && s.subscribed then s.arrivals + [e.state] else s.arrivals)
  {
    hide Owed, Backlog;
  }

  lemma {:induction false} ArrivalsAreTold(events: seq<Event>)
    ensures var s := Run(START, events);
      Told(events) == (if s.subscribed then Some(s.snapshot) else None, s.arrivals) && Owed(s) == OwedBy(events)
    decreases |events|
  {
    hide Inv, Apply, DueAll;
    if events != [] {
      var before, e := events[..|events| - 1], events[|events| - 1];
      ArrivalsAreTold(before);
      assert events == before + [e];
      RunSplits(START, before, e);
      StartKeepsInv();
      RunKeepsInv(START, before);
      TellStep(Run(START, before), e);
      UnsubscribedHasNoArrivals(Run(START, before));
    }
  }

  lemma StartKeepsInv()
    ensures Inv(START)
  {}

  lemma UnsubscribedHasNoArrivals(s: State)
    requires Inv(s)
    ensures !s.subscribed ==> s.arrivals == []
  {}

  /** In every interleaving of arrivals, startup, live tasks and the worker, the runtime has seen a prefix of
      what it is owed; while the host accepts, what it has not seen is exactly the backlog, so nothing is
      lost, repeated or overtaken across the switch to live dispatch. */
  lemma {:induction false} EveryMappableEventOnceInOrder(events: seq<Event>)
    ensures var s := Run(START, events);
      s.seen <= OwedBy(events) && (s.accepting ==> s.seen + Backlog(s) == OwedBy(events))
  {
    RunKeepsInv(START, events);
    ArrivalsAreTold(events);
  }

  /** The host accepts until it is retired, its start raises, or the snapshot is of another entity. */
  lemma {:induction false} AcceptsUnlessRetired(events: seq<Event>, e: Event)
    ensures var s := Run(START, events);
      Apply(s, e).accepting <==>
        && s.accepting && !e.Retire? && !(e.InitRaises? && s.buffer.Some?)
        && !(e.Subscribe? && !s.subscribed && SnapshotObservation(e.snapshot).None?)
  {
    hide SnapshotObservation;
  }

  // ----- and can be delivered

  /** Steps by which the host delivers what it has, while nothing arrives and nothing raises. */
  predicate Working(events: seq<Event>) {
    forall e <- events :: e.InitResumes? || e.TaskRuns? || e.WorkerRuns?
  }

  predicate Live(s: State) {
    s.subscribed && s.accepting && s.buffer.None? && s.tasks == [] && s.queue == []
  }

  ghost predicate CanGoLive(s: State) {
    exists later :: Working(later) && Live(Run(s, later)) && Owed(Run(s, later)) == Owed(s)
  }

  lemma GoesLiveAfter(s: State, e: Event)
    requires Working([e]) && CanGoLive(Apply(s, e)) && Owed(Apply(s, e)) == Owed(s)
    ensures CanGoLive(s)
  {
    hide Apply, Owed;
    var later :| Working(later) && Live(Run(Apply(s, e), later)) && Owed(Run(Apply(s, e), later)) == Owed(s);
    var all := [e] + later;
    assert all[1..] == later && Run(s, all) == Run(Apply(s, e), later);
    assert e in [e] && Working(all);
  }

  function NextStep(s: State): Event {
    if s.queue != [] then WorkerRuns else if s.buffer.Some? then InitResumes else TaskRuns
  }

  function Left(s: State): nat {
    |s.queue| + (if s.buffer.Some? then 2 * |s.buffer.value| + 1 else 0) + 2 * |s.tasks|
  }

  lemma StepDelivers(s: State)
    requires s.subscribed && s.accepting && !Live(s)
    ensures var t := Apply(s, NextStep(s));
      && t.subscribed && t.accepting && Owed(t) == Owed(s) && Left(t) < Left(s) && Working([NextStep(s)])
  {
    hide ObservationFor, SnapshotObservation, DueAll;
  }

  lemma {:induction false} GoesLive(s: State)
    requires s.subscribed && s.accepting
    ensures CanGoLive(s)
    decreases Left(s)
  {
    hide Apply, Owed;
    if Live(s) {
      assert Run(s, []) == s && Working([]);
    } else {
      StepDelivers(s);
      GoesLive(Apply(s, NextStep(s)));
      GoesLiveAfter(s, NextStep(s));
    }
  }

  /** In every reachable state of a subscribed, accepting host the startup can be completed, and then the runtime has
      seen everything it is owed. */
  lemma {:induction false} EverythingCanBeDelivered(events: seq<Event>)
    requires Told(events).0.Some? && Run(START, events).accepting
    ensures exists later ::
      Working(later) && DeliversAll(Run(Run(START, events), later), OwedBy(events))
  {
    hide Inv, Run, OwedBy, Told;
    var s := Run(START, events);
    StartKeepsInv();
    RunKeepsInv(START, events);
    ArrivalsAreTold(events);
    GoesLive(s);
    var later :| Working(later) && Live(Run(s, later)) && Owed(Run(s, later)) == Owed(s);
    RunKeepsInv(s, later);
    LiveHasSeenAll(Run(s, later));
  }

  predicate DeliversAll(s: State, owed: seq<Call>) {
    s.buffer.None? && s.seen == owed
  }

  lemma LiveHasSeenAll(s: State)
    requires Inv(s) && Live(s)
    ensures s.seen == Owed(s)
  {
    assert Backlog(s) == [];
  }

  // ----- the same startup as the loop that does it

  function Concat(bursts: seq<seq<Reported>>): seq<Reported> {
    if bursts == [] then [] else Concat(bursts[..|bursts| - 1]) + bursts[|bursts| - 1]
  }

  lemma ConcatGrows(bursts: seq<seq<Reported>>, k: nat)
    requires k < |bursts|
    ensures Concat(bursts[..k + 1]) == Concat(bursts[..k]) + bursts[k]
  {
    assert bursts[..k + 1][..k] == bursts[..k];
  }

  class StartupHost {
    var accepting: bool
    var startupObservations: Option<seq<Observation>>
    var initialized: bool
    var seen: seq<Call>

    constructor ()
      ensures accepting && startupObservations.None? && !initialized && seen == []
    {
      accepting, startupObservations, initialized, seen := true, None, false, [];
    }

    /** `_on_state_change` during startup. */
    method Buffer(state: Reported)
      requires startupObservations.Some? && accepting
      modifies this`startupObservations
      ensures startupObservations.Some?
      ensures ObserveAll(startupObservations.value) == ObserveAll(old(startupObservations.value)) + Due(state)
    {
      var o := ObservationFor(state);
      if o.Some? {
        startupObservations := Some(startupObservations.value + [o.value]);
      }
    }

    /** `_process`: the runtime is called on the worker while `arrivals` reach the listener. */
    method Process(call: Call, arrivals: seq<Reported>)
      requires startupObservations.Some? && accepting
      modifies this`startupObservations, this`seen
      ensures startupObservations.Some?
      ensures seen == old(seen) + [call]
      ensures ObserveAll(startupObservations.value) == ObserveAll(old(startupObservations.value)) + DueAll(arrivals)
    {
      seen := seen + [call];
      for i := 0 to |arrivals|
        invariant startupObservations.Some? && seen == old(seen) + [call]
        invariant ObserveAll(startupObservations.value) ==
                  ObserveAll(old(startupObservations.value)) + DueAll(arrivals[..i])
      {
        Buffer(arrivals[i]);
        assert arrivals[..i + 1][..i] == arrivals[..i];
      }
      assert arrivals[..|arrivals|] == arrivals;
    }

    /** One turn of the drain: the oldest buffered observation goes, `arrivals` queue up behind the rest. */
    method DrainOne(arrivals: seq<Reported>)
      requires accepting && startupObservations.Some? && startupObservations.value != []
      modifies this`startupObservations, this`seen
      ensures startupObservations.Some?
      ensures seen + ObserveAll(startupObservations.value) ==
              old(seen) + ObserveAll(old(startupObservations.value)) + DueAll(arrivals)
      ensures |seen| == |old(seen)| + 1
      ensures arrivals == [] ==> |startupObservations.value| == |old(startupObservations.value)| - 1
    {
      var buffered := startupObservations.value;
      startupObservations := Some(buffered[1..]);
      Process(Observe(buffered[0]), arrivals);
      assert ObserveAll(buffered) == [Observe(buffered[0])] + ObserveAll(buffered[1..]);
    }

    /** The drain loop of the start, after its first call. */
    method DrainStartup(bursts: seq<seq<Reported>>, ghost base: seq<Call>) returns (calls: nat)
      requires accepting && !initialized && startupObservations.Some?
      requires Delivered(seen, startupObservations.value, base, bursts, 1)
      modifies this
      ensures accepting && !initialized && startupObservations == Some([])
      ensures Delivered(seen, [], base, bursts, calls) && |seen| == |old(seen)| + calls - 1
    {
      calls := 1;
      while startupObservations.value != []
        invariant startupObservations.Some? && accepting && !initialized && calls > 0
        invariant Delivered(seen, startupObservations.value, base, bursts, calls)
        invariant |seen| == |old(seen)| + calls - 1
        decreases if calls < |bursts| then |bursts| - calls else 0, |startupObservations.value|
      {
        hide Delivered;
        ghost var s, b := seen, startupObservations.value;
        DrainOne(if calls < |bursts| then bursts[calls] else []);
        StillDelivered(s, b, seen, startupObservations.value, base, bursts, calls);
        calls := calls + 1;
      }
    }

    /** `async_initialize` while nothing fails: `bursts[i]` arrives during the i-th runtime call, `calls` is
        how many there were. Live dispatch is enabled with every arrival so far already delivered. */
    method AsyncInitialize(snapshot: Reported, bursts: seq<seq<Reported>>) returns (started: bool, calls: nat)
      requires accepting && !initialized && startupObservations.None?
      modifies this
      ensures started <==> SnapshotObservation(snapshot).Some?
      ensures startupObservations.None? && initialized == started && accepting == started
      ensures !started ==> seen == old(seen)
      ensures started ==> Delivered(seen, [], old(seen) + [Start(SnapshotObservation(snapshot).value)], bursts, calls)
      ensures |seen| == |old(seen)| + calls
    {
      startupObservations := Some([]);
      calls := 0;
      var first := SnapshotObservation(snapshot);
      if first.None? {
        accepting, startupObservations := false, None;
        return false, 0;
      }
      Process(Start(first.value), if |bursts| > 0 then bursts[0] else []);
      ghost var base := old(seen) + [Start(first.value)];
      FirstDelivered(seen, startupObservations.value, base, bursts);
      calls := DrainStartup(bursts, base);
      startupObservations := None;
      initialized := true;
      return true, calls;
    }
  }

  /** Delivered and buffered calls together are `base` and what the first `calls` bursts are due. */
  predicate Delivered(seen: seq<Call>, buffered: seq<Observation>, base: seq<Call>,
                      bursts: seq<seq<Reported>>, calls: nat) {
    seen + ObserveAll(buffered) == base + DueAll(Concat(bursts[..if calls < |bursts| then calls else |bursts|]))
  }

  lemma FirstDelivered(seen: seq<Call>, buffered: seq<Observation>, base: seq<Call>, bursts: seq<seq<Reported>>)
    requires seen == base && ObserveAll(buffered) == DueAll(if |bursts| > 0 then bursts[0] else [])
    ensures Delivered(seen, buffered, base, bursts, 1)
  {
    assert bursts[..0] == [];
    assert Delivered(base, [], base, bursts, 0);
    StillDelivered(base, [], seen, buffered, base, bursts, 0);
  }

  lemma StillDelivered(s: seq<Call>, b: seq<Observation>, t: seq<Call>, c: seq<Observation>, base: seq<Call>,
                       bursts: seq<seq<Reported>>, calls: nat)
    requires Delivered(s, b, base, bursts, calls)
    requires t + ObserveAll(c) == s + ObserveAll(b) + DueAll(if calls < |bursts| then bursts[calls] else [])
    ensures Delivered(t, c, base, bursts, calls + 1)
  {
    if calls < |bursts| {
      var before := Concat(bursts[..calls]);
      ConcatGrows(bursts, calls);
      DueAllSplits(before, bursts[calls]);
      Regroup(base, DueAll(before), DueAll(bursts[calls]));
    } else {
      assert DueAll([]) == [];
    }
  }
}
