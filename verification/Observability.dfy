/** The observability controller: one refresh interval whose existence tracks a condition over the profile and
    the last handled snapshot, while updates, ticks, stale ticks and its own re-entrant update come in. */
module Observability {
  import opened Operational
  import opened Wrappers

  datatype Profile = Basic | Detailed | Debug

  const SECOND := 1_000_000

  function Cadence(p: Profile): Option<int> {
    match p
    case Basic => None
    case Detailed => Some(10 * SECOND)
    case Debug => Some(SECOND)
  }

  function TraceLimit(p: Profile): nat {
    match p
    case Basic => 20
    case Detailed => 100
    case Debug => 500
  }

  /** `live` are Home Assistant's intervals and `issued` all there ever were, both by the generation their tick
      carries; `handle` is the controller's unsubscribe callback; `handled` the last snapshot scheduled for. */
  datatype Controller = Controller(
    profile: Profile, before: Profile, duration: Option<int>,
    live: set<nat>, issued: set<nat>, handle: Option<nat>, installed: Option<int>, generation: nat,
    started: bool, stopped: bool, subscribed: bool, handled: Option<Snapshot>, source: Source)

  function Fresh(profile: Profile, before: Profile, duration: Option<int>, source: Source): Controller {
    Controller(profile, before, duration, {}, {}, None, None, 0, false, false, false, None, source)
  }

  function CancelInterval(c: Controller): Controller {
    c.(live := if c.handle.Some? then c.live - {c.handle.value} else c.live, handle := None, installed := None)
  }

  function Desired(c: Controller, s: Snapshot): Option<int> {
    if ActiveCountdowns(s) != [] then Cadence(c.profile) else None
  }

  function Install(c: Controller, cadence: Option<int>): Controller {
    if cadence.None? || c.stopped then c
    else c.(live := c.live + {c.generation}, issued := c.issued + {c.generation},
            handle := Some(c.generation), installed := cadence)
  }

  function ScheduleFor(c: Controller, s: Snapshot): Controller {
    var h := c.(handled := Some(s));
    if Desired(c, s) == c.installed then h
    else Install(CancelInterval(h.(generation := c.generation + 1)), Desired(c, s))
  }

  function OnSnapshot(c: Controller, s: Snapshot): Controller {
    if c.stopped then c else ScheduleFor(c, s)
  }

  /** An update of the source that does not raise reaches the controller synchronously while it is subscribed. */
  function SourceUpdate(c: Controller, u: Op): Controller
    requires u.Update?
  {
    var source := UpdateStep(c.source, u.now, u.base, u.passed, u.given, u.record, u.valid);
    var t := c.(source := source);
    if c.source.closed || !c.subscribed || !u.valid then t else OnSnapshot(t, source.snapshot)
  }

  /** The base fields an update leaves. */
  function BaseOf(u: Op): Base
    requires u.Update?
  {
    WithDecision(u.base, u.given, u.record)
  }

  /** The controller's own update: one base field, no record. */
  function ProfileUpdate(s: Snapshot, debugDeadline: Option<int>, now: int): Op {
    Op.Update(now, s.base.(debugDeadline := debugDeadline), s.derived, {}, None, true)
  }

  function WithProfile(c: Controller, debugDeadline: Option<int>, now: int): Controller {
    var resized := c.(source := ResizeStep(c.source, TraceLimit(c.profile)));
    SourceUpdate(resized, ProfileUpdate(c.source.snapshot, debugDeadline, now))
  }

  /** A Debug session that does not run until changed has a deadline from its start. */
  function DebugDeadline(profile: Profile, duration: Option<int>, now: int): Option<int> {
    if profile.Debug? && duration.Some? then Some(now + duration.value) else None
  }

  /** `start`: publish the profile, subscribe (which delivers at once), schedule for the current snapshot. */
  function StartStep(c: Controller, now: int): Controller {
    if c.started || c.stopped then c
    else
      var deadline := DebugDeadline(c.profile, c.duration, now);
      var published := WithProfile(c.(started := true), deadline, now);
      var subscribed := OnSnapshot(published.(subscribed := !published.source.closed), published.source.snapshot);
      ScheduleFor(subscribed, subscribed.source.snapshot)
  }

  function StopStep(c: Controller): Controller {
    if c.stopped then c
    else CancelInterval(c.(stopped := true, generation := c.generation + 1)).(subscribed := false)
  }

  function ExpireDebug(c: Controller, now: int): Controller {
    var restored := if c.before.Debug? then Detailed else c.before;
    WithProfile(CancelInterval(c.(profile := restored, generation := c.generation + 1)), None, now)
  }

  /** `_on_tick` of the interval that carries `generation`. */
  function TickStep(c: Controller, generation: nat, now: int): Controller {
    if c.stopped || generation != c.generation then c
    else if c.profile.Debug? && c.source.snapshot.base.debugDeadline.Some?
            && now >= c.source.snapshot.base.debugDeadline.value then ExpireDebug(c, now)
    else
      var source := RefreshStep(c.source, now);
      ScheduleFor(c.(source := source), source.snapshot)
  }

  datatype Event =
    | StartController(now: int)
    | StopController
    | OtherUpdate(update: Op)               // with or without a trace record, raising or not
    | Delivered(snapshot: Snapshot)         // late, from an update nested in another subscriber
    | Tick(generation: nat, now: int)       // from any interval ever installed, live or replaced
    | CloseSource                           // the host closes the source after stopping the controller

  function Apply(c: Controller, e: Event): Controller {
    match e
    case StartController(now) => StartStep(c, now)
    case StopController => StopStep(c)
    case OtherUpdate(update) => if update.Update? then SourceUpdate(c, update) else c
    case Delivered(snapshot) => if c.subscribed then OnSnapshot(c, snapshot) else c
    case Tick(generation, now) => if generation in c.issued then TickStep(c, generation, now) else c
    case CloseSource => if c.stopped then c.(source := c.source.(closed := true)) else c
  }

  function Run(c: Controller, events: seq<Event>): Controller
    decreases |events|
  {
    if events == [] then c else Run(Apply(c, events[0]), events[1..])
  }

  /** The condition the interval tracks. */
  predicate Wants(c: Controller) {
    && c.started && !c.stopped && !c.profile.Basic?
    && c.handled.Some? && ActiveCountdowns(c.handled.value) != []
  }

  /** The controller's bookkeeping of its interval. */
  predicate Owned(c: Controller) {
    && c.live == (if c.handle.Some? then {c.handle.value} else {})
    && (c.handle.Some? ==> c.handle.value == c.generation && c.generation in c.issued)
    && (c.handle.Some? <==> c.installed.Some?)
    && (forall g <- c.issued :: g <= c.generation)
    && (c.generation in c.issued ==> c.handle == Some(c.generation))
    && (c.stopped ==> c.handle.None?)
  }

  predicate Tracks(c: Controller) {
    c.installed == if Wants(c) then Cadence(c.profile) else None
  }

  predicate Lifecycle(c: Controller) {
    && (!c.started ==> c.handled.None? && c.handle.None? && !c.subscribed)
    && (c.subscribed ==> c.started && !c.stopped)
    && (!c.stopped ==> !c.source.closed)
    && (c.started && !c.stopped ==> c.subscribed && c.handled.Some?)
  }

  predicate Inv(c: Controller) {
    Owned(c) && Tracks(c) && Lifecycle(c)
  }

  lemma CancelKeepsOwned(c: Controller)
    requires Owned(c)
    ensures Owned(CancelInterval(c.(generation := c.generation + 1)))
    ensures CancelInterval(c.(generation := c.generation + 1)).generation !in c.issued
  {}

  lemma ScheduleKeepsOwned(c: Controller, s: Snapshot)
    requires Owned(c) && !c.stopped
    ensures Owned(ScheduleFor(c, s))
  {
    CancelKeepsOwned(c.(handled := Some(s)));
  }

  /** Whatever was installed before, scheduling for a snapshot leaves exactly what the condition asks for. */
  lemma ScheduleTracks(c: Controller, s: Snapshot)
    requires Owned(c) && c.started && !c.stopped
    ensures Owned(ScheduleFor(c, s)) && Tracks(ScheduleFor(c, s))
    ensures ScheduleFor(c, s) == c.(handled := Some(s), live := ScheduleFor(c, s).live,
                issued := ScheduleFor(c, s).issued,
              handle := ScheduleFor(c, s).handle, installed := ScheduleFor(c, s).installed,
              generation := ScheduleFor(c, s).generation)
  {
    ScheduleKeepsOwned(c, s);
  }

  lemma UpdateKeepsInv(c: Controller, u: Op)
    requires Inv(c) && u.Update?
    ensures Inv(SourceUpdate(c, u))
  {
    hide WithElapsed, WithDecision, ActiveCountdowns;
    var t := c.(source := UpdateStep(c.source, u.now, u.base, u.passed, u.given, u.record, u.valid));
    assert Owned(t) && Tracks(t);
    if c.subscribed {
      ScheduleTracks(t, t.source.snapshot);
    }
  }

  /** The re-entrant update of a Debug expiry installs what the restored profile asks for. */
  lemma ExpireKeepsInv(c: Controller, now: int)
    requires Inv(c) && c.started && !c.stopped
    ensures Inv(ExpireDebug(c, now))
    ensures !ExpireDebug(c, now).profile.Debug?
  {
    hide WithElapsed, ActiveCountdowns;
    var restored := if c.before.Debug? then Detailed else c.before;
    CancelKeepsOwned(c.(profile := restored));
    var k := CancelInterval(c.(profile := restored, generation := c.generation + 1));
    var u := ProfileUpdate(c.source.snapshot, None, now);
    var source := UpdateStep(ResizeStep(c.source, TraceLimit(restored)), now, u.base, u.passed, {}, None, true);
    ScheduleTracks(k.(source := source), source.snapshot);
    assert ExpireDebug(c, now) == ScheduleFor(k.(source := source), source.snapshot);
  }

  lemma TickKeepsInv(c: Controller, generation: nat, now: int)
    requires Inv(c) && generation in c.issued
    ensures Inv(TickStep(c, generation, now))
  {
    if !c.stopped && generation == c.generation {
      assert c.started;
      if c.profile.Debug? && c.source.snapshot.base.debugDeadline.Some?
         && now >= c.source.snapshot.base.debugDeadline.value {
        ExpireKeepsInv(c, now);
      } else {
        var t := c.(source := RefreshStep(c.source, now));
        ScheduleTracks(t, t.source.snapshot);
      }
    }
  }

  lemma StartKeepsInv(c: Controller, now: int)
    requires Inv(c)
    ensures Inv(StartStep(c, now))
  {
    if !c.started && !c.stopped {
      var deadline := DebugDeadline(c.profile, c.duration, now);
      var p := WithProfile(c.(started := true), deadline, now);
      assert p == c.(started := true, source := p.source) && !p.source.closed;
      var q := p.(subscribed := true);
      ScheduleTracks(q, q.source.snapshot);
      var r := ScheduleFor(q, q.source.snapshot);
      ScheduleTracks(r, r.source.snapshot);
      assert StartStep(c, now) == ScheduleFor(r, r.source.snapshot);
    }
  }

  lemma StopKeepsInv(c: Controller)
    requires Inv(c)
    ensures Inv(StopStep(c))
  {
    if !c.stopped {
      CancelKeepsOwned(c.(stopped := false));
      assert StopStep(c).handle.None? && StopStep(c).live == {};
    }
  }

  lemma ApplyKeepsInv(c: Controller, e: Event)
    requires Inv(c)
    ensures Inv(Apply(c, e))
  {
    match e
    case StartController(now) => StartKeepsInv(c, now);
    case StopController => StopKeepsInv(c);
    case OtherUpdate(update) =>
      if update.Update? {
        UpdateKeepsInv(c, update);
      }
    case Delivered(snapshot) =>
      if c.subscribed {
        ScheduleTracks(c, snapshot);
      }
    case Tick(generation, now) =>
      if generation in c.issued {
        TickKeepsInv(c, generation, now);
      }
    case CloseSource =>
  }

  lemma {:induction false} RunKeepsInv(c: Controller, events: seq<Event>)
    requires Inv(c)
    ensures Inv(Run(c, events))
    decreases |events|
  {
    if events != [] {
      ApplyKeepsInv(c, events[0]);
      RunKeepsInv(Apply(c, events[0]), events[1..]);
    }
  }

  /** In every run there is one live interval exactly when the controller is started and not stopped, its
      profile has a cadence and the last handled snapshot an active countdown; otherwise none. The live
      interval runs at the profile's cadence and carries the current generation. */
  lemma {:induction false} OneIntervalExactlyWhenWanted(
    profile: Profile, before: Profile, duration: Option<int>, source: Source, events: seq<Event>)
    requires !source.closed
    ensures var c := Run(Fresh(profile, before, duration, source), events);
      && c.live == (if Wants(c) then {c.generation} else {})
      && c.installed == (if !Wants(c) then None else Some(if c.profile.Debug? then 1_000_000 else 10_000_000))
  {
    RunKeepsInv(Fresh(profile, before, duration, source), events);
  }

  /** A tick of an interval that was replaced or cancelled changes nothing, in every reachable state. */
  lemma {:induction false} StaleTicksChangeNothing(
    profile: Profile, before: Profile, duration: Option<int>, source: Source, events: seq<Event>, g: nat, now: int)
    requires !source.closed
    ensures var c := Run(Fresh(profile, before, duration, source), events);
      g !in c.live ==> Apply(c, Tick(g, now)) == c
  {
    RunKeepsInv(Fresh(profile, before, duration, source), events);
  }

  predicate PastDebug(c: Controller, now: int) {
    c.profile.Debug? && c.source.snapshot.base.debugDeadline.Some? && now >= c.source.snapshot.base.debugDeadline.value
  }

  /** A live tick at or after the Debug deadline leaves Debug for the profile before it, or for Detailed if that was
      Debug too, and takes the deadline back; any other live tick leaves profile and base fields alone and brings
      the derived fields up to date. */
  lemma LiveTickExpiresDebug(c: Controller, now: int)
    requires Inv(c) && Wants(c)
    ensures var t := Apply(c, Tick(c.generation, now));
      if PastDebug(c, now) then
        && t.profile == (if c.before.Basic? then Basic else Detailed)
        && t.source.snapshot.base == c.source.snapshot.base.(debugDeadline := None)
        && t.source.snapshot.revision == c.source.snapshot.revision + 1
      else
        && t.profile == c.profile
        && t.source.snapshot == c.source.snapshot.(derived := Recomputed(c.source.snapshot.base, now))
  {
    hide ActiveCountdowns, WithElapsed, Recomputed, ResizeStep;
    ElapsedForgets(c.source.snapshot, now);
    if PastDebug(c, now) {
      ExpireKeepsInv(c, now);
      ExpiryPublishes(c, now);
    } else {
      ScheduleKeepsSource(c.(source := RefreshStep(c.source, now)), RefreshStep(c.source, now).snapshot);
    }
  }

  /** Scheduling touches the interval only. */
  lemma ScheduleKeepsSource(c: Controller, s: Snapshot)
    ensures var t := ScheduleFor(c, s);
      t.source == c.source && t.profile == c.profile && t.started == c.started && t.stopped == c.stopped
      && t.subscribed == c.subscribed && t.before == c.before && t.duration == c.duration && t.handled == Some(s)
  {}

  /** Publishing a profile sets the trace limit and the Debug deadline, and nothing else that callers set. */
  lemma ProfileIsPublished(c: Controller, debugDeadline: Option<int>, now: int)
    requires !c.source.closed
    ensures var t := WithProfile(c, debugDeadline, now);
      && t.profile == c.profile && t.started == c.started && t.stopped == c.stopped && t.subscribed == c.subscribed
      && t.source.capacity == TraceLimit(c.profile) && !t.source.closed
      && t.source.snapshot.base == c.source.snapshot.base.(debugDeadline := debugDeadline)
      && t.source.snapshot.revision == c.source.snapshot.revision + 1
  {
    hide ScheduleFor, WithElapsed;
    var resized := ResizeStep(c.source, TraceLimit(c.profile));
    var u := ProfileUpdate(c.source.snapshot, debugDeadline, now);
    var source := UpdateStep(resized, now, u.base, u.passed, {}, None, true);
    ResizedOnly(c.source, TraceLimit(c.profile));
    ElapsedForgets(Snapshot(resized.snapshot.revision + 1, now, u.base, u.passed), now);
    ScheduleKeepsSource(c.(source := resized).(source := source), source.snapshot);
  }

  lemma ResizedOnly(s: Source, capacity: nat)
    requires !s.closed && capacity > 0
    ensures var t := ResizeStep(s, capacity);
      t.capacity == capacity && t.snapshot == s.snapshot && t.closed == s.closed && t.clock == s.clock
  {}

  lemma ExpiryPublishes(c: Controller, now: int)
    requires !c.source.closed
    ensures var t := ExpireDebug(c, now);
      && t.profile == (if c.before.Basic? then Basic else Detailed)
      && t.source.capacity == TraceLimit(t.profile)
      && t.source.snapshot.base == c.source.snapshot.base.(debugDeadline := None)
      && t.source.snapshot.revision == c.source.snapshot.revision + 1
  {
    hide WithProfile;
    var restored := if c.before.Debug? then Detailed else c.before;
    ProfileIsPublished(CancelInterval(c.(profile := restored, generation := c.generation + 1)), None, now);
  }

  /** The start publishes the profile: its trace limit, and the deadline of a Debug session that has a duration, counted
      from now. It subscribes and has handled the snapshot it published. */
  lemma StartPublishes(c: Controller, now: int)
    requires Inv(c) && !c.started && !c.stopped
    ensures var t := Apply(c, StartController(now));
      && t.started && t.subscribed && t.handled == Some(t.source.snapshot) && t.profile == c.profile
      && t.source.capacity == (match c.profile case Basic => 20 case Detailed => 100 case Debug => 500)
      && t.source.snapshot.base == c.source.snapshot.base.(
           debugDeadline := if c.profile.Debug? && c.duration.Some? then Some(now + c.duration.value) else None)
  {
    hide ScheduleFor, WithProfile, WithElapsed;
    var p := WithProfile(c.(started := true), DebugDeadline(c.profile, c.duration, now), now);
    ProfileIsPublished(c.(started := true), DebugDeadline(c.profile, c.duration, now), now);
    var q := p.(subscribed := true);
    ScheduleKeepsSource(q, q.source.snapshot);
    ScheduleKeepsSource(ScheduleFor(q, q.source.snapshot), q.source.snapshot);
  }

  /** The step gives the controller a snapshot: its start, an effective update or a late delivery while it is at work,
      or a tick of its live interval. */
  predicate Gives(c: Controller, e: Event) {
    match e
    case StartController(_) => !c.started && !c.stopped
    case OtherUpdate(update) => update.Update? && update.valid && c.started && !c.stopped
    case Delivered(_) => c.started && !c.stopped
    case Tick(generation, _) => generation in c.live
    case _ => false
  }

  /** In every run the snapshot the interval is scheduled for is the one the controller was given last: the current one
      of its source, or the one that was delivered late. */
  lemma {:induction false} HandlesWhatItIsGiven(
    profile: Profile, before: Profile, duration: Option<int>, source: Source, events: seq<Event>, e: Event)
    requires !source.closed
    ensures var c := Run(Fresh(profile, before, duration, source), events);
      var t := Apply(c, e);
      t.handled == if !Gives(c, e) then c.handled
                   else Some(if e.Delivered? then e.snapshot else t.source.snapshot)
  {
    hide Inv, Run, Apply, Gives;
    RunKeepsInv(Fresh(profile, before, duration, source), events);
    StepHandles(Run(Fresh(profile, before, duration, source), events), e);
  }

  lemma StepHandles(c: Controller, e: Event)
    requires Inv(c)
    ensures Apply(c, e).handled == if !Gives(c, e) then c.handled
                                   else Some(if e.Delivered? then e.snapshot else Apply(c, e).source.snapshot)
  {
    hide ScheduleFor, WithProfile, WithElapsed, WithDecision;
    match e
    case StartController(now) => if !c.started && !c.stopped { StartPublishes(c, now); }
    case OtherUpdate(u) =>
      if u.Update? {
        var source := UpdateStep(c.source, u.now, u.base, u.passed, u.given, u.record, u.valid);
        ScheduleKeepsSource(c.(source := source), source.snapshot);
      }
    case Delivered(snapshot) => ScheduleKeepsSource(c, snapshot);
    case Tick(generation, now) =>
      if generation in c.live {
        ExpiryHandles(c, now);
        ScheduleKeepsSource(c.(source := RefreshStep(c.source, now)), RefreshStep(c.source, now).snapshot);
      }
    case _ =>
  }

  lemma ExpiryHandles(c: Controller, now: int)
    requires Inv(c) && c.subscribed && !c.stopped
    ensures ExpireDebug(c, now).handled == Some(ExpireDebug(c, now).source.snapshot)
  {
    hide ScheduleFor, WithElapsed;
    var restored := if c.before.Debug? then Detailed else c.before;
    var k := CancelInterval(c.(profile := restored, generation := c.generation + 1));
    var u := ProfileUpdate(c.source.snapshot, None, now);
    var resized := ResizeStep(c.source, TraceLimit(restored));
    ResizedOnly(c.source, TraceLimit(restored));
    var source := UpdateStep(resized, now, u.base, u.passed, {}, None, true);
    ScheduleKeepsSource(k.(source := source), source.snapshot);
    assert ExpireDebug(c, now) == ScheduleFor(k.(source := source), source.snapshot);
  }

  predicate Silent(c: Controller) {
    c.stopped && !c.subscribed && c.live == {}
  }

  lemma SilentStays(c: Controller, e: Event)
    requires Inv(c) && Silent(c)
    ensures var t := Apply(c, e); Silent(t) && t.profile == c.profile && t.handled == c.handled
  {
    hide WithElapsed, WithDecision, ActiveCountdowns;
  }

  lemma {:induction false} StaysSilent(c: Controller, later: seq<Event>)
    requires Inv(c) && Silent(c)
    ensures var t := Run(c, later); Silent(t) && t.profile == c.profile && t.handled == c.handled
    decreases |later|
  {
    hide Inv, Apply, Silent;
    if later != [] {
      SilentStays(c, later[0]);
      ApplyKeepsInv(c, later[0]);
      StaysSilent(Apply(c, later[0]), later[1..]);
    }
  }

  /** Once stopped the controller has no interval and no subscription, and whatever comes it takes nothing in. */
  lemma {:induction false} StoppedForGood(
    profile: Profile, before: Profile, duration: Option<int>, source: Source, events: seq<Event>, later: seq<Event>)
    requires !source.closed
    ensures var c := Run(Fresh(profile, before, duration, source), events);
      var t := Run(Apply(c, StopController), later);
      Silent(t) && t.profile == c.profile && t.handled == c.handled
  {
    hide Run;
    var c := Run(Fresh(profile, before, duration, source), events);
    RunKeepsInv(Fresh(profile, before, duration, source), events);
    ApplyKeepsInv(c, StopController);
    StaysSilent(Apply(c, StopController), later);
  }

  // ----- the trace limit

  predicate Sized(c: Controller) {
    c.started && !c.stopped ==>
      c.source.capacity == (match c.profile case Basic => 20 case Detailed => 100 case Debug => 500)
  }

  lemma UpdateKeepsCapacity(c: Controller, u: Op)
    requires u.Update?
    ensures var t := SourceUpdate(c, u);
      t.source.capacity == c.source.capacity && t.profile == c.profile
      && t.started == c.started && t.stopped == c.stopped
  {
    hide ScheduleFor, WithElapsed, WithDecision;
    var source := UpdateStep(c.source, u.now, u.base, u.passed, u.given, u.record, u.valid);
    ScheduleKeepsSource(c.(source := source), source.snapshot);
  }

  lemma StepKeepsSized(c: Controller, e: Event)
    requires Inv(c) && Sized(c)
    ensures Sized(Apply(c, e))
  {
    hide ScheduleFor, SourceUpdate, WithProfile, WithElapsed, ExpireDebug;
    match e
    case StartController(now) => if !c.started && !c.stopped { StartPublishes(c, now); }
    case OtherUpdate(update) => if update.Update? { UpdateKeepsCapacity(c, update); }
    case Delivered(snapshot) => ScheduleKeepsSource(c, snapshot);
    case Tick(generation, now) =>
      if !c.stopped {
        ExpiryPublishes(c, now);
        ScheduleKeepsSource(c.(source := RefreshStep(c.source, now)), RefreshStep(c.source, now).snapshot);
      }
    case _ =>
  }

  lemma {:induction false} RunKeepsSized(c: Controller, events: seq<Event>)
    requires Inv(c) && Sized(c)
    ensures Sized(Run(c, events))
    decreases |events|
  {
    hide Inv, Sized, Apply;
    if events != [] {
      StepKeepsSized(c, events[0]);
      ApplyKeepsInv(c, events[0]);
      RunKeepsSized(Apply(c, events[0]), events[1..]);
    }
  }

  /** In every run, while the controller is at work the trace is limited as its profile says, whatever has changed the
      profile. */
  lemma {:induction false} TraceLimitFollowsTheProfile(
    profile: Profile, before: Profile, duration: Option<int>, source: Source, events: seq<Event>)
    requires !source.closed
    ensures Sized(Run(Fresh(profile, before, duration, source), events))
  {
    RunKeepsSized(Fresh(profile, before, duration, source), events);
  }

  /** Once the Debug deadline has passed, some tick leaves Debug exactly if a countdown is active in the snapshot
      handled last: without one there is no live interval, and no tick of a replaced one does anything. */
  lemma {:induction false} DebugEndsExactlyWhileCountingDown(
    profile: Profile, before: Profile, duration: Option<int>, source: Source, events: seq<Event>, now: int)
    requires !source.closed
    requires var c := Run(Fresh(profile, before, duration, source), events);
      && c.started && !c.stopped && c.profile.Debug?
      && c.source.snapshot.base.debugDeadline.Some? && c.source.snapshot.base.debugDeadline.value <= now
    ensures var c := Run(Fresh(profile, before, duration, source), events);
      && c.handled.Some?
      && ((exists g :: !Apply(c, Tick(g, now)).profile.Debug?) <==> ActiveCountdowns(c.handled.value) != [])
  {
    hide Run, ExpireDebug, ActiveCountdowns, ScheduleFor;
    var c := Run(Fresh(profile, before, duration, source), events);
    RunKeepsInv(Fresh(profile, before, duration, source), events);
    if ActiveCountdowns(c.handled.value) != [] {
      LiveTickExpiresDebug(c, now);
    } else {
      forall g ensures Apply(c, Tick(g, now)) == c {
        assert !Wants(c);
      }
    }
  }

  /** So Debug need not expire by itself: an ordinary update stamped at or after the deadline, if no other
      countdown is active, cancels the interval that would have expired it. */
  lemma LateUpdateStrandsDebug(c: Controller, u: Op, g: nat, later: int)
    requires Inv(c) && c.started && !c.stopped && c.profile.Debug? && u.Update? && u.valid
    requires u.base.debugDeadline.Some? && u.base.debugDeadline.value <= u.now
    requires ActiveCountdowns(Snapshot(0, 0, BaseOf(u), Recomputed(BaseOf(u), u.now))) == []
    ensures var t := Apply(c, OtherUpdate(u));
      t.live == {} && t.profile.Debug? && Apply(t, Tick(g, later)) == t
  {
    hide ActiveCountdowns, ScheduleFor, ExpireDebug, WithElapsed, WithDecision, Recomputed;
    UpdateIsHandled(c, u);
    UpdateKeepsInv(c, u);
  }

  /** A later update with an active countdown installs an interval again, and its tick leaves Debug. */
  lemma LaterUpdateRevivesTheInterval(c: Controller, u: Op, tick: int)
    requires Inv(c) && c.started && !c.stopped && c.profile.Debug? && u.Update? && u.valid
    requires u.base.debugDeadline.Some? && u.base.debugDeadline.value <= tick
    requires ActiveCountdowns(Snapshot(0, 0, BaseOf(u), Recomputed(BaseOf(u), u.now))) != []
    ensures var t := Apply(c, OtherUpdate(u));
      t.live == {t.generation} && !Apply(t, Tick(t.generation, tick)).profile.Debug?
  {
    hide ActiveCountdowns, ScheduleFor, ExpireDebug, WithElapsed, Recomputed;
    UpdateIsHandled(c, u);
    UpdateKeepsInv(c, u);
    LiveTickExpiresDebug(Apply(c, OtherUpdate(u)), tick);
  }

  /** A started controller has handled the snapshot of an update, with what is recomputed for it. */
  lemma UpdateIsHandled(c: Controller, u: Op)
    requires Inv(c) && c.started && !c.stopped && u.Update? && u.valid
    ensures var t := Apply(c, OtherUpdate(u));
      && t == SourceUpdate(c, u) && t.source.snapshot.base == BaseOf(u)
      && t.started && !t.stopped && t.profile == c.profile && t.handled.Some?
      && ActiveCountdowns(t.handled.value) == ActiveCountdowns(Snapshot(0, 0, BaseOf(u), Recomputed(BaseOf(u), u.now)))
  {
    hide ActiveCountdowns, Desired, WithElapsed, WithDecision, Recomputed;
    var s := Snapshot(c.source.snapshot.revision + 1, u.now, BaseOf(u), u.passed);
    ElapsedForgets(s, u.now);
    var source := UpdateStep(c.source, u.now, u.base, u.passed, u.given, u.record, u.valid);
    ScheduleTracks(c.(source := source), source.snapshot);
    assert source.snapshot == WithElapsed(s, u.now);
    SameCountdowns(source.snapshot);
  }

  /** Why the host stops the controller before it closes the source: on a closed source a Debug expiry into
      Detailed would lose the interval although a countdown is still active. The host's order excludes it. */
  lemma ClosedSourceLosesTheInterval(c: Controller, now: int)
    requires Inv(c) && Wants(c) && c.profile.Debug? && !c.before.Basic?
    ensures var t := ExpireDebug(c.(source := c.source.(closed := true)), now);
      Wants(t) && t.live == {}
  {}

  /** `ObservabilityController`. `intervals` are Home Assistant's live intervals, `token` the controller's own
      subscription; `issued` and `handled` only observe. */
  class ObservabilityController {
    const source: OperationalSnapshotSource
    const before: Profile
    const duration: Option<int>
    var profile: Profile
    var intervals: set<nat>
    var unsubscribeInterval: Option<nat>
    var installedCadence: Option<int>
    var generation: nat
    var started: bool
    var stopped: bool
    var token: Option<nat>
    ghost var issued: set<nat>
    ghost var handled: Option<Snapshot>

    ghost function View(): Controller
      reads this, source
    {
      Controller(profile, before, duration, intervals, issued, unsubscribeInterval, installedCadence, generation,
                 started, stopped, token.Some?, handled, source.View())
    }

    ghost predicate Valid()
      reads this, source
    {
      && source.Valid()
      && (token.Some? ==> token.value in source.subscribers)
      && (!source.closed || token.None?)
    }

    constructor (source: OperationalSnapshotSource, profile: Profile, before: Profile, duration: Option<int>)
      requires source.Valid()
      ensures this.source == source && Valid()
      ensures View() == Fresh(profile, before, duration, source.View())
    {
      this.source, this.before, this.duration, this.profile := source, before, duration, profile;
      intervals, unsubscribeInterval, installedCadence, generation := {}, None, None, 0;
      started, stopped, token := false, false, None;
      issued, handled := {}, None;
    }

    method Cancel()
      modifies this`intervals, this`unsubscribeInterval, this`installedCadence
      ensures View() == CancelInterval(old(View()))
    {
      var unsubscribe := unsubscribeInterval;
      unsubscribeInterval, installedCadence := None, None;
      if unsubscribe.Some? {
        intervals := intervals - {unsubscribe.value};
      }
    }

    /** `_schedule_for`. */
    method Schedule(snapshot: Snapshot)
      modifies this`intervals, this`unsubscribeInterval, this`installedCadence,
               this`generation, this`issued, this`handled
      ensures View() == ScheduleFor(old(View()), snapshot)
    {
      hide ActiveCountdowns, CancelInterval, Install;
      handled := Some(snapshot);
      var desired := if Cadence(profile).Some? && ActiveCountdowns(snapshot) != [] then Cadence(profile) else None;
      if desired == installedCadence {
        return;
      }
      generation := generation + 1;
      Cancel();
      InstallInterval(desired);
    }

    method InstallInterval(desired: Option<int>)
      modifies this`intervals, this`unsubscribeInterval, this`installedCadence, this`issued
      ensures View() == Install(old(View()), desired)
    {
      if desired.None? || stopped {
        return;
      }
      intervals, issued := intervals + {generation}, issued + {generation};
      unsubscribeInterval, installedCadence := Some(generation), desired;
    }

    method Receive(snapshot: Snapshot)
      modifies this`intervals, this`unsubscribeInterval, this`installedCadence,
               this`generation, this`issued, this`handled
      ensures View() == OnSnapshot(old(View()), snapshot)
    {
      if stopped {
        return;
      }
      Schedule(snapshot);
    }

    /** An update of the source by anyone; the controller's own callback runs inside it. */
    method Update(u: Op)
      requires Valid() && u.Update?
      modifies this`intervals, this`unsubscribeInterval, this`installedCadence,
               this`generation, this`issued, this`handled
      modifies source
      ensures Valid() && source.subscribers == old(source.subscribers)
      ensures View() == SourceUpdate(old(View()), u)
    {
      hide WithElapsed, WithDecision;
      var _, recipients := source.Update(u.now, u.base, u.passed, u.given, u.record, u.valid);
      ghost var updated := View();
      assert updated == old(View()).(source := source.View());
      if token.Some? && token.value in recipients {
        Receive(source.snapshot);
      }
    }

    /** `start` and the Debug expiry publish the profile the same way. */
    method PublishProfile(debugDeadline: Option<int>, now: int)
      requires Valid()
      modifies this`intervals, this`unsubscribeInterval, this`installedCadence,
               this`generation, this`issued, this`handled
      modifies source
      ensures Valid() && source.subscribers == old(source.subscribers)
      ensures View() == WithProfile(old(View()), debugDeadline, now)
    {
      var u := ProfileUpdate(source.snapshot, debugDeadline, now);
      var accepted := source.SetTraceCapacity(TraceLimit(profile));
      assert View() == old(View()).(source := source.View());
      Update(u);
    }

    /** The controller's own subscription: an open source keeps it, and the current snapshot comes at once. */
    method SubscribeToSource()
      requires Valid() && token.None?
      modifies this, source
      ensures Valid()
      ensures View() == OnSnapshot(old(View()).(subscribed := !old(View()).source.closed), old(View()).source.snapshot)
    {
      var delivered;
      token, delivered := source.Subscribe(false);
      Receive(delivered);
    }

    method BeginOwnership(now: int)
      requires Valid()
      modifies this, source
      ensures Valid() && token == old(token)
      ensures View() == WithProfile(old(View()).(started := true), DebugDeadline(profile, duration, now), now)
    {
      started := true;
      PublishProfile(DebugDeadline(profile, duration, now), now);
    }

    /** `start`. */
    method StartController(now: int)
      requires Valid() && token.None?
      modifies this, source
      ensures Valid() && View() == StartStep(old(View()), now)
    {
      if started || stopped {
        return;
      }
      BeginOwnership(now);
      SubscribeToSource();
      Schedule(source.snapshot);
    }

    /** `stop`. */
    method StopController()
      requires Valid()
      modifies this, source
      ensures Valid() && View() == StopStep(old(View()))
      ensures source.subscribers ==
              if !old(stopped) && old(token).Some? then old(source.subscribers) - {old(token).value}
              else old(source.subscribers)
    {
      if stopped {
        return;
      }
      stopped, generation := true, generation + 1;
      Cancel();
      if token.Some? {
        source.Unsubscribe(token.value);
        token := None;
      }
    }

    method LeaveDebug()
      modifies this
      ensures View() == CancelInterval(old(View()).(
                profile := if before.Debug? then Detailed else before, generation := old(generation) + 1))
      ensures token == old(token)
    {
      profile := if before.Basic? || before.Detailed? then before else Detailed;
      generation := generation + 1;
      Cancel();
    }

    /** `_expire_debug`. */
    method Expire(now: int)
      requires Valid()
      modifies this, source
      ensures Valid() && View() == ExpireDebug(old(View()), now)
    {
      hide WithProfile, CancelInterval;
      LeaveDebug();
      PublishProfile(None, now);
    }

    /** `_on_tick`. */
    method OnTick(tickGeneration: nat, now: int)
      requires Valid()
      modifies this, source
      ensures Valid() && View() == TickStep(old(View()), tickGeneration, now)
    {
      if stopped || tickGeneration != generation {
        return;
      }
      var deadline := source.snapshot.base.debugDeadline;
      if profile.Debug? && deadline.Some? && now >= deadline.value {
        Expire(now);
        return;
      }
      var recipients := source.RefreshElapsed(now);
      assert View() == old(View()).(source := source.View());
      Schedule(source.snapshot);
    }
  }
}
