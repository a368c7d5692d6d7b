/** The owner of one config entry's Water Safety hosts. Code between two awaits is one step; any number of
    coroutines stop, retry, register and promote hosts, and hosts finish their own shutdown at any moment. */
module Lifecycle {

  import opened Wrappers

  /** The owner's recorded removed-entry continuation. */
  datatype Completion = NoTask | Running | Cancelled | Ended

  /** `known` are the hosts ever registered, `stopped` those whose shutdown completed, `inRegistry` that the
      owner is reachable from its entry, `removing` that the entry's removal asked for
      completion and no continuation has seen the owner released since, `continuations` the ones at work. */
  datatype State<H(==)> = State(
    active: Option<H>, pending: seq<H>, stopped: set<H>, known: set<H>,
    inRegistry: bool, completion: Completion, continuations: int, removing: bool, haStopping: bool)

  function Start<H(==)>(): State<H> {
    State(None, [], {}, {}, true, NoTask, 0, false, false)
  }

  datatype Event<H> =
    | Prune
    | Register(host: H)
    | MarkActive(host: H)
    | BeginStop(host: H)            // `async_stop_host` up to its await
    | FinishStop(host: H)           // its `finally` clause
    | HostStops(host: H)
    | DropOwner
    | EnsureCompletion
    | CompletionReturns             // the continuation saw the owner released
    | CompletionFails(cancelling: bool)
    | HomeAssistantStops

  function Unstopped<H>(hosts: seq<H>, stopped: set<H>): (r: seq<H>)
    ensures |r| <= |hosts|
    ensures forall h <- r :: h in hosts && h !in stopped
    ensures forall h <- hosts :: h !in stopped ==> h in r
  {
    if hosts == [] then []
    else if hosts[0] in stopped then Unstopped(hosts[1..], stopped)
    else [hosts[0]] + Unstopped(hosts[1..], stopped)
  }

  lemma NoneUnstopped<H>(hosts: seq<H>, stopped: set<H>)
    requires hosts == []
    ensures Unstopped(hosts, stopped) == []
  {}

  lemma UnstoppedFrom<H>(hosts: seq<H>, i: nat, stopped: set<H>)
    requires i < |hosts|
    ensures Unstopped(hosts[i..], stopped) ==
            (if hosts[i] in stopped then [] else [hosts[i]]) + Unstopped(hosts[i + 1..], stopped)
  {
    assert hosts[i..][0] == hosts[i] && hosts[i..][1..] == hosts[i + 1..];
  }

  /** `list.remove`: the first occurrence goes. */
  function Without<H(==)>(hosts: seq<H>, h: H): (r: seq<H>)
    ensures h in hosts ==> |r| == |hosts| - 1
    ensures h !in hosts ==> r == hosts
  {
    if hosts == [] then []
    else if hosts[0] == h then hosts[1..]
    else [hosts[0]] + Without(hosts[1..], h)
  }

  predicate Free<H>(s: State<H>) {
    s.active.None? && s.pending == []
  }

  function Pruned<H>(s: State<H>): State<H> {
    s.(active := if s.active.Some? && s.active.value in s.stopped then None else s.active,
       pending := Unstopped(s.pending, s.stopped))
  }

  function RegisterStep<H>(s: State<H>, host: H): State<H> {
    var p := Pruned(s);
    if !Free(p) then p else p.(pending := [host], known := p.known + {host})
  }

  function MarkActiveStep<H>(s: State<H>, host: H): State<H> {
    if host !in s.pending then s else s.(pending := Without(s.pending, host), active := Some(host))
  }

  /** Callers only stop hosts they registered. */
  function BeginStopStep<H>(s: State<H>, host: H): State<H> {
    if host !in s.known then s
    else s.(active := if s.active == Some(host) then None else s.active,
            pending := if host !in s.pending && host !in s.stopped then s.pending + [host] else s.pending)
  }

  function FinishStopStep<H>(s: State<H>, host: H): State<H> {
    if host !in s.stopped then s
    else s.(active := if s.active == Some(host) then None else s.active, pending := Without(s.pending, host))
  }

  function DropStep<H>(s: State<H>): State<H> {
    var p := Pruned(s);
    if Free(p) then p.(inRegistry := false) else p
  }

  function EnsureStep<H>(s: State<H>): State<H> {
    var p := Pruned(s);
    if Free(p) then p
    else if p.completion.Running? || p.completion.Cancelled? || p.haStopping then p.(removing := true)
    else p.(removing := true, completion := Running, continuations := p.continuations + 1)
  }

  /** The continuation returns only from an owner it has just pruned and found released, and drops it. */
  function CompletionReturnStep<H>(s: State<H>): State<H> {
    if !s.completion.Running? || !Free(Pruned(s)) then s
    else Pruned(s).(inRegistry := false, completion := NoTask, continuations := s.continuations - 1, removing := false)
  }

  function CompletionFailStep<H>(s: State<H>, cancelling: bool): State<H> {
    if !s.completion.Running? then s
    else
      var p := Pruned(s).(continuations := s.continuations - 1);
      if cancelling then p.(completion := Cancelled)
      else if Free(p) then p.(completion := Ended, removing := false)
      else if s.haStopping then p.(completion := Ended)
      else EnsureStep(p.(completion := NoTask))
  }

  function Apply<H>(s: State<H>, e: Event<H>): State<H> {
    match e
    case Prune => Pruned(s)
    case Register(host) => RegisterStep(s, host)
    case MarkActive(host) => MarkActiveStep(s, host)
    case BeginStop(host) => BeginStopStep(s, host)
    case FinishStop(host) => FinishStopStep(s, host)
    case HostStops(host) => s.(stopped := s.stopped + {host})
    case DropOwner => DropStep(s)
    case EnsureCompletion => EnsureStep(s)
    case CompletionReturns => CompletionReturnStep(s)
    case CompletionFails(cancelling) => CompletionFailStep(s, cancelling)
    case HomeAssistantStops => s.(haStopping := true)
  }

  function Run<H>(s: State<H>, events: seq<Event<H>>): State<H>
    decreases |events|
  {
    if events == [] then s else Run(Apply(s, events[0]), events[1..])
  }

  predicate Held<H(==)>(s: State<H>, h: H) {
    s.active == Some(h) || h in s.pending
  }

  /** The owner never holds two hosts, holds only registered ones, and holds every one still unstopped. */
  ghost predicate Sole<H>(s: State<H>) {
    && |s.pending| + (if s.active.Some? then 1 else 0) <= 1
    && (forall h <- s.pending :: h in s.known)
    && (s.active.Some? ==> s.active.value in s.known)
    && (forall h <- s.known :: h !in s.stopped ==> Held(s, h))
  }

  /** While a removed entry waits for its release a continuation is working on it, unless that was
      cancelled or Home Assistant is stopping. */
  predicate Attended<H>(s: State<H>) {
    && s.continuations == (if s.completion.Running? then 1 else 0)
    && (s.removing ==> s.completion.Running? || s.completion.Cancelled? || s.haStopping)
  }

  ghost predicate Inv<H>(s: State<H>) {
    Sole(s) && Attended(s)
  }

  lemma PruneKeepsSole<H>(s: State<H>)
    requires Sole(s)
    ensures Sole(Pruned(s))
    ensures Free(Pruned(s)) <==> s.known <= s.stopped
  {}

  lemma RegisterKeepsInv<H>(s: State<H>, host: H)
    requires Inv(s)
    ensures Inv(RegisterStep(s, host))
  {
    PruneKeepsSole(s);
  }

  lemma MarkKeepsInv<H>(s: State<H>, host: H)
    requires Inv(s)
    ensures Inv(MarkActiveStep(s, host))
  {}

  lemma BeginStopKeepsInv<H>(s: State<H>, host: H)
    requires Inv(s)
    ensures Inv(BeginStopStep(s, host))
  {}

  lemma FinishStopKeepsInv<H>(s: State<H>, host: H)
    requires Inv(s)
    ensures Inv(FinishStopStep(s, host))
  {}

  lemma HostStopsKeepsInv<H>(s: State<H>, host: H)
    requires Inv(s)
    ensures Inv(Apply(s, HostStops(host)))
  {}

  lemma PruningKeepsInv<H>(s: State<H>, e: Event<H>)
    requires Inv(s) && (e.Prune? || e.DropOwner? || e.EnsureCompletion?)
    ensures Inv(Apply(s, e))
  {
    PruneKeepsSole(s);
  }

  lemma CompletionReturnKeepsInv<H>(s: State<H>)
    requires Inv(s)
    ensures Inv(CompletionReturnStep(s))
  {
    PruneKeepsSole(s);
  }

  /** Asking for completion of a held host leaves a continuation, or a reason for having none. */
  lemma EnsureAttends<H>(s: State<H>)
    requires Sole(s) && !Free(Pruned(s)) && s.continuations == (if s.completion.Running? then 1 else 0)
    ensures Inv(EnsureStep(s))
  {
    PruneKeepsSole(s);
  }

  lemma CompletionFailKeepsInv<H>(s: State<H>, cancelling: bool)
    requires Inv(s)
    ensures Inv(CompletionFailStep(s, cancelling))
  {
    hide Sole, Pruned, EnsureStep;
    if s.completion.Running? {
      var p := Pruned(s).(continuations := s.continuations - 1);
      PruneKeepsSole(s);
      PrunedFrame(s);
      if !cancelling && !Free(p) && !s.haStopping {
        SoleFrame(Pruned(s), p.(completion := NoTask));
        PruneKeepsSole(p.(completion := NoTask));
        EnsureAttends(p.(completion := NoTask));
      } else {
        SoleFrame(Pruned(s), CompletionFailStep(s, cancelling));
      }
    }
  }

  lemma SoleFrame<H>(s: State<H>, t: State<H>)
    requires Sole(s) && t == s.(continuations := t.continuations, completion := t.completion, removing := t.removing)
    ensures Sole(t)
  {}

  lemma PrunedFrame<H>(s: State<H>)
    ensures Pruned(s) == s.(active := Pruned(s).active, pending := Pruned(s).pending)
  {}

  lemma ApplyKeepsInv<H>(s: State<H>, e: Event<H>)
    requires Inv(s)
    ensures Inv(Apply(s, e))
  {
    match e
    case Register(host) => RegisterKeepsInv(s, host);
    case MarkActive(host) => MarkKeepsInv(s, host);
    case BeginStop(host) => BeginStopKeepsInv(s, host);
    case FinishStop(host) => FinishStopKeepsInv(s, host);
    case HostStops(host) => HostStopsKeepsInv(s, host);
    case HomeAssistantStops =>
    case CompletionReturns => CompletionReturnKeepsInv(s);
    case CompletionFails(cancelling) => CompletionFailKeepsInv(s, cancelling);
    case _ => PruningKeepsInv(s, e);
  }

  lemma {:induction false} RunKeepsInv<H>(s: State<H>, events: seq<Event<H>>)
    requires Inv(s)
    ensures Inv(Run(s, events))
    decreases |events|
  {
    if events != [] {
      ApplyKeepsInv(s, events[0]);
      RunKeepsInv(Apply(s, events[0]), events[1..]);
    }
  }

  /** In every interleaving at most one registered host is unstopped, and it is either the active host or
      pending exactly once, never both. */
  lemma {:induction false} OneUnstoppedHost<H>(events: seq<Event<H>>)
    ensures var s := Run(Start<H>(), events);
      && (forall h <- s.known, k <- s.known :: h !in s.stopped && k !in s.stopped ==> h == k)
      && (forall h <- s.known :: h !in s.stopped ==> (s.active == Some(h) <==> h !in s.pending))
      && (forall h <- s.known :: h !in s.stopped ==> (h in s.pending <==> s.pending == [h]))
  {
    RunKeepsInv(Start<H>(), events);
  }

  /** A host is accepted for registration exactly when every host registered before it has stopped. */
  lemma {:induction false} RegistersIffAllStopped<H>(events: seq<Event<H>>, host: H)
    ensures var s := Run(Start<H>(), events);
      var t := Apply(s, Register(host));
      if s.known <= s.stopped then t.pending == [host] && t.active.None? && host in t.known else t == Pruned(s)
  {
    RunKeepsInv(Start<H>(), events);
    PruneKeepsSole(Run(Start<H>(), events));
  }

  /** In every reachable state a host that has not stopped changes its place only when it is asked to: promoted, it is
      the active host; asked to stop, it is the one pending; and at any other step it stays where it is. */
  lemma {:induction false} UnstoppedHostMovesOnlyWhenAsked<H>(events: seq<Event<H>>, e: Event<H>, host: H)
    requires host in Run(Start<H>(), events).known && host !in Run(Start<H>(), events).stopped
    ensures var s := Run(Start<H>(), events);
      var t := Apply(s, e);
      if e == MarkActive(host) then t.active == Some(host) && t.pending == []
      else if e == BeginStop(host) then t.active.None? && t.pending == [host]
      else t.active == s.active && t.pending == s.pending
  {
    RunKeepsInv(Start<H>(), events);
    SoleHolds(Run(Start<H>(), events), host);
    SoleHostMoves(Run(Start<H>(), events), e, host);
  }

  predicate Alone<H(==)>(s: State<H>, host: H) {
    (s.active == Some(host) && s.pending == []) || (s.active.None? && s.pending == [host])
  }

  lemma SoleHolds<H>(s: State<H>, host: H)
    requires Sole(s) && host in s.known && host !in s.stopped
    ensures Alone(s, host) && forall h <- s.known :: h != host ==> h in s.stopped
  {}

  lemma PruningKeepsAlone<H>(s: State<H>, host: H)
    requires Alone(s, host) && host !in s.stopped
    ensures Pruned(s) == s
  {}

  lemma SoleHostMoves<H>(s: State<H>, e: Event<H>, host: H)
    requires Alone(s, host) && host !in s.stopped && (forall h <- s.known :: h != host ==> h in s.stopped)
    requires host in s.known
    ensures var t := Apply(s, e);
      if e == MarkActive(host) then t.active == Some(host) && t.pending == []
      else if e == BeginStop(host) then t.active.None? && t.pending == [host]
      else t.active == s.active && t.pending == s.pending
  {
    hide Pruned;
    PruningKeepsAlone(s, host);
    PruningKeepsAlone(s.(continuations := s.continuations - 1, completion := NoTask), host);
    match e
    case MarkActive(h) =>
    case BeginStop(h) =>
    case FinishStop(h) =>
    case _ =>
  }

  /** A host that has stopped is let go by the end of its own stop and by any pruning, and never held again. */
  lemma {:induction false} StoppedHostIsLetGo<H>(events: seq<Event<H>>, host: H, later: seq<Event<H>>)
    requires host in Run(Start<H>(), events).stopped && Register(host) !in later
    ensures var s := Run(Start<H>(), events);
      && !Held(Run(Apply(s, FinishStop(host)), later), host)
      && !Held(Run(Apply(s, Prune), later), host)
  {
    var s := Run(Start<H>(), events);
    RunKeepsInv(Start<H>(), events);
    StaysLetGo(Apply(s, FinishStop(host)), host, later);
    StaysLetGo(Apply(s, Prune), host, later);
  }

  lemma {:induction false} StaysLetGo<H>(s: State<H>, host: H, later: seq<Event<H>>)
    requires !Held(s, host) && host in s.stopped && Register(host) !in later
    ensures !Held(Run(s, later), host)
    decreases |later|
  {
    if later != [] {
      StepLetsGo(s, host, later[0]);
      StaysLetGo(Apply(s, later[0]), host, later[1..]);
    }
  }

  lemma StepLetsGo<H>(s: State<H>, host: H, e: Event<H>)
    requires !Held(s, host) && host in s.stopped && e != Register(host)
    ensures !Held(Apply(s, e), host) && host in Apply(s, e).stopped
  {
    hide Unstopped, Without, Pruned;
    PruningLetsGo(s, host);
    PruningLetsGo(Pruned(s).(continuations := s.continuations - 1, completion := NoTask), host);
    OthersStayOut(s.pending, host);
    match e
    case CompletionFails(cancelling) => PrunedFrame(s);
    case _ =>
  }

  lemma PruningLetsGo<H>(s: State<H>, host: H)
    requires !Held(s, host)
    ensures !Held(Pruned(s), host) && Pruned(s).stopped == s.stopped
  {}

  /** Taking one host out of the list brings no other one in. */
  lemma {:induction false} OthersStayOut<H>(hosts: seq<H>, host: H)
    requires host !in hosts
    ensures forall h :: host !in Without(hosts, h)
    decreases |hosts|
  {
    if hosts != [] {
      OthersStayOut(hosts[1..], host);
    }
  }

  /** The owner leaves the registry exactly when it is dropped, by its caller or by the continuation of a removed
      entry, with every registered host stopped. */
  lemma {:induction false} DroppedExactlyWhenAllStopped<H>(events: seq<Event<H>>, e: Event<H>)
    requires Run(Start<H>(), events).inRegistry
    ensures var s := Run(Start<H>(), events);
      !Apply(s, e).inRegistry <==>
        s.known <= s.stopped && (e.DropOwner? || (e.CompletionReturns? && s.completion.Running?))
  {
    RunKeepsInv(Start<H>(), events);
    PruneKeepsSole(Run(Start<H>(), events));
  }

  /** A removal has asked for completion while a host was unstopped, and no continuation has seen them all stopped
      since. */
  predicate AwaitsRelease<H(==)>(events: seq<Event<H>>)
    decreases |events|
  {
    if events == [] then false
    else
      var before, e := events[..|events| - 1], events[|events| - 1];
      var s := Run(Start<H>(), before);
      var released := s.known <= s.stopped;
      if e.EnsureCompletion? then !released || AwaitsRelease(before)
      else AwaitsRelease(before) && !(released && s.completion.Running? &&
                                      (e.CompletionReturns? || e == CompletionFails(false)))
  }

  lemma {:induction false} RunSplits<H>(s: State<H>, events: seq<Event<H>>, e: Event<H>)
    ensures Run(s, events + [e]) == Apply(Run(s, events), e)
    decreases |events|
  {
    hide Apply;
    if events == [] {
      assert events + [e] == [e] && [e][1..] == [];
      assert Run(Apply(s, e), []) == Apply(s, e);
    } else {
      assert (events + [e])[1..] == events[1..] + [e];
      RunSplits(Apply(s, events[0]), events[1..], e);
    }
  }

  lemma RemovingStep<H>(s: State<H>, e: Event<H>)
    requires Inv(s) && (s.completion.Running? ==> s.removing)
    ensures var t := Apply(s, e);
      var released := s.known <= s.stopped;
      && (t.completion.Running? ==> t.removing)
      && (t.removing <==>
            if e.EnsureCompletion? then !released || s.removing
            else s.removing && !(released && s.completion.Running? &&
                                 (e.CompletionReturns? || e == CompletionFails(false))))
  {
    PruneKeepsSole(s);
    if e.CompletionFails? && s.completion.Running? {
      PruneKeepsSole(Pruned(s).(continuations := s.continuations - 1, completion := NoTask));
    }
  }

  lemma {:induction false} RemovingIsAwaitingRelease<H>(events: seq<Event<H>>)
    ensures var s := Run(Start<H>(), events);
      (s.removing <==> AwaitsRelease(events)) && (s.completion.Running? ==> s.removing)
    decreases |events|
  {
    hide Apply, Inv;
    if events != [] {
      var before, e := events[..|events| - 1], events[|events| - 1];
      assert events == before + [e];
      RemovingIsAwaitingRelease(before);
      StartKeepsInv<H>();
      RunKeepsInv(Start<H>(), before);
      RunSplits(Start<H>(), before, e);
      RemovingStep(Run(Start<H>(), before), e);
    }
  }

  /** Why there may be no continuation is told by the events themselves. */
  lemma {:induction false} ReasonsAreEvents<H>(s: State<H>, events: seq<Event<H>>)
    ensures var t := Run(s, events);
      && (forall h :: h in t.stopped <==> h in s.stopped || HostStops(h) in events)
      && (t.haStopping <==> s.haStopping || HomeAssistantStops in events)
      && (t.completion.Cancelled? ==> s.completion.Cancelled? || CompletionFails(true) in events)
    decreases |events|
  {
    hide Apply;
    if events != [] {
      assert events == [events[0]] + events[1..];
      ReasonStep(s, events[0]);
      ReasonsAreEvents(Apply(s, events[0]), events[1..]);
    }
  }

  lemma ReasonStep<H>(s: State<H>, e: Event<H>)
    ensures forall h :: h in Apply(s, e).stopped <==> h in s.stopped || e == HostStops(h)
    ensures Apply(s, e).haStopping <==> s.haStopping || e.HomeAssistantStops?
    ensures Apply(s, e).completion.Cancelled? ==> s.completion.Cancelled? || e == CompletionFails(true)
  {
    hide Unstopped, Without;
  }

  lemma StartKeepsInv<H>()
    ensures Inv(Start<H>())
  {}

  /** Once a removed entry asked for completion, an unreleased host is never left without a continuation,
      unless that continuation was cancelled or Home Assistant stops; there are never two; and once every host has
      stopped the continuation drops the owner and is over. */
  lemma {:induction false} RemovedHostIsAttended<H>(events: seq<Event<H>>)
    ensures var s := Run(Start<H>(), events);
      && s.continuations <= 1
      && (AwaitsRelease(events) && !s.haStopping && !s.completion.Cancelled? && !(s.known <= s.stopped) ==>
            s.continuations == 1)
      && (forall h :: h in s.stopped <==> HostStops(h) in events)
      && (s.haStopping <==> HomeAssistantStops in events)
      && (s.completion.Cancelled? ==> CompletionFails(true) in events)
      && (s.continuations == 1 && s.known <= s.stopped ==>
            var t := Apply(s, CompletionReturns); !t.inRegistry && t.continuations == 0 && Free(t))
  {
    RunKeepsInv(Start<H>(), events);
    RemovingIsAwaitingRelease(events);
    ReasonsAreEvents(Start<H>(), events);
    PruneKeepsSole(Run(Start<H>(), events));
  }

  /** A removal that asks for completion starts a continuation exactly if a host is unstopped, none is at work, the last
      one was not cancelled and Home Assistant is not stopping. */
  lemma {:induction false} CompletionStartsExactlyWhenDue<H>(events: seq<Event<H>>)
    ensures var s := Run(Start<H>(), events);
      Apply(s, EnsureCompletion).continuations == s.continuations +
        if !(s.known <= s.stopped) && s.continuations == 0 && !s.completion.Cancelled? && !s.haStopping then 1 else 0
  {
    RunKeepsInv(Start<H>(), events);
    PruneKeepsSole(Run(Start<H>(), events));
  }

  // ----- the owner as the object it is

  class WaterSafetyHost {
    var stopped: bool

    constructor ()
      ensures !stopped
    {
      stopped := false;
    }
  }

  class WaterSafetyLifecycleOwner {
    var activeHost: Option<WaterSafetyHost>
    var pendingCleanupHosts: seq<WaterSafetyHost>
    ghost var known: set<WaterSafetyHost>

    ghost function View(): State<WaterSafetyHost>
      reads this, known
    {
      Start<WaterSafetyHost>().(
        active := activeHost, pending := pendingCleanupHosts, stopped := (set h <- known | h.stopped), known := known)
    }

    ghost predicate Valid()
      reads this, known
    {
      Sole(View())
    }

    constructor ()
      ensures View() == Start<WaterSafetyHost>() && Valid()
    {
      activeHost, pendingCleanupHosts, known := None, [], {};
    }

    /** The list comprehension that keeps the hosts not stopped. */
    static method KeepUnstopped(hosts: seq<WaterSafetyHost>, ghost stopped: set<WaterSafetyHost>)
      returns (kept: seq<WaterSafetyHost>)
      requires forall h <- hosts :: h.stopped <==> h in stopped
      ensures kept == Unstopped(hosts, stopped)
    {
      hide Unstopped;
      kept := [];
      assert hosts[0..] == hosts;
      for i := 0 to |hosts|
        invariant kept + Unstopped(hosts[i..], stopped) == Unstopped(hosts, stopped)
      {
        UnstoppedFrom(hosts, i, stopped);
        if !hosts[i].stopped {
          ghost var rest := Unstopped(hosts[i + 1..], stopped);
          assert kept + ([hosts[i]] + rest) == kept + [hosts[i]] + rest;
          kept := kept + [hosts[i]];
        }
      }
      NoneUnstopped(hosts[|hosts|..], stopped);
    }

    /** `_prune_stopped_hosts`. */
    method Prune()
      requires Valid()
      modifies this
      ensures Valid() && View() == Pruned(old(View()))
    {
      PruneKeepsSole(View());
      ghost var stopped := View().stopped;
      if activeHost.Some? && activeHost.value.stopped {
        activeHost := None;
      }
      pendingCleanupHosts := KeepUnstopped(pendingCleanupHosts, stopped);
    }

    /** `register_constructed_host`: refused while any earlier host is unstopped. */
    method RegisterConstructedHost(host: WaterSafetyHost) returns (ok: bool)
      requires Valid() && !host.stopped && host !in known
      modifies this
      ensures Valid()
      ensures ok <==> forall h <- old(known) :: h.stopped
      ensures ok ==> activeHost.None? && pendingCleanupHosts == [host] && known == old(known) + {host}
      ensures !ok ==> View() == Pruned(old(View()))
    {
      PruneKeepsSole(View());
      Prune();
      if activeHost.Some? || pendingCleanupHosts != [] {
        return false;
      }
      pendingCleanupHosts := pendingCleanupHosts + [host];
      known := known + {host};
      return true;
    }

    /** `mark_host_active`. */
    method MarkHostActive(host: WaterSafetyHost) returns (ok: bool)
      requires Valid()
      modifies this
      ensures Valid() && View() == MarkActiveStep(old(View()), host)
      ensures ok <==> host in old(pendingCleanupHosts)
      ensures ok ==> activeHost == Some(host) && pendingCleanupHosts == []
      ensures !ok ==> View() == old(View())
    {
      MarkKeepsSole(View(), host);
      if host !in pendingCleanupHosts {
        return false;
      }
      pendingCleanupHosts := Without(pendingCleanupHosts, host);
      activeHost := Some(host);
      return true;
    }

    method BeginStop(host: WaterSafetyHost)
      requires Valid() && host in known
      modifies this
      ensures Valid() && View() == BeginStopStep(old(View()), host)
      ensures activeHost == if old(activeHost) == Some(host) then None else old(activeHost)
      ensures !host.stopped ==> pendingCleanupHosts == [host]
      ensures host.stopped ==> pendingCleanupHosts == old(pendingCleanupHosts)
    {
      BeginStopKeepsSole(View(), host);
      if activeHost == Some(host) {
        activeHost := None;
      }
      if host !in pendingCleanupHosts && !host.stopped {
        pendingCleanupHosts := pendingCleanupHosts + [host];
      }
    }

    method FinishStop(host: WaterSafetyHost)
      requires Valid() && host in known
      modifies this
      ensures Valid() && View() == FinishStopStep(old(View()), host)
      ensures host.stopped ==> activeHost != Some(host) && host !in pendingCleanupHosts
      ensures !host.stopped ==> View() == old(View())
    {
      FinishStopKeepsSole(View(), host);
      if host.stopped {
        if activeHost == Some(host) {
          activeHost := None;
        }
        pendingCleanupHosts := Without(pendingCleanupHosts, host);
      }
    }

    /** One undisturbed `async_stop_host`: `completes` says whether the host's own stop gets everything. */
    method AsyncStopHost(host: WaterSafetyHost, completes: bool) returns (stopped: bool)
      requires Valid() && host in known
      modifies this, host
      ensures Valid() && known == old(known)
      ensures stopped == host.stopped == (completes || old(host.stopped))
      ensures stopped ==> !Held(View(), host)
      ensures stopped && old(Held(View(), host)) ==> activeHost.None? && pendingCleanupHosts == []
      ensures !stopped ==> activeHost.None? && pendingCleanupHosts == [host]
    {
      BeginStop(host);
      ghost var s := View();
      host.stopped := host.stopped || completes;
      HostStopsKeepsSole(s, View(), host);
      FinishStop(host);
      return host.stopped;
    }

    /** One undisturbed `async_retry_pending_cleanup`; `completing` are the hosts whose stop now succeeds. */
    method AsyncRetryPendingCleanup(completing: set<WaterSafetyHost>) returns (clean: bool)
      requires Valid()
      modifies this, pendingCleanupHosts
      ensures Valid() && known == old(known)
      ensures forall h <- old(pendingCleanupHosts) :: h.stopped <==> old(h.stopped) || h in completing
      ensures activeHost == Pruned(old(View())).active
      ensures clean <==> pendingCleanupHosts == []
      ensures clean <==> forall h <- old(pendingCleanupHosts) :: h.stopped
    {
      Prune();
      var snapshot := pendingCleanupHosts;
      for i := 0 to |snapshot|
        invariant Valid() && known == old(known) && activeHost == Pruned(old(View())).active
        invariant forall h <- old(pendingCleanupHosts) :: h !in snapshot ==> h.stopped == old(h.stopped)
        invariant i == 0 ==> pendingCleanupHosts == snapshot && (forall h <- snapshot :: h.stopped == old(h.stopped))
        invariant i > 0 ==> |snapshot| == 1 && (snapshot[0].stopped <==> snapshot[0] in completing)
        invariant i > 0 ==> pendingCleanupHosts == if snapshot[0].stopped then [] else snapshot
      {
        var stopped := AsyncStopHost(snapshot[i], snapshot[i] in completing);
      }
      Prune();
      return pendingCleanupHosts == [];
    }
  }

  lemma MarkKeepsSole<H>(s: State<H>, host: H)
    requires Sole(s)
    ensures Sole(MarkActiveStep(s, host))
  {}

  lemma BeginStopKeepsSole<H>(s: State<H>, host: H)
    requires Sole(s)
    ensures Sole(BeginStopStep(s, host))
  {}

  lemma FinishStopKeepsSole<H>(s: State<H>, host: H)
    requires Sole(s)
    ensures Sole(FinishStopStep(s, host))
  {}

  lemma HostStopsKeepsSole<H>(s: State<H>, t: State<H>, host: H)
    requires Sole(s) && s.stopped <= t.stopped && t == s.(stopped := t.stopped)
    ensures Sole(t)
  {}
}
