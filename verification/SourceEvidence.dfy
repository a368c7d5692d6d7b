/** Reported-source evidence of the Heating host: a fold over the source entity's state events that carries the
    time of a genuine transition along the unbroken run of reports it began. */
module SourceEvidence {

  import opened Wrappers

  datatype Report = Enabled | Disabled | Unknown | Unavailable

  /** A state of the source entity: what it reports, when it was last updated and last changed. A timestamp
      that is missing or has no time zone is `None`. */
  datatype Observed = Observed(report: Report, observedAt: Option<int>, changedAt: Option<int>)

  datatype Evidence = Evidence(report: Report, observedAt: int, transitionAt: Option<int>)

  /** Evidence, nothing to say, or the refusal of evidence whose transition lies after its observation. */
  datatype Mapped = Accepted(evidence: Evidence) | Skipped | Raised

  predicate Stable(r: Report) {
    r.Enabled? || r.Disabled?
  }

  /** `_reported_source_evidence`: a stable report right after the opposite one is a transition, one right
      after its own kind inherits the transition known so far, and any other has none. */
  function TransitionFor(state: Observed, previous: Option<Observed>, prior: Option<Evidence>): Option<int>
    requires state.observedAt.Some?
  {
    if Stable(state.report) && previous.Some? && Stable(previous.value.report)
       && previous.value.report != state.report then
      if state.changedAt.Some? && state.changedAt.value <= state.observedAt.value then state.changedAt else None
    else if Stable(state.report) && previous.Some? && previous.value.report == state.report
            && prior.Some? && prior.value.report == state.report then prior.value.transitionAt
    else None
  }

  function Map(state: Option<Observed>, previous: Option<Observed>, prior: Option<Evidence>): Mapped {
    if state.None? || state.value.observedAt.None? then Skipped
    else
      var at := state.value.observedAt.value;
      var transition := TransitionFor(state.value, previous, prior);
      if transition.Some? && transition.value > at then Raised
      else Accepted(Evidence(state.value.report, at, transition))
  }

  function After(prior: Option<Evidence>, m: Mapped): Option<Evidence> {
    if m.Accepted? then Some(m.evidence) else prior
  }

  /** The evidence after a run of states, each event carrying the state before it as its previous one; a removed
      entity has no state. */
  function Fold(states: seq<Option<Observed>>): Option<Evidence> {
    if states == [] then None
    else
      var n := |states| - 1;
      var prior := Fold(states[..n]);
      After(prior, Map(states[n], if n > 0 then states[n - 1] else None, prior))
  }

  // ----- where a transition comes from, on the states alone

  /** A state that is mapped at all: present, with a usable update time. */
  predicate Usable(x: Option<Observed>) {
    x.Some? && x.value.observedAt.Some?
  }

  predicate SameReport(x: Option<Observed>, y: Option<Observed>) {
    x.Some? && y.Some? && x.value.report == y.value.report
  }

  /** Where the current unbroken run of equal reports began. */
  function RunStart(states: seq<Option<Observed>>): (k: nat)
    requires states != [] && states[|states| - 1].Some?
    ensures k < |states|
    ensures forall i | k <= i < |states| :: SameReport(states[i], states[|states| - 1])
    ensures k > 0 ==> !SameReport(states[k - 1], states[k])
  {
    var n := |states| - 1;
    if n == 0 || !SameReport(states[n - 1], states[n]) then n else RunStart(states[..n])
  }

  /** State `k` is a transition from the opposite stable state right before it, with a usable time. */
  predicate EnteredAt(states: seq<Option<Observed>>, k: nat)
    requires k < |states|
  {
    && k > 0 && Usable(states[k]) && states[k - 1].Some?
    && Stable(states[k].value.report) && Stable(states[k - 1].value.report)
    && states[k].value.report != states[k - 1].value.report
    && states[k].value.changedAt.Some? && states[k].value.changedAt.value <= states[k].value.observedAt.value
  }

  function EntryTime(states: seq<Option<Observed>>, k: nat): Option<int>
    requires k < |states|
  {
    if EnteredAt(states, k) then states[k].value.changedAt else None
  }

  /** The last state that is mapped at all. */
  function LastUsable(states: seq<Option<Observed>>): (m: Option<nat>)
    ensures m.Some? ==> m.value < |states| && Usable(states[m.value])
    ensures forall i | (if m.Some? then m.value + 1 else 0) <= i < |states| :: !Usable(states[i])
  {
    if states == [] then None
    else if Usable(states[|states| - 1]) then Some(|states| - 1)
    else LastUsable(states[..|states| - 1])
  }

  /** Where the run seems to have begun to the mapping, which sees a report's own previous state and, of the
      states before that, only those with a usable update time. */
  function SeenStart(states: seq<Option<Observed>>): (k: nat)
    requires states != [] && Usable(states[|states| - 1])
    ensures k < |states| && Usable(states[k])
    ensures states[k].value.report == states[|states| - 1].value.report
    decreases |states|
  {
    var n := |states| - 1;
    if n == 0 || !SameReport(states[n - 1], states[n]) then n
    else
      var m := LastUsable(states[..n]);
      if m.None? || !SameReport(states[m.value], states[n]) then n else SeenStart(states[..m.value + 1])
  }

  /** The last state was updated before the transition its evidence would inherit. */
  predicate BeforeItsTransition(states: seq<Option<Observed>>)
    requires states != [] && Usable(states[|states| - 1])
  {
    var entry := EntryTime(states, SeenStart(states));
    entry.Some? && states[|states| - 1].value.observedAt.value < entry.value
  }

  // ----- one step of the fold

  lemma FoldStep(states: seq<Option<Observed>>)
    requires states != []
    ensures var (n, prior) := (|states| - 1, Fold(states[..|states| - 1]));
      Fold(states) == After(prior, Map(states[n], if n > 0 then states[n - 1] else None, prior))
  {}

  /** States that are not mapped leave the evidence as it is. */
  lemma {:induction false} UnusableAreSkipped(states: seq<Option<Observed>>)
    ensures var m := LastUsable(states);
      Fold(states) == if m.None? then None else Fold(states[..m.value + 1])
    decreases |states|
  {
    if states != [] {
      var before := states[..|states| - 1];
      if Usable(states[|states| - 1]) {
        assert states[..|states|] == states;
      } else {
        UnusableAreSkipped(before);
        var m := LastUsable(before);
        if m.Some? {
          assert before[..m.value + 1] == states[..m.value + 1];
        }
      }
    }
  }

  /** A report unlike the one before, or without one, starts a run of its own and is never refused. */
  lemma EntryIsMapped(state: Observed, previous: Option<Observed>, prior: Option<Evidence>)
    requires state.observedAt.Some? && !SameReport(previous, Some(state))
    ensures var entered := previous.Some? && Stable(state.report) && Stable(previous.value.report)
                           && state.changedAt.Some? && state.changedAt.value <= state.observedAt.value;
      Map(Some(state), previous, prior)
        == Accepted(Evidence(state.report, state.observedAt.value, if entered then state.changedAt else None))
  {}

  /** A repetition whose report the evidence does not have, because no usable state brought it, has no transition. */
  lemma UnseenIsMapped(state: Observed, previous: Option<Observed>, prior: Option<Evidence>)
    requires state.observedAt.Some? && SameReport(previous, Some(state))
    requires prior.None? || prior.value.report != state.report
    ensures Map(Some(state), previous, prior) == Accepted(Evidence(state.report, state.observedAt.value, None))
  {}

  /** A repeated report inherits the transition, unless it was updated before it. */
  lemma RepetitionIsMapped(state: Observed, previous: Option<Observed>, prior: Evidence)
    requires state.observedAt.Some? && SameReport(previous, Some(state)) && prior.report == state.report
    requires prior.transitionAt.Some? ==> Stable(prior.report)
    ensures Map(Some(state), previous, Some(prior)) ==
      if prior.transitionAt.Some? && prior.transitionAt.value > state.observedAt.value then Raised
      else Accepted(Evidence(state.report, state.observedAt.value, prior.transitionAt))
  {}

  // ----- what the evidence says

  /** Over any run, whatever its update times and whether they are usable, evidence describes the last usable state,
      and its transition is the entry of the run of equal reports as far as the mapping saw it: present exactly
      when that was entered directly from the opposite stable report, and then with that entry's own change
      time. Only a state updated before that time is refused, and leaves the evidence as it was. */
  lemma {:induction false} TransitionIsTheSeenEntry(states: seq<Option<Observed>>)
    requires states != [] && Usable(states[|states| - 1])
    ensures Fold(states).Some?
    ensures var (e, last) := (Fold(states).value, states[|states| - 1].value);
      && e.report == last.report
      && e.transitionAt == EntryTime(states, SeenStart(states))
      && if BeforeItsTransition(states) then Fold(states) == Fold(states[..|states| - 1])
         else e.observedAt == last.observedAt.value
    decreases |states|
  {
    hide Fold, Map;
    var n := |states| - 1;
    var before := states[..n];
    FoldStep(states);
    if n == 0 || !SameReport(states[n - 1], states[n]) {
      EntryIsMapped(states[n].value, if n > 0 then states[n - 1] else None, Fold(before));
    } else {
      UnusableAreSkipped(before);
      var m := LastUsable(before);
      if m.None? {
        UnseenIsMapped(states[n].value, states[n - 1], None);
      } else {
        var seen := states[..m.value + 1];
        assert before[..m.value + 1] == seen;
        TransitionIsTheSeenEntry(seen);
        if SameReport(states[m.value], states[n]) {
          RepetitionIsMapped(states[n].value, states[n - 1], Fold(seen).value);
        } else {
          UnseenIsMapped(states[n].value, states[n - 1], Fold(seen));
        }
      }
    }
  }

  /** So the reported transition is that of the current run exactly when the mapping saw that run begin, or when
      what it took for the beginning was no transition. */
  lemma TransitionIsTheRunsOwnIff(states: seq<Option<Observed>>)
    requires states != [] && Usable(states[|states| - 1])
    ensures Fold(states).Some?
    ensures Fold(states).value.transitionAt == EntryTime(states, RunStart(states)) <==>
      SeenStart(states) >= RunStart(states) || !EnteredAt(states, SeenStart(states))
  {
    TransitionIsTheSeenEntry(states);
    SeenOrUnusable(states);
  }

  lemma SeenStep(states: seq<Option<Observed>>, m: nat)
    requires states != [] && Usable(states[|states| - 1]) && RunStart(states) < |states| - 1
    requires LastUsable(states[..|states| - 1]) == Some(m) && SameReport(states[m], states[|states| - 1])
    ensures SeenStart(states) == SeenStart(states[..m + 1])
    ensures EnteredAt(states, SeenStart(states)) == EnteredAt(states[..m + 1], SeenStart(states))
  {
    hide RunStart, LastUsable, EnteredAt;
    EnteredInPrefix(states, m, SeenStart(states[..m + 1]));
  }

  lemma EnteredInPrefix(states: seq<Option<Observed>>, m: nat, k: nat)
    requires k <= m < |states|
    ensures EnteredAt(states[..m + 1], k) == EnteredAt(states, k)
  {
    assert states[..m + 1][k] == states[k] && (k > 0 ==> states[..m + 1][k - 1] == states[k - 1]);
  }

  lemma NothingSeen(states: seq<Option<Observed>>)
    requires states != [] && Usable(states[|states| - 1]) && RunStart(states) < |states| - 1
    requires var m := LastUsable(states[..|states| - 1]); m.None? || !SameReport(states[m.value], states[|states| - 1])
    ensures SeenStart(states) == |states| - 1 && !EnteredAt(states, |states| - 1) && !Usable(states[RunStart(states)])
  {
    hide RunStart, LastUsable;
    var m := LastUsable(states[..|states| - 1]);
    assert m.Some? ==> m.value < RunStart(states);
  }

  /** Unless the mapping saw the run begin, its first state had no usable time; and a later beginning is none. */
  lemma {:induction false} SeenOrUnusable(states: seq<Option<Observed>>)
    requires states != [] && Usable(states[|states| - 1])
    ensures SeenStart(states) == RunStart(states) || !Usable(states[RunStart(states)])
    ensures SeenStart(states) > RunStart(states) ==> !EnteredAt(states, SeenStart(states))
    decreases |states|
  {
    hide RunStart, SeenStart, LastUsable, EnteredAt, SameReport;
    var n := |states| - 1;
    var m := LastUsable(states[..n]);
    if RunStart(states) == n {
      NewRunIsSeen(states);
    } else if m.None? || !SameReport(states[m.value], states[n]) {
      NothingSeen(states);
    } else {
      var seen := states[..m.value + 1];
      SeenStep(states, m.value);
      SeenOrUnusable(seen);
      if RunStart(states) <= m.value {
        RunStartOfPrefix(states, m.value);
        assert seen[RunStart(states)] == states[RunStart(states)];
      } else {
        assert !Usable(states[RunStart(states)]);
      }
    }
  }

  lemma NewRunIsSeen(states: seq<Option<Observed>>)
    requires states != [] && Usable(states[|states| - 1]) && RunStart(states) == |states| - 1
    ensures SeenStart(states) == |states| - 1
  {}

  lemma {:induction false} RunStartOfPrefix(states: seq<Option<Observed>>, m: nat)
    requires states != [] && states[|states| - 1].Some? && RunStart(states) <= m < |states|
    ensures states[m].Some? && RunStart(states[..m + 1]) == RunStart(states)
    decreases |states|
  {
    if m == |states| - 1 {
      assert states[..m + 1] == states;
    } else {
      var before := states[..|states| - 1];
      assert SameReport(before[|before| - 1], states[|states| - 1]);
      RunStartOfPrefix(before, m);
      assert before[..m + 1] == states[..m + 1];
    }
  }

  /** Every state carries a usable update time. */
  predicate Timed(states: seq<Option<Observed>>) {
    forall i | 0 <= i < |states| :: states[i].Some? ==> states[i].value.observedAt.Some?
  }

  /** In particular, when every state there was had a usable update time, in whatever order these are, the
      transition is always the current run's own. */
  lemma TransitionIsTheEntryOfTheRun(states: seq<Option<Observed>>)
    requires states != [] && states[|states| - 1].Some? && Timed(states)
    ensures Fold(states).Some? && Fold(states).value.report == states[|states| - 1].value.report
    ensures Fold(states).value.transitionAt == EntryTime(states, RunStart(states))
    ensures if BeforeItsTransition(states) then Fold(states) == Fold(states[..|states| - 1])
            else Some(Fold(states).value.observedAt) == states[|states| - 1].value.observedAt
  {
    TransitionIsTheSeenEntry(states);
    SeenOrUnusable(states);
  }

  /** Over any run a transition is never after its own entry's observation nor after the evidence's, whatever was
      skipped or refused. */
  lemma {:induction false} TransitionIsNeverLate(states: seq<Option<Observed>>)
    requires states != [] && Usable(states[|states| - 1])
    ensures var e := Fold(states);
      e.Some? && (e.value.transitionAt.Some? ==>
        && e.value.transitionAt.value <= states[SeenStart(states)].value.observedAt.value
        && e.value.transitionAt.value <= e.value.observedAt)
    decreases |states|
  {
    TransitionIsTheSeenEntry(states);
    if BeforeItsTransition(states) {
      var before := states[..|states| - 1];
      var m := LastUsable(before).value;
      UnusableAreSkipped(before);
      assert before[..m + 1] == states[..m + 1];
      TransitionIsNeverLate(states[..m + 1]);
    }
  }

  /** Mapping refuses evidence exactly when an inherited transition lies after the observation, which takes an
      update time that went back. */
  lemma RaisedIff(state: Option<Observed>, previous: Option<Observed>, prior: Option<Evidence>)
    ensures Map(state, previous, prior).Raised? <==>
      && state.Some? && state.value.observedAt.Some? && previous.Some? && prior.Some?
      && Stable(state.value.report) && previous.value.report == state.value.report == prior.value.report
      && prior.value.transitionAt.Some? && prior.value.transitionAt.value > state.value.observedAt.value
  {}

  // the source goes off and on again unnoticed
  const BROKEN_RUN := [
    Some(Observed(Disabled, Some(0), None)), Some(Observed(Enabled, Some(1), Some(1))),
    Some(Observed(Disabled, None, Some(2))), Some(Observed(Enabled, None, Some(3))),
    Some(Observed(Enabled, Some(4), Some(3)))]

  /** Without usable update times in between the carried transition can belong to an earlier run: the old time of
      switching on is still reported. */
  lemma UnusableTimesHideABrokenRun()
    ensures Fold(BROKEN_RUN) == Some(Evidence(Enabled, 4, Some(1)))
    ensures RunStart(BROKEN_RUN) == 3 && SeenStart(BROKEN_RUN) == 1 && EnteredAt(BROKEN_RUN, 1)
  {
    var states := BROKEN_RUN;
    assert states[..4][..3] == states[..3] && states[..4][..2] == states[..2];
    assert states[..3][..2] == states[..2] && states[..2][..1] == states[..1];
    assert LastUsable(states[..3]) == LastUsable(states[..2]) == Some(1);
    assert RunStart(states[..4]) == 3 && SeenStart(states[..2]) == 1;
    TransitionIsTheSeenEntry(states);
  }

  /** `_reported_source_evidence` field of the host. Reading the prior evidence and storing the new one happen
      without a yield, so events fold in the order their tasks run. */
  class ReportedSource {
    var accepting: bool
    var evidence: Option<Evidence>

    constructor ()
      ensures accepting && evidence.None?
    {
      accepting, evidence := true, None;
    }

    method Ingest(state: Option<Observed>, previous: Option<Observed>) returns (raised: bool)
      modifies this`evidence
      ensures raised <==> Map(state, previous, old(evidence)).Raised?
      ensures evidence == if accepting then After(old(evidence), Map(state, previous, old(evidence)))
                          else old(evidence)
    {
      var mapped := Map(state, previous, evidence);
      if mapped.Raised? {
        return true;
      }
      if mapped.Accepted? && accepting {
        evidence := Some(mapped.evidence);
      }
      return false;
    }

    /** Startup: the events that arrived while the runtime was begun are folded first, the snapshot taken before
        them after them. A snapshot with a usable time, however old, is what remains, without a transition;
        any other leaves the evidence of the events. */
    method IngestStartup(events: seq<StateEvent>, snapshot: Option<Observed>) returns (raised: bool)
      requires accepting && evidence.None?
      modifies this`evidence
      ensures !raised
      ensures evidence == if Usable(snapshot) then
                             Some(Evidence(snapshot.value.report, snapshot.value.observedAt.value, None))
                          else EvidenceOf(events)
    {
      for i := 0 to |events|
        invariant accepting && evidence == EvidenceOf(events[..i])
      {
        var ignored := Ingest(events[i].state, events[i].previous);
        assert events[..i + 1][..i] == events[..i];
      }
      assert events[..|events|] == events;
      raised := Ingest(snapshot, None);
    }
  }

  /** A state event, with the states its task was given. */
  datatype StateEvent = StateEvent(state: Option<Observed>, previous: Option<Observed>)

  /** What the events leave, each mapped against the evidence before it. */
  function EvidenceOf(events: seq<StateEvent>): Option<Evidence> {
    if events == [] then None
    else
      var prior, e := EvidenceOf(events[..|events| - 1]), events[|events| - 1];
      After(prior, Map(e.state, e.previous, prior))
  }
}
