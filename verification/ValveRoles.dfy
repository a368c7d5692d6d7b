/** Saving the shutoff valves of a Water Safety draft: which role each selected target gets, and when the draft
    repository is written. Sirens use the same algorithm. A target's digest role is written `TargetRole(t)`,
    which takes the truncated digest to be injective. */
module ValveRoles {

  import opened Wrappers

  datatype Role = Primary | TargetRole(target: nat) | OddValve(name: nat) | Foreign(name: nat)

  predicate ValveRole(r: Role) {
    !r.Foreign?
  }

  const MAX_TARGETS := 16

  datatype Binding = Binding(locator: Option<nat>, native: nat, confirmed: bool)

  function Target(b: Binding): nat {
    if b.locator.Some? then b.locator.value else b.native
  }

  /** `roles` is the settings' list of valve roles, `rest` everything else in the settings. */
  datatype Settings = Settings(rest: nat, roles: Option<set<Role>>)

  datatype Intent = Intent(settings: Settings, bindings: map<Role, Binding>)

  datatype Draft = Draft(id: nat, revision: nat, intent: Intent)

  datatype Repo = Repo(draft: Option<Draft>, active: Option<Intent>)

  const EMPTY := Intent(Settings(0, None), map[])

  // ----- role assignment

  /** A new target takes the primary role while nobody has it, otherwise the role of its own digest. */
  function PickRole(t: nat, existing: map<nat, Role>, taken: map<Role, nat>): Role {
    if t in existing && existing[t] !in taken then existing[t]
    else if Primary !in taken && Primary !in existing.Values then Primary
    else TargetRole(t)
  }

  /** `_role_assignments`, `None` being the reported collision. */
  function Assign(targets: seq<nat>, existing: map<nat, Role>): Option<map<Role, nat>> {
    if targets == [] then Some(map[])
    else
      var before := Assign(targets[..|targets| - 1], existing);
      if before.None? then None
      else
        var t := targets[|targets| - 1];
        var role := PickRole(t, existing, before.value);
        if role in before.value then None else Some(before.value[role := t])
  }

  method RoleAssignments(targets: seq<nat>, existing: map<nat, Role>) returns (r: Option<map<Role, nat>>)
    ensures r == Assign(targets, existing)
  {
    var taken: map<Role, nat> := map[];
    for i := 0 to |targets|
      invariant Assign(targets[..i], existing) == Some(taken)
    {
      assert targets[..i + 1][..i] == targets[..i];
      var role := PickRole(targets[i], existing, taken);
      if role in taken {
        CollisionLasts(targets, existing, i + 1);
        return None;
      }
      taken := taken[role := targets[i]];
    }
    assert targets[..|targets|] == targets;
    return Some(taken);
  }

  lemma {:induction false} CollisionLasts(targets: seq<nat>, existing: map<nat, Role>, i: nat)
    requires i <= |targets| && Assign(targets[..i], existing).None?
    ensures Assign(targets, existing).None?
    decreases |targets| - i
  {
    if i == |targets| {
      assert targets[..i] == targets;
    } else {
      assert targets[..i + 1][..i] == targets[..i];
      CollisionLasts(targets, existing, i + 1);
    }
  }

  predicate Distinct(targets: seq<nat>) {
    forall i, j | 0 <= i < j < |targets| :: targets[i] != targets[j]
  }

  predicate Injective(existing: map<nat, Role>) {
    forall t <- existing, u <- existing :: existing[t] == existing[u] ==> t == u
  }

  /** No target holds the digest role of a target that has no role itself. */
  predicate Safe(existing: map<nat, Role>) {
    forall t <- existing :: existing[t].TargetRole? ==> existing[t].target == t || existing[t].target in existing
  }

  /** What an assignment is: exactly the targets, each under one role; a target that had a role has it still,
      a new one has the primary role, if it was free, or that of its digest. */
  ghost predicate Assigned(m: map<Role, nat>, targets: seq<nat>, existing: map<nat, Role>) {
    && (forall t <- targets :: exists r <- m :: m[r] == t)
    && (forall r <- m :: m[r] in targets)
    && (forall r <- m, q <- m :: m[r] == m[q] ==> r == q)
    && (forall r <- m :: m[r] in existing ==> r == existing[m[r]])
    && (forall r <- m :: m[r] !in existing ==> r == TargetRole(m[r]) || (r == Primary && Primary !in existing.Values))
  }

  lemma PickIsNew(t: nat, targets: seq<nat>, existing: map<nat, Role>, m: map<Role, nat>)
    requires Injective(existing) && Safe(existing) && t !in targets && Assigned(m, targets, existing)
    ensures var r := PickRole(t, existing, m);
      && r !in m
      && (t in existing ==> r == existing[t])
      && (t !in existing ==> r == TargetRole(t) || (r == Primary && Primary !in existing.Values))
  {}

  /** From safe roles every selection of distinct targets is assigned without a collision, and a target that
      stays selected keeps its role. */
  lemma {:induction false} SafeRolesAreKept(targets: seq<nat>, existing: map<nat, Role>)
    requires Distinct(targets) && Injective(existing) && Safe(existing)
    ensures Assign(targets, existing).Some? && Assigned(Assign(targets, existing).value, targets, existing)
    decreases |targets|
  {
    if targets != [] {
      var before, t := targets[..|targets| - 1], targets[|targets| - 1];
      SafeRolesAreKept(before, existing);
      var m := Assign(before, existing).value;
      PickIsNew(t, before, existing, m);
      StillAssigned(t, before, existing, m);
      assert targets == before + [t];
    }
  }

  lemma StillAssigned(t: nat, before: seq<nat>, existing: map<nat, Role>, m: map<Role, nat>)
    requires Injective(existing) && Safe(existing) && t !in before && Assigned(m, before, existing)
    ensures Assigned(m[PickRole(t, existing, m) := t], before + [t], existing)
  {
    PickIsNew(t, before, existing, m);
    var n := m[PickRole(t, existing, m) := t];
    forall u <- before + [t] ensures exists r <- n :: n[r] == u {
      if u != t {
        var r :| r in m && m[r] == u;
        assert n[r] == u;
      } else {
        assert n[PickRole(t, existing, m)] == u;
      }
    }
  }

  /** The role of the i-th selected target: the one it has; otherwise the primary role, if nobody has it and it is the
      first of the new targets, and its own if not. */
  function RoleFor(targets: seq<nat>, existing: map<nat, Role>, i: nat): Role
    requires i < |targets|
  {
    if targets[i] in existing then existing[targets[i]]
    else if Primary !in existing.Values && forall j | 0 <= j < i :: targets[j] in existing then Primary
    else TargetRole(targets[i])
  }

  lemma RoleInPrefix(targets: seq<nat>, existing: map<nat, Role>, i: nat)
    requires i < |targets| - 1
    ensures RoleFor(targets[..|targets| - 1], existing, i) == RoleFor(targets, existing, i)
  {
    var before := targets[..|targets| - 1];
    assert forall j | 0 <= j <= i :: before[j] == targets[j];
  }

  predicate HasItsRole(m: map<Role, nat>, targets: seq<nat>, existing: map<nat, Role>, i: nat)
    requires i < |targets|
  {
    var role := RoleFor(targets, existing, i); role in m && m[role] == targets[i]
  }

  predicate IsDue(role: Role, targets: seq<nat>, existing: map<nat, Role>) {
    exists i: nat | i < |targets| :: role == RoleFor(targets, existing, i)
  }

  /** Every target has its role, and there are no other roles. */
  predicate RolesAreDue(m: map<Role, nat>, targets: seq<nat>, existing: map<nat, Role>) {
    && (forall i: nat | i < |targets| :: HasItsRole(m, targets, existing, i))
    && (forall role <- m :: IsDue(role, targets, existing))
  }

  /** That is the whole assignment from safe roles. */
  lemma {:induction false} AssignmentIsExact(targets: seq<nat>, existing: map<nat, Role>)
    requires Distinct(targets) && Injective(existing) && Safe(existing)
    ensures Assign(targets, existing).Some?
    ensures RolesAreDue(Assign(targets, existing).value, targets, existing)
    decreases |targets|
  {
    hide RoleFor, RolesAreDue, Assigned, Safe, Injective, PickRole;
    if targets == [] {
      NoRolesAreDue(existing);
    } else {
      var (before, t) := (targets[..|targets| - 1], targets[|targets| - 1]);
      AssignmentIsExact(before, existing);
      SafeRolesAreKept(before, existing);
      var m := Assign(before, existing).value;
      PickIsNew(t, before, existing, m);
      PickIsRoleFor(targets, existing, m);
      RolesGrow(targets, existing, m);
    }
  }

  lemma NoRolesAreDue(existing: map<nat, Role>)
    ensures RolesAreDue(map[], [], existing)
  {}

  lemma RolesGrow(targets: seq<nat>, existing: map<nat, Role>, m: map<Role, nat>)
    requires targets != [] && RolesAreDue(m, targets[..|targets| - 1], existing)
    requires RoleFor(targets, existing, |targets| - 1) !in m
    ensures RolesAreDue(m[RoleFor(targets, existing, |targets| - 1) := targets[|targets| - 1]], targets, existing)
  {
    hide RoleFor;
    var n := |targets| - 1;
    var before := targets[..n];
    var last := RoleFor(targets, existing, n);
    var grown := m[last := targets[n]];
    forall i: nat | i < |targets| ensures HasItsRole(grown, targets, existing, i) {
      if i < n {
        RoleInPrefix(targets, existing, i);
        assert HasItsRole(m, before, existing, i);
      }
    }
    forall role <- grown ensures IsDue(role, targets, existing) {
      if role in m {
        var i: nat :| i < n && role == RoleFor(before, existing, i);
        RoleInPrefix(targets, existing, i);
      }
    }
  }

  lemma PickIsRoleFor(targets: seq<nat>, existing: map<nat, Role>, m: map<Role, nat>)
    requires targets != [] && Distinct(targets) && Injective(existing) && Safe(existing)
    requires var before := targets[..|targets| - 1];
      Assigned(m, before, existing) && RolesAreDue(m, before, existing)
    ensures PickRole(targets[|targets| - 1], existing, m) == RoleFor(targets, existing, |targets| - 1)
  {
    var n := |targets| - 1;
    var (before, t) := (targets[..n], targets[n]);
    PickIsNew(t, before, existing, m);
    if t !in existing && Primary !in existing.Values {
      if Primary in m {
        assert m[Primary] in before && m[Primary] !in existing;
        var j :| 0 <= j < n && targets[j] == m[Primary];
      }
      forall j: nat | j < n && targets[j] !in existing ensures Primary in m {
        FirstNewHasPrimary(before, existing, m, j);
      }
    }
  }

  lemma FirstNewHasPrimary(targets: seq<nat>, existing: map<nat, Role>, m: map<Role, nat>, j: nat)
    requires j < |targets| && targets[j] !in existing && Primary !in existing.Values
    requires RolesAreDue(m, targets, existing)
    ensures Primary in m
  {
    FirstNewIsPrimary(targets, existing, j);
    var i: nat :| i < |targets| && RoleFor(targets, existing, i) == Primary;
    assert HasItsRole(m, targets, existing, i);
  }

  /** Wherever there is a new target, the first one has the free primary role. */
  lemma {:induction false} FirstNewIsPrimary(targets: seq<nat>, existing: map<nat, Role>, j: nat)
    requires j < |targets| && Primary !in existing.Values
    ensures targets[j] !in existing ==> exists i: nat | i < |targets| :: RoleFor(targets, existing, i) == Primary
    decreases j
  {
    if targets[j] !in existing {
      if k: nat :| k < j && targets[k] !in existing {
        FirstNewIsPrimary(targets, existing, k);
      } else {
        assert RoleFor(targets, existing, j) == Primary;
      }
    }
  }

  /** And only from safe roles: otherwise some selection of three distinct targets takes a kept target's role
      away from it. */
  lemma UnsafeRolesCanBeLost(existing: map<nat, Role>, t: nat, v: nat)
    requires t in existing && existing[t].TargetRole? && existing[t].target != t && existing[t].target !in existing
    requires v !in existing && v != existing[t].target
    ensures var targets := [v, existing[t].target, t];
      Distinct(targets) && !(Assign(targets, existing).Some? && existing[t] in Assign(targets, existing).value
                             && Assign(targets, existing).value[existing[t]] == t)
  {
    var u := existing[t].target;
    var targets := [v, u, t];
    assert targets[..2][..1] == [v] && targets[..2][1] == u && targets[..1] == [v] && [v][..0] == [];
    assert targets[..2] == [v, u] && [v, u][..1] == [v];
    assert Assign([v], existing).Some? && |Assign([v], existing).value| == 1;
    var one := Assign([v], existing).value;
    assert PickRole(u, existing, one) == TargetRole(u);
    assert Assign([v, u], existing) == Some(one[TargetRole(u) := u]);
  }

  /** From any roles a target whose role another one has taken is assigned as if it had none: the primary role if that
      is free, else its own, and a collision is reported only if that is taken too. */
  lemma DisplacedTargetIsAssignedAsNew(before: seq<nat>, t: nat, existing: map<nat, Role>)
    requires Assign(before, existing).Some? && t in existing && existing[t] in Assign(before, existing).value
    ensures var m := Assign(before, existing).value;
      var role := if Primary !in m && Primary !in existing.Values then Primary else TargetRole(t);
      Assign(before + [t], existing) == if role in m then None else Some(m[role := t])
  {
    assert (before + [t])[..|before|] == before;
  }

  // ----- the draft

  /** What a fingerprint sees of a binding. */
  function Key(b: Binding): (nat, nat, bool) {
    (Target(b), b.native, b.confirmed)
  }

  predicate SameBindings(a: map<Role, Binding>, b: map<Role, Binding>) {
    a.Keys == b.Keys && forall r <- a :: Key(a[r]) == Key(b[r])
  }

  predicate SameIntent(a: Intent, b: Intent) {
    a.settings == b.settings && SameBindings(a.bindings, b.bindings)
  }

  /** `async_commit_water_draft_if_changed`. */
  function Commit(repo: Repo, proposed: Intent, newId: nat): Repo {
    if repo.draft.Some? && SameIntent(proposed, repo.draft.value.intent) then repo
    else if repo.active.Some? && SameIntent(proposed, repo.active.value) then repo.(draft := None)
    else if repo.draft.Some? then
      repo.(draft := Some(Draft(repo.draft.value.id, repo.draft.value.revision + 1, proposed)))
    else repo.(draft := Some(Draft(newId, 1, proposed)))
  }

  /** What the editor starts from. */
  function Source(repo: Repo): Intent {
    if repo.draft.Some? then repo.draft.value.intent else if repo.active.Some? then repo.active.value else EMPTY
  }

  function Selected(intent: Intent): set<nat> {
    set r <- intent.bindings | ValveRole(r) :: Target(intent.bindings[r])
  }

  /** The role a bound target has; if it has several, one of them. */
  ghost function RoleOf(intent: Intent, t: nat): (r: Role)
    requires t in Selected(intent)
    ensures r in intent.bindings && ValveRole(r) && Target(intent.bindings[r]) == t
  {
    var r :| r in intent.bindings && ValveRole(r) && Target(intent.bindings[r]) == t;
    r
  }

  ghost function ExistingRoles(intent: Intent): (m: map<nat, Role>)
    ensures m.Keys == Selected(intent)
  {
    map t <- Selected(intent) :: RoleOf(intent, t)
  }

  /** `native` maps the compatible targets to their native identities. */
  datatype Discovery = Discovery(native: map<nat, nat>)

  function Proposed(source: Intent, taken: map<Role, nat>, d: Discovery): Intent
    requires forall r <- taken :: taken[r] in d.native
  {
    Intent(source.settings.(roles := Some(taken.Keys)),
           map r <- source.bindings.Keys + taken.Keys | r in taken || !ValveRole(r) ::
             if r in taken then Binding(Some(taken[r]), d.native[taken[r]], true) else source.bindings[r])
  }

  datatype Reason = TooMany | Repeated | Incompatible | Collision

  datatype Saved = Saved(repo: Repo) | Refused(reason: Reason)

  predicate Compatible(targets: seq<nat>, d: Discovery) {
    forall t <- targets :: t in d.native
  }

  /** `async_save_water_safety_shutoff_valves_draft` on an editor nobody overtook. */
  ghost function Save(repo: Repo, targets: seq<nat>, d: Discovery, newId: nat): Saved {
    if |targets| > MAX_TARGETS then Refused(TooMany)
    else if !Distinct(targets) then Refused(Repeated)
    else if !Compatible(targets, d) then Refused(Incompatible)
    else
      var taken := Assign(targets, ExistingRoles(Source(repo)));
      if taken.None? then Refused(Collision)
      else
        AssignsOnlyTargets(targets, ExistingRoles(Source(repo)));
        Saved(Commit(repo, Proposed(Source(repo), taken.value, d), newId))
  }

  lemma {:induction false} AssignsOnlyTargets(targets: seq<nat>, existing: map<nat, Role>)
    requires Assign(targets, existing).Some?
    ensures forall r <- Assign(targets, existing).value :: Assign(targets, existing).value[r] in targets
    ensures forall t <- targets :: Distinct(targets) ==>
              exists r <- Assign(targets, existing).value :: Assign(targets, existing).value[r] == t
    ensures forall r <- Assign(targets, existing).value :: ValveRole(r) || r in existing.Values
    decreases |targets|
  {
    if targets != [] {
      var before := targets[..|targets| - 1];
      AssignsOnlyTargets(before, existing);
      var m, n := Assign(before, existing).value, Assign(targets, existing).value;
      forall t <- targets | Distinct(targets) ensures exists r <- n :: n[r] == t {
        if t in before {
          var r :| r in m && m[r] == t;
          assert n[r] == t;
        } else {
          assert t == targets[|targets| - 1];
          assert n[PickRole(t, existing, m)] == t;
        }
      }
    }
  }

  // ----- every role is the primary one or the target's own

  predicate OwnRoles(intent: Intent) {
    && (forall r <- intent.bindings :: r.TargetRole? ==> r.target == Target(intent.bindings[r]))
    && (forall r <- intent.bindings :: !r.OddValve?)
    && (forall r <- intent.bindings, q <- intent.bindings ::
          ValveRole(r) && ValveRole(q) && Target(intent.bindings[r]) == Target(intent.bindings[q]) ==> r == q)
  }

  ghost predicate WellFormed(repo: Repo) {
    && (repo.draft.Some? ==> OwnRoles(repo.draft.value.intent))
    && (repo.active.Some? ==> OwnRoles(repo.active.value))
    && (repo.draft.Some? && repo.active.Some? ==> !SameIntent(repo.draft.value.intent, repo.active.value))
  }

  lemma OwnRolesAreSafe(intent: Intent)
    requires OwnRoles(intent)
    ensures Injective(ExistingRoles(intent)) && Safe(ExistingRoles(intent))
  {}

  /** What one save does to a well-formed repository: it is refused only for the selection itself, never for a
      collision; otherwise exactly the selection is bound, targets that stay keep their roles, roles stay
      distinct and own, the active intent stays, and no stored draft equals it. */
  lemma SaveKeepsRoles(repo: Repo, targets: seq<nat>, d: Discovery, newId: nat)
    requires WellFormed(repo)
    ensures var s := Save(repo, targets, d, newId);
      && (s.Refused? <==> |targets| > MAX_TARGETS || !Distinct(targets) || !Compatible(targets, d))
      && s != Refused(Collision)
      && (s.Saved? ==>
            && WellFormed(s.repo) && s.repo.active == repo.active
            && (forall t :: t in Selected(Source(s.repo)) <==> t in targets)
            && (forall r <- Source(repo).bindings :: ValveRole(r) && Target(Source(repo).bindings[r]) in targets ==>
                  r in Source(s.repo).bindings &&
                  Target(Source(s.repo).bindings[r]) == Target(Source(repo).bindings[r])))
  {
    if |targets| <= MAX_TARGETS && Distinct(targets) && Compatible(targets, d) {
      var source := Source(repo);
      var existing := ExistingRoles(source);
      assert OwnRoles(EMPTY);
      OwnRolesAreSafe(source);
      SafeRolesAreKept(targets, existing);
      var m := Assign(targets, existing).value;
      AssignsOnlyTargets(targets, existing);
      var p := Proposed(source, m, d);
      ProposalBindsTheSelection(source, targets, m, d);
      CommittedSource(repo, p, newId);
      SameBindingsSelectTheSame(Source(Commit(repo, p, newId)), p);
    }
  }

  /** And every selected target is bound under exactly the role that is due to it, the first of a selection under the
      primary role when nothing was bound before. */
  lemma SaveGivesRoles(repo: Repo, targets: seq<nat>, d: Discovery, newId: nat, i: nat)
    requires WellFormed(repo) && Save(repo, targets, d, newId).Saved? && i < |targets|
    ensures var role := RoleFor(targets, ExistingRoles(Source(repo)), i);
      var bindings := Source(Save(repo, targets, d, newId).repo).bindings;
      role in bindings && Target(bindings[role]) == targets[i]
    ensures Selected(Source(repo)) == {} && i == 0 ==> RoleFor(targets, ExistingRoles(Source(repo)), i) == Primary
  {
    var source := Source(repo);
    var existing := ExistingRoles(source);
    assert OwnRoles(EMPTY);
    OwnRolesAreSafe(source);
    AssignmentIsExact(targets, existing);
    var m := Assign(targets, existing).value;
    AssignsOnlyTargets(targets, existing);
    var p := Proposed(source, m, d);
    CommittedSource(repo, p, newId);
    var role := RoleFor(targets, existing, i);
    assert HasItsRole(m, targets, existing, i);
    assert Key(p.bindings[role]) == Key(Source(Commit(repo, p, newId)).bindings[role]);
  }

  /** What is bound under it is confirmed and what discovery found; everything that is no valve stays as it was. */
  lemma SaveLeavesTheRestAlone(repo: Repo, targets: seq<nat>, d: Discovery, newId: nat, r: Role)
    requires Save(repo, targets, d, newId).Saved?
    ensures var (before, after) := (Source(repo), Source(Save(repo, targets, d, newId).repo));
      && after.settings.rest == before.settings.rest
      && (!ValveRole(r) ==> (r in after.bindings <==> r in before.bindings)
                            && (r in after.bindings ==> Key(after.bindings[r]) == Key(before.bindings[r])))
      && (ValveRole(r) && r in after.bindings ==>
            var (t, native, confirmed) := Key(after.bindings[r]);
            t in targets && t in d.native && native == d.native[t] && confirmed)
      && after.settings.roles == Some(set q <- after.bindings | ValveRole(q))
  {
    var source := Source(repo);
    var existing := ExistingRoles(source);
    var m := Assign(targets, existing).value;
    AssignsOnlyTargets(targets, existing);
    ProposalIsSettled(source, targets, m, d);
    var p := Proposed(source, m, d);
    CommittedSource(repo, p, newId);
    var after := Source(Commit(repo, p, newId));
    SettledIsSeenByTheFingerprint(p, after, d);
    if r in after.bindings {
      assert Key(p.bindings[r]) == Key(after.bindings[r]);
    }
  }

  lemma ProposalBindsTheSelection(source: Intent, targets: seq<nat>, m: map<Role, nat>, d: Discovery)
    requires OwnRoles(source) && Compatible(targets, d) && Assigned(m, targets, ExistingRoles(source))
    ensures var p := Proposed(source, m, d);
      && OwnRoles(p)
      && (forall t :: t in Selected(p) <==> t in targets)
      && (forall r <- source.bindings :: ValveRole(r) && Target(source.bindings[r]) in targets ==>
            r in p.bindings && Target(p.bindings[r]) == Target(source.bindings[r]))
  {
    hide OwnRoles, Assigned;
    ProposalHasOwnRoles(source, targets, m, d);
    ProposalSelects(source, targets, m, d);
    ProposalKeepsRoles(source, targets, m, d);
  }

  /** The valve roles of a proposal are those of the assignment, each bound to its target. */
  lemma ProposedValves(source: Intent, m: map<Role, nat>, d: Discovery)
    requires forall r <- m :: m[r] in d.native && ValveRole(r)
    ensures var p := Proposed(source, m, d);
      && (forall r <- p.bindings :: ValveRole(r) ==> r in m)
      && (forall r <- m :: r in p.bindings && Target(p.bindings[r]) == m[r])
  {}

  lemma AssignedValves(targets: seq<nat>, m: map<Role, nat>, source: Intent)
    requires OwnRoles(source) && Assigned(m, targets, ExistingRoles(source))
    ensures forall r <- m :: ValveRole(r) && !r.OddValve? && m[r] in targets && (r.TargetRole? ==> r.target == m[r])
  {
    forall r <- m ensures ValveRole(r) && !r.OddValve? && m[r] in targets && (r.TargetRole? ==> r.target == m[r]) {
      if m[r] in ExistingRoles(source) {
        assert r == RoleOf(source, m[r]);
      }
    }
  }

  lemma ProposalHasOwnRoles(source: Intent, targets: seq<nat>, m: map<Role, nat>, d: Discovery)
    requires OwnRoles(source) && Compatible(targets, d) && Assigned(m, targets, ExistingRoles(source))
    ensures OwnRoles(Proposed(source, m, d))
  {
    AssignedValves(targets, m, source);
    ProposedValves(source, m, d);
  }

  lemma ProposalSelects(source: Intent, targets: seq<nat>, m: map<Role, nat>, d: Discovery)
    requires OwnRoles(source) && Compatible(targets, d) && Assigned(m, targets, ExistingRoles(source))
    ensures forall t :: t in Selected(Proposed(source, m, d)) <==> t in targets
  {
    hide Proposed;
    AssignedValves(targets, m, source);
    ProposedValves(source, m, d);
    var p := Proposed(source, m, d);
    forall t <- targets ensures t in Selected(p) {
      var r :| r in m && m[r] == t;
      assert r in p.bindings && Target(p.bindings[r]) == t;
    }
  }

  lemma ProposalKeepsRoles(source: Intent, targets: seq<nat>, m: map<Role, nat>, d: Discovery)
    requires OwnRoles(source) && Compatible(targets, d) && Assigned(m, targets, ExistingRoles(source))
    ensures var p := Proposed(source, m, d);
      forall r <- source.bindings :: ValveRole(r) && Target(source.bindings[r]) in targets ==>
        r in p.bindings && Target(p.bindings[r]) == Target(source.bindings[r])
  {
    hide Proposed;
    AssignedValves(targets, m, source);
    ProposedValves(source, m, d);
    var p := Proposed(source, m, d);
    forall r <- source.bindings | ValveRole(r) && Target(source.bindings[r]) in targets
      ensures r in p.bindings && Target(p.bindings[r]) == Target(source.bindings[r])
    {
      var t := Target(source.bindings[r]);
      assert t in Selected(source);
      var q :| q in m && m[q] == t;
      assert q == ExistingRoles(source)[t] == r;
    }
  }

  /** After a commit the editor starts from bindings and settings equal to what was proposed. */
  lemma CommittedSource(repo: Repo, proposed: Intent, newId: nat)
    ensures SameIntent(proposed, Source(Commit(repo, proposed, newId)))
    ensures Commit(repo, proposed, newId).active == repo.active
  {}

  lemma SameBindingsSelectTheSame(a: Intent, b: Intent)
    requires SameBindings(a.bindings, b.bindings)
    ensures Selected(a) == Selected(b) && (OwnRoles(a) <==> OwnRoles(b))
  {
    forall t ensures t in Selected(a) <==> t in Selected(b) {
      if t in Selected(a) {
        var r :| r in a.bindings && ValveRole(r) && Target(a.bindings[r]) == t;
        assert Key(a.bindings[r]) == Key(b.bindings[r]);
      }
      if t in Selected(b) {
        var r :| r in b.bindings && ValveRole(r) && Target(b.bindings[r]) == t;
        assert Key(a.bindings[r]) == Key(b.bindings[r]);
      }
    }
    forall r <- a.bindings ensures Target(a.bindings[r]) == Target(b.bindings[r]) {
      assert Key(a.bindings[r]) == Key(b.bindings[r]);
    }
  }

  // ----- saving again

  /** Every selected target of a settled editor is bound, confirmed, to what discovery offers for it, and the
      settings list exactly those roles: what a save leaves. */
  predicate Settled(intent: Intent, d: Discovery) {
    && (forall r <- intent.bindings | ValveRole(r) ::
          var b := intent.bindings[r];
          Target(b) in d.native && b.native == d.native[Target(b)] && b.confirmed)
    && (forall r <- intent.bindings, q <- intent.bindings ::
          ValveRole(r) && ValveRole(q) && Target(intent.bindings[r]) == Target(intent.bindings[q]) ==> r == q)
    && intent.settings.roles == Some(set r <- intent.bindings | ValveRole(r))
  }

  /** Re-assigning exactly the bound targets, in any order, gives every one its role back. */
  lemma {:induction false} BoundTargetsKeepTheirRoles(targets: seq<nat>, existing: map<nat, Role>)
    requires Distinct(targets) && Injective(existing) && (forall t <- targets :: t in existing)
    ensures Assign(targets, existing).Some?
    ensures forall r <- Assign(targets, existing).value ::
              Assign(targets, existing).value[r] in targets && r == existing[Assign(targets, existing).value[r]]
    decreases |targets|
  {
    if targets != [] {
      BoundTargetsKeepTheirRoles(targets[..|targets| - 1], existing);
    }
  }

  /** The assignment of the bound targets is what is bound. */
  lemma ReassignedIsBound(source: Intent, targets: seq<nat>, d: Discovery)
    requires Settled(source, d) && Distinct(targets) && (forall t :: t in targets <==> t in Selected(source))
    ensures var m := Assign(targets, ExistingRoles(source));
      && m.Some?
      && (forall r <- source.bindings :: ValveRole(r) ==> r in m.value && m.value[r] == Target(source.bindings[r]))
      && (forall r <- m.value :: r in source.bindings && ValveRole(r) && Target(source.bindings[r]) == m.value[r])
  {
    var existing := ExistingRoles(source);
    BoundTargetsKeepTheirRoles(targets, existing);
    AssignsOnlyTargets(targets, existing);
    var m := Assign(targets, existing).value;
    forall r <- source.bindings | ValveRole(r) ensures r in m && m[r] == Target(source.bindings[r]) {
      var t := Target(source.bindings[r]);
      assert t in Selected(source);
      var q :| q in m && m[q] == t;
      assert q == existing[t] == r;
    }
    forall r <- m ensures r in source.bindings && ValveRole(r) && Target(source.bindings[r]) == m[r] {
      assert r == existing[m[r]];
    }
  }

  lemma ResavedProposalIsTheSame(source: Intent, targets: seq<nat>, d: Discovery)
    requires Settled(source, d) && Distinct(targets) && (forall t :: t in targets <==> t in Selected(source))
    ensures var m := Assign(targets, ExistingRoles(source));
      && m.Some? && (forall r <- m.value :: m.value[r] in d.native)
      && SameIntent(Proposed(source, m.value, d), source)
  {
    ReassignedIsBound(source, targets, d);
    var m := Assign(targets, ExistingRoles(source)).value;
    assert m.Keys == set r <- source.bindings | ValveRole(r);
    var p := Proposed(source, m, d);
    assert p.bindings.Keys == source.bindings.Keys;
    forall r <- p.bindings ensures Key(p.bindings[r]) == Key(source.bindings[r]) {
      if ValveRole(r) {
        assert m[r] == Target(source.bindings[r]);
      }
    }
  }

  /** What is proposed is settled, whatever the editor started from, as long as roles that existed were valve
      roles of distinct targets. */
  lemma ProposalIsSettled(source: Intent, targets: seq<nat>, m: map<Role, nat>, d: Discovery)
    requires Distinct(targets) && Compatible(targets, d) && Assign(targets, ExistingRoles(source)) == Some(m)
    ensures (forall r <- m :: m[r] in d.native) && Settled(Proposed(source, m, d), d)
  {
    var existing := ExistingRoles(source);
    AssignsOnlyTargets(targets, existing);
    AssignsOnce(targets, existing);
    var p := Proposed(source, m, d);
    assert (set r <- p.bindings | ValveRole(r)) == m.Keys;
  }

  lemma {:induction false} AssignsOnce(targets: seq<nat>, existing: map<nat, Role>)
    requires Distinct(targets) && Assign(targets, existing).Some?
    ensures forall r <- Assign(targets, existing).value, q <- Assign(targets, existing).value ::
              Assign(targets, existing).value[r] == Assign(targets, existing).value[q] ==> r == q
    decreases |targets|
  {
    if targets != [] {
      AssignsOnce(targets[..|targets| - 1], existing);
      AssignsOnlyTargets(targets[..|targets| - 1], existing);
    }
  }

  lemma SettledIsSeenByTheFingerprint(a: Intent, b: Intent, d: Discovery)
    requires SameIntent(a, b) && Settled(a, d)
    ensures Settled(b, d)
  {
    forall r <- b.bindings ensures Key(a.bindings[r]) == Key(b.bindings[r]) {}
    assert (set r <- a.bindings | ValveRole(r)) == (set r <- b.bindings | ValveRole(r));
  }

  lemma ProposalSelectsTargets(source: Intent, targets: seq<nat>, m: map<Role, nat>, d: Discovery)
    requires Distinct(targets) && Compatible(targets, d) && Assign(targets, ExistingRoles(source)) == Some(m)
    ensures (forall r <- m :: m[r] in d.native) && (forall t :: t in Selected(Proposed(source, m, d)) <==> t in targets)
  {
    AssignsOnlyTargets(targets, ExistingRoles(source));
    var p := Proposed(source, m, d);
    forall t | t in targets ensures t in Selected(p) {
      var r :| r in m && m[r] == t;
      assert r in p.bindings && Target(p.bindings[r]) == t;
    }
  }

  function Members(s: seq<nat>): set<nat> {
    set x <- s
  }

  lemma {:induction false} DistinctCount(s: seq<nat>)
    requires Distinct(s)
    ensures |Members(s)| == |s|
    decreases |s|
  {
    if s != [] {
      var before := s[..|s| - 1];
      DistinctCount(before);
      assert Members(s) == Members(before) + {s[|s| - 1]};
    }
  }

  lemma SameMembersSameLength(s: seq<nat>, t: seq<nat>)
    requires Distinct(s) && Distinct(t) && (forall x :: x in s <==> x in t)
    ensures |s| == |t|
  {
    DistinctCount(s);
    DistinctCount(t);
    assert Members(s) == Members(t);
  }

  /** Saving is idempotent, from any repository: after a successful save, saving the reloaded selection again,
      in whatever order it is listed, changes nothing, not even the draft's revision. */
  lemma ResavingWritesNothing(repo: Repo, targets: seq<nat>, again: seq<nat>, d: Discovery, newId: nat, otherId: nat)
    requires Save(repo, targets, d, newId).Saved? && Distinct(again)
    requires forall t :: t in again <==> t in Selected(Source(Save(repo, targets, d, newId).repo))
    ensures Save(Save(repo, targets, d, newId).repo, again, d, otherId) == Save(repo, targets, d, newId)
  {
    var m := Assign(targets, ExistingRoles(Source(repo))).value;
    ProposalIsSettled(Source(repo), targets, m, d);
    var p := Proposed(Source(repo), m, d);
    var s := Commit(repo, p, newId);
    CommittedSource(repo, p, newId);
    SettledIsSeenByTheFingerprint(p, Source(s), d);
    SameBindingsSelectTheSame(p, Source(s));
    ProposalSelectsTargets(Source(repo), targets, m, d);
    SameMembersSameLength(targets, again);
    ReCommitChangesNothing(repo, s, p, newId, again, d, otherId);
  }

  lemma ReCommitChangesNothing(repo: Repo, s: Repo, p: Intent, newId: nat, again: seq<nat>, d: Discovery, otherId: nat)
    requires s == Commit(repo, p, newId) && |again| <= MAX_TARGETS && Distinct(again) && Settled(Source(s), d)
    requires forall t :: t in again <==> t in Selected(Source(s))
    ensures Save(s, again, d, otherId) == Saved(s)
  {
    ResavedProposalIsTheSame(Source(s), again, d);
    var q := Proposed(Source(s), Assign(again, ExistingRoles(Source(s))).value, d);
    forall t <- again ensures t in d.native {
      assert t in Selected(Source(s));
    }
    assert SameIntent(q, Source(s));
    if s.draft.None? {
      assert s.active.Some? && Source(s) == s.active.value;
    }
  }

  // ----- over any sequence of saves

  /** Each save comes with what discovery finds at the time. */
  ghost function SaveAll(repo: Repo, saves: seq<(seq<nat>, Discovery)>): Repo
    decreases |saves|
  {
    if saves == [] then repo
    else
      var s := Save(repo, saves[0].0, saves[0].1, |saves|);
      SaveAll(if s.Saved? then s.repo else repo, saves[1..])
  }

  /** From a well-formed repository, for one the empty one, no sequence of saves ever leaves it, whatever is
      discovered at each: roles stay distinct and each is the primary one or its target's own, and no stored
      draft equals the active intent. */
  lemma {:induction false} SavesStayWellFormed(repo: Repo, saves: seq<(seq<nat>, Discovery)>)
    requires WellFormed(repo)
    ensures WellFormed(SaveAll(repo, saves)) && SaveAll(repo, saves).active == repo.active
    decreases |saves|
  {
    if saves != [] {
      var s := Save(repo, saves[0].0, saves[0].1, |saves|);
      SaveKeepsRoles(repo, saves[0].0, saves[0].1, |saves|);
      SavesStayWellFormed(if s.Saved? then s.repo else repo, saves[1..]);
    }
  }

  /** The draft repository that the commit writes. */
  class DraftRepository {
    var draft: Option<Draft>
    const active: Option<Intent>

    constructor (active: Option<Intent>)
      ensures draft.None? && this.active == active
    {
      this.draft, this.active := None, active;
    }

    function View(): Repo
      reads this
    {
      Repo(draft, active)
    }

    /** `async_commit_water_draft_if_changed`; `result` is the draft it returns. */
    method CommitIfChanged(proposed: Intent, newId: nat) returns (result: Option<Draft>)
      modifies this
      ensures View() == Commit(old(View()), proposed, newId) && result == draft
      ensures old(draft).Some? && SameIntent(proposed, old(draft).value.intent) ==> draft == old(draft)
      ensures draft.Some? && draft != old(draft) ==> draft.value.intent == proposed
      ensures draft.Some? && draft != old(draft) ==>
                draft.value.revision == if old(draft).Some? then old(draft).value.revision + 1 else 1
    {
      if draft.Some? && SameIntent(proposed, draft.value.intent) {
        return draft;
      }
      if active.Some? && SameIntent(proposed, active.value) {
        if draft.Some? {
          draft := None;
        }
        return None;
      }
      if draft.Some? {
        draft := Some(Draft(draft.value.id, draft.value.revision + 1, proposed));
      } else {
        draft := Some(Draft(newId, 1, proposed));
      }
      return draft;
    }
  }
}
