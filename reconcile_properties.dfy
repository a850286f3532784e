/**
 * What a reconciliation pass promises, proved about `Plan` and its phases
 * (and so, through `Reconciler.Reconcile`'s postcondition, about the calls
 * the reconciler issues):
 *   - a dry run makes exactly the listing reads of the live run, fails with
 *     the same error and writes nothing;
 *   - a pass over an already converged state makes no call at all;
 *   - every write touches a role the diff selected;
 *   - an access scope is created at most once per name, never for a name
 *     the listing already has, and the counter of created scopes agrees;
 *   - a role's group batch turns its current members into its desired ones.
 */
module ReconcileProperties {
  import opened Wrappers
  import opened AcsModel
  import opened SeqUtil
  import opened Gateway
  import opened ReconcilePlan

  // Reads and writes.

  /** The listing reads among `calls`, in order. */
  function Reads(calls: seq<Call>): (r: seq<Call>)
    ensures forall x :: x in r <==> x in calls && x.IsRead()
    ensures |r| <= |calls|
  {
    if calls == [] then []
    else (if calls[0].IsRead() then [calls[0]] else []) + Reads(calls[1..])
  }

  lemma {:induction false} ReadsAppend(a: seq<Call>, b: seq<Call>)
    ensures Reads(a + b) == Reads(a) + Reads(b)
  {
    if a == [] {
      assert a + b == b;
    } else {
      assert (a + b)[1..] == a[1..] + b;
      ReadsAppend(a[1..], b);
    }
  }

  lemma NoReads(calls: seq<Call>)
    requires forall x :: x in calls ==> !x.IsRead()
    ensures Reads(calls) == []
  {
    if Reads(calls) != [] {
      assert Reads(calls)[0] in Reads(calls);
    }
  }

  lemma OnlyReads(calls: seq<Call>)
    requires forall x :: x in calls ==> x.IsRead()
    ensures Reads(calls) == calls
  {
    if calls != [] {
      OnlyReads(calls[1..]);
    }
  }

  // The error a phase stops at, defined without reference to the calls.

  /** The first role to add whose permission set the listing lacks. */
  function FirstAddError(roles: seq<Role>, permissionSetIds: map<string, string>): Option<ReconcileError>
  {
    if roles == [] then None
    else if roles[0].permissionSetName !in permissionSetIds then Some(UnknownPermissionSet(roles[0].permissionSetName))
    else FirstAddError(roles[1..], permissionSetIds)
  }

  /** The first role to remove whose access scope the listing lacks. */
  function FirstDeleteError(roles: seq<Role>, scopeIds: map<string, string>): Option<ReconcileError>
  {
    if roles == [] then None
    else if roles[0].accessScope.name !in scopeIds then Some(UnknownAccessScope(roles[0].accessScope.name))
    else FirstDeleteError(roles[1..], scopeIds)
  }

  /**
   * Why a role cannot be rewritten: its fields differ and the listings lack
   * the desired permission set or the current access scope.
   */
  function RewriteError(d: Role, c: Role, scopeIds: map<string, string>, permissionSetIds: map<string, string>)
    : Option<ReconcileError>
  {
    if RoleFieldsDiffer(d, c) && d.permissionSetName !in permissionSetIds then
      Some(UnknownPermissionSet(d.permissionSetName))
    else if RoleFieldsDiffer(d, c) && c.accessScope.name !in scopeIds then
      Some(UnknownAccessScope(c.accessScope.name))
    else None
  }

  /** The first role to rewrite that cannot be rewritten. */
  function FirstUpdateError(
    pairs: seq<(Role, Role)>, scopeIds: map<string, string>, permissionSetIds: map<string, string>): Option<ReconcileError>
  {
    if pairs == [] then None
    else if RewriteError(pairs[0].0, pairs[0].1, scopeIds, permissionSetIds).Some? then
      RewriteError(pairs[0].0, pairs[0].1, scopeIds, permissionSetIds)
    else FirstUpdateError(pairs[1..], scopeIds, permissionSetIds)
  }

  // The add phase.

  /**
   * The add phase stops at the first unknown permission set, whatever the
   * scope cache, the counter and the mode; a dry run issues nothing and
   * leaves the cache and the counter alone; a live run issues only writes.
   */
  lemma {:induction false} AddPhaseFacts(
    roles: seq<Role>, scopeIds: map<string, string>, permissionSetIds: map<string, string>,
    created: nat, newScopeId: nat -> string, authProviderId: string, dryRun: bool)
    ensures var t := AddPhase(roles, scopeIds, permissionSetIds, created, newScopeId, authProviderId, dryRun);
            && t.error == FirstAddError(roles, permissionSetIds)
            && (dryRun ==> t.calls == [] && t.scopeIds == scopeIds && t.created == created)
            && (forall x :: x in t.calls ==> !x.IsRead())
  {
    if roles != [] {
      var step := AddStep(roles[0], scopeIds, permissionSetIds, created, newScopeId, authProviderId, dryRun);
      if step.error.None? {
        AddPhaseFacts(roles[1..], step.scopeIds, permissionSetIds, step.created, newScopeId, authProviderId, dryRun);
      }
    }
  }

  // The delete phase.

  /** The delete phase's counterpart of `AddPhaseFacts`. */
  lemma {:induction false} DeletePhaseFacts(
    roles: seq<Role>, scopeIds: map<string, string>, groups: seq<GroupRecord>, dryRun: bool)
    ensures var t := DeletePhase(roles, scopeIds, groups, dryRun);
            && t.error == FirstDeleteError(roles, scopeIds)
            && (dryRun ==> t.calls == [])
            && (forall x :: x in t.calls ==> !x.IsRead())
  {
    if roles != [] {
      DeletePhaseFacts(roles[1..], scopeIds, groups, dryRun);
    }
  }

  // The update phase.

  /** The update phase's counterpart of `AddPhaseFacts`. */
  lemma {:induction false} UpdatePhaseFacts(
    pairs: seq<(Role, Role)>, scopeIds: map<string, string>, permissionSetIds: map<string, string>,
    groups: seq<GroupRecord>, authProviderId: string, dryRun: bool)
    ensures var t := UpdatePhase(pairs, scopeIds, permissionSetIds, groups, authProviderId, dryRun);
            && t.error == FirstUpdateError(pairs, scopeIds, permissionSetIds)
            && (dryRun ==> t.calls == [])
            && (forall x :: x in t.calls ==> !x.IsRead())
  {
    if pairs != [] {
      UpdateStepFacts(pairs[0].0, pairs[0].1, scopeIds, permissionSetIds, groups, authProviderId, dryRun);
      UpdatePhaseFacts(pairs[1..], scopeIds, permissionSetIds, groups, authProviderId, dryRun);
    }
  }

  lemma UpdateStepFacts(
    d: Role, c: Role, scopeIds: map<string, string>, permissionSetIds: map<string, string>,
    groups: seq<GroupRecord>, authProviderId: string, dryRun: bool)
    ensures var t := UpdateStep(d, c, scopeIds, permissionSetIds, groups, authProviderId, dryRun);
            && t.error == RewriteError(d, c, scopeIds, permissionSetIds)
            && (t.error.Some? || dryRun ==> t.calls == [])
            && (forall x :: x in t.calls ==> !x.IsRead())
  {
    var t := UpdateStep(d, c, scopeIds, permissionSetIds, groups, authProviderId, dryRun);
    if RewriteError(d, c, scopeIds, permissionSetIds).None? && !dryRun {
      var scope := d.accessScope;
      var scopeCall :=
        if scope != c.accessScope then
          [UpdateAccessScope(scopeIds[c.accessScope.name], scope.name, scope.description, scope.clusters, scope.namespaces)]
        else [];
      var roleCall :=
        if RoleFieldsDiffer(d, c) then
          [UpdateRole(d.name, d.description, permissionSetIds[d.permissionSetName], scopeIds[c.accessScope.name])]
        else [];
      var groupCall := GroupUpdate(d, c, groups, authProviderId);
      assert t.calls == scopeCall + roleCall + groupCall;
      assert forall x :: x in t.calls ==> x in scopeCall || x in roleCall || x in groupCall;
    }
  }

  // Dry run, phase by phase and for the whole pass.

  /** The listings a phase reads when it has work. */
  lemma AddPartDryRun(toAdd: seq<Role>, p: Platform, created: nat, newScopeId: nat -> string, authProviderId: string)
    ensures var live := AddPart(toAdd, p, created, newScopeId, authProviderId, false);
            var dry := AddPart(toAdd, p, created, newScopeId, authProviderId, true);
            && dry.calls == Reads(live.calls)
            && dry.calls == (if toAdd == [] then [] else [GetAccessScopes, GetPermissionSets])
            && dry.error == live.error
            && dry.created == created
  {
    if toAdd != [] {
      var s, ps := ScopeIdIndex(p.accessScopes), PermissionSetIdIndex(p.permissionSets);
      var live := AddPhase(toAdd, s, ps, created, newScopeId, authProviderId, false);
      AddPhaseFacts(toAdd, s, ps, created, newScopeId, authProviderId, false);
      AddPhaseFacts(toAdd, s, ps, created, newScopeId, authProviderId, true);
      ReadsAppend([GetAccessScopes, GetPermissionSets], live.calls);
      NoReads(live.calls);
      OnlyReads([GetAccessScopes, GetPermissionSets]);
    }
  }

  lemma DeletePartDryRun(toDelete: seq<Role>, p: Platform)
    ensures var live := DeletePart(toDelete, p, false);
            var dry := DeletePart(toDelete, p, true);
            && dry.calls == Reads(live.calls)
            && dry.calls == (if toDelete == [] then [] else [GetAccessScopes, GetGroups])
            && dry.error == live.error
  {
    if toDelete != [] {
      var s := ScopeIdIndex(p.accessScopes);
      var live := DeletePhase(toDelete, s, p.groups, false);
      DeletePhaseFacts(toDelete, s, p.groups, false);
      DeletePhaseFacts(toDelete, s, p.groups, true);
      ReadsAppend([GetAccessScopes, GetGroups], live.calls);
      NoReads(live.calls);
      OnlyReads([GetAccessScopes, GetGroups]);
    }
  }

  lemma UpdatePartDryRun(toUpdate: seq<(Role, Role)>, p: Platform, authProviderId: string)
    ensures var live := UpdatePart(toUpdate, p, authProviderId, false);
            var dry := UpdatePart(toUpdate, p, authProviderId, true);
            && dry.calls == Reads(live.calls)
            && dry.calls == (if toUpdate == [] then [] else [GetAccessScopes, GetPermissionSets, GetGroups])
            && dry.error == live.error
  {
    if toUpdate != [] {
      var s, ps := ScopeIdIndex(p.accessScopes), PermissionSetIdIndex(p.permissionSets);
      var live := UpdatePhase(toUpdate, s, ps, p.groups, authProviderId, false);
      UpdatePhaseFacts(toUpdate, s, ps, p.groups, authProviderId, false);
      UpdatePhaseFacts(toUpdate, s, ps, p.groups, authProviderId, true);
      ReadsAppend([GetAccessScopes, GetPermissionSets, GetGroups], live.calls);
      NoReads(live.calls);
      OnlyReads([GetAccessScopes, GetPermissionSets, GetGroups]);
    }
  }

  /**
   * dry_run: the pass makes exactly the listing reads the live pass makes,
   * in the same order, stops with the same error, and creates no scope.
   */
  lemma DryRunReadsOnly(
    desired: seq<Role>, current: seq<Role>, p: Platform, newScopeId: nat -> string, created: nat, authProviderId: string)
    ensures var live := Plan(desired, current, p, newScopeId, created, authProviderId, false);
            var dry := Plan(desired, current, p, newScopeId, created, authProviderId, true);
            && dry.calls == Reads(live.calls)
            && (forall x :: x in dry.calls ==> x.IsRead())
            && dry.error == live.error
            && dry.created == created
  {
    var toAdd, toDelete, toUpdate :=
      RolesToAdd(desired, current), RolesToDelete(desired, current), RolesToUpdate(desired, current);
    AddPartDryRun(toAdd, p, created, newScopeId, authProviderId);
    DeletePartDryRun(toDelete, p);
    UpdatePartDryRun(toUpdate, p, authProviderId);
    var add := AddPart(toAdd, p, created, newScopeId, authProviderId, false);
    var del := DeletePart(toDelete, p, false);
    var upd := UpdatePart(toUpdate, p, authProviderId, false);
    ReadsAppend(add.calls, del.calls);
    ReadsAppend(add.calls + del.calls, upd.calls);
  }

  // A converged state.

  lemma FirstName(roles: seq<Role>)
    ensures roles != [] ==> roles[0] in roles && roles[0].name in NameSet(roles)
  {
  }

  /** A role already present under its name, names being unique, is found unchanged. */
  lemma {:induction false} NothingChanged(desired: seq<Role>, current: seq<Role>)
    requires DistinctNames(current)
    requires forall d :: d in desired ==> d in current
    ensures Changed(desired, current) == []
  {
    if desired != [] {
      var d := desired[0];
      assert d in current;
      var j :| 0 <= j < |current| && current[j] == d;
      var i := IndexOfName(current, d.name);
      assert i <= j;
      assert current[i] == d;
      NothingChanged(desired[1..], current);
    }
  }

  /**
   * Reconciling a state with itself issues no call, not even a listing, and
   * succeeds: a pass over a converged platform is a no-op.
   */
  lemma ConvergedPassIsSilent(
    roles: seq<Role>, p: Platform, newScopeId: nat -> string, created: nat, authProviderId: string, dryRun: bool)
    ensures Plan(roles, roles, p, newScopeId, created, authProviderId, dryRun) == PassTrace([], created, None)
  {
    FirstName(RolesToAdd(roles, roles));
    FirstName(RolesToDelete(roles, roles));
    NothingChanged(Keyed(roles), Keyed(roles));
  }

  // Access scopes created by the add phase.

  /** The names of the access scopes `calls` create, in order. */
  function CreatedScopeNames(calls: seq<Call>): (names: seq<string>)
    ensures forall n :: n in names <==> exists x :: x in calls && x.CreateAccessScope? && x.name == n
  {
    if calls == [] then []
    else (if calls[0].CreateAccessScope? then [calls[0].name] else []) + CreatedScopeNames(calls[1..])
  }

  lemma {:induction false} CreatedScopeNamesAppend(a: seq<Call>, b: seq<Call>)
    ensures CreatedScopeNames(a + b) == CreatedScopeNames(a) + CreatedScopeNames(b)
  {
    if a == [] {
      assert a + b == b;
    } else {
      assert (a + b)[1..] == a[1..] + b;
      CreatedScopeNamesAppend(a[1..], b);
    }
  }

  lemma NoScopeCreated(calls: seq<Call>)
    requires forall x :: x in calls ==> !x.CreateAccessScope?
    ensures CreatedScopeNames(calls) == []
  {
    if CreatedScopeNames(calls) != [] {
      assert CreatedScopeNames(calls)[0] in CreatedScopeNames(calls);
    }
  }

  /** One role adds at most one scope, under a name the cache lacks, and caches it. */
  lemma AddStepScopes(
    role: Role, scopeIds: map<string, string>, permissionSetIds: map<string, string>,
    created: nat, newScopeId: nat -> string, authProviderId: string, dryRun: bool)
    ensures var t := AddStep(role, scopeIds, permissionSetIds, created, newScopeId, authProviderId, dryRun);
            var names := CreatedScopeNames(t.calls);
            && (names == [] || names == [role.accessScope.name])
            && (forall n :: n in names ==> n !in scopeIds)
            && (forall n :: n in t.scopeIds <==> n in scopeIds || n in names)
            && (forall n :: n in scopeIds ==> t.scopeIds[n] == scopeIds[n])
            && t.created == created + |names|
  {
    var t := AddStep(role, scopeIds, permissionSetIds, created, newScopeId, authProviderId, dryRun);
    if role.permissionSetName in permissionSetIds && !dryRun {
      var scope := role.accessScope;
      var psId := permissionSetIds[role.permissionSetName];
      if scope.name in scopeIds {
        NoScopeCreated(RoleCreation(role, psId, scopeIds[scope.name], authProviderId));
      } else {
        var id := newScopeId(created);
        var create := CreateAccessScope(scope.name, scope.description, scope.clusters, scope.namespaces);
        CreatedScopeNamesAppend([create], RoleCreation(role, psId, id, authProviderId));
        NoScopeCreated(RoleCreation(role, psId, id, authProviderId));
        assert CreatedScopeNames([create]) == [scope.name];
      }
    }
  }

  /**
   * The scope one role creates is the role's own scope, with all its fields,
   * and it is cached under the id the platform gave this creation.
   */
  lemma AddStepCreation(
    role: Role, scopeIds: map<string, string>, permissionSetIds: map<string, string>,
    created: nat, newScopeId: nat -> string, authProviderId: string, dryRun: bool)
    ensures var t := AddStep(role, scopeIds, permissionSetIds, created, newScopeId, authProviderId, dryRun);
            && (CreatedScopeNames(t.calls) != [] ==>
                  && role.accessScope.name in t.scopeIds
                  && t.scopeIds[role.accessScope.name] == newScopeId(created)
                  && ScopeCreation(role.accessScope) in t.calls)
            && (forall x :: x in t.calls && x.CreateAccessScope? ==> x == ScopeCreation(role.accessScope))
  {
    var t := AddStep(role, scopeIds, permissionSetIds, created, newScopeId, authProviderId, dryRun);
    if role.permissionSetName in permissionSetIds && !dryRun {
      var scope := role.accessScope;
      var psId := permissionSetIds[role.permissionSetName];
      if scope.name in scopeIds {
        NoScopeCreated(RoleCreation(role, psId, scopeIds[scope.name], authProviderId));
      } else {
        var id := newScopeId(created);
        var create := CreateAccessScope(scope.name, scope.description, scope.clusters, scope.namespaces);
        CreatedScopeNamesAppend([create], RoleCreation(role, psId, id, authProviderId));
        NoScopeCreated(RoleCreation(role, psId, id, authProviderId));
        assert CreatedScopeNames([create]) == [scope.name];
      }
    }
  }

  /**
   * The add phase creates each access scope at most once, never one whose
   * name the listing (or an earlier creation) already has, keeps the listed
   * ids, and counts exactly the scopes it creates.
   */
  lemma {:induction false} AddPhaseScopes(
    roles: seq<Role>, scopeIds: map<string, string>, permissionSetIds: map<string, string>,
    created: nat, newScopeId: nat -> string, authProviderId: string, dryRun: bool)
    ensures var t := AddPhase(roles, scopeIds, permissionSetIds, created, newScopeId, authProviderId, dryRun);
            var names := CreatedScopeNames(t.calls);
            && Distinct(names)
            && (forall n :: n in names ==> n !in scopeIds)
            && (forall n :: n in t.scopeIds <==> n in scopeIds || n in names)
            && (forall n :: n in scopeIds ==> t.scopeIds[n] == scopeIds[n])
            && t.created == created + |names|
  {
    if roles != [] {
      var step := AddStep(roles[0], scopeIds, permissionSetIds, created, newScopeId, authProviderId, dryRun);
      AddStepScopes(roles[0], scopeIds, permissionSetIds, created, newScopeId, authProviderId, dryRun);
      if step.error.None? {
        var rest := AddPhase(roles[1..], step.scopeIds, permissionSetIds, step.created, newScopeId, authProviderId, dryRun);
        AddPhaseScopes(roles[1..], step.scopeIds, permissionSetIds, step.created, newScopeId, authProviderId, dryRun);
        CreatedScopeNamesAppend(step.calls, rest.calls);
      }
    }
  }

  /** The create_access_scope call for a desired scope, carrying all its fields. */
  function ScopeCreation(scope: AccessScope): Call
  {
    CreateAccessScope(scope.name, scope.description, scope.clusters, scope.namespaces)
  }

  /** The k-th scope in `names` is recorded in `ids` under the k-th id handed out from `created` on. */
  predicate IdsInCreationOrder(names: seq<string>, ids: map<string, string>, created: nat, newScopeId: nat -> string)
  {
    forall k :: 0 <= k < |names| ==> names[k] in ids && ids[names[k]] == newScopeId(created + k)
  }

  /**
   * The scopes the add phase creates are remembered in creation order: the
   * k-th one created is recorded under the id the platform gave the k-th
   * creation of the pass.
   */
  lemma {:induction false} AddPhaseCreatedIds(
    roles: seq<Role>, scopeIds: map<string, string>, permissionSetIds: map<string, string>,
    created: nat, newScopeId: nat -> string, authProviderId: string, dryRun: bool)
    ensures var t := AddPhase(roles, scopeIds, permissionSetIds, created, newScopeId, authProviderId, dryRun);
            IdsInCreationOrder(CreatedScopeNames(t.calls), t.scopeIds, created, newScopeId)
  {
    if roles != [] {
      var step := AddStep(roles[0], scopeIds, permissionSetIds, created, newScopeId, authProviderId, dryRun);
      var sn, name := CreatedScopeNames(step.calls), roles[0].accessScope.name;
      assert sn == [] || (sn == [name] && name in step.scopeIds && step.scopeIds[name] == newScopeId(created)) by {
        AddStepScopes(roles[0], scopeIds, permissionSetIds, created, newScopeId, authProviderId, dryRun);
        AddStepCreation(roles[0], scopeIds, permissionSetIds, created, newScopeId, authProviderId, dryRun);
      }
      assert step.created == created + |sn| by {
        AddStepScopes(roles[0], scopeIds, permissionSetIds, created, newScopeId, authProviderId, dryRun);
      }
      if step.error.None? {
        var rest := AddPhase(roles[1..], step.scopeIds, permissionSetIds, step.created, newScopeId, authProviderId, dryRun);
        AddPhaseCreatedIds(roles[1..], step.scopeIds, permissionSetIds, step.created, newScopeId, authProviderId, dryRun);
        assert forall n :: n in step.scopeIds ==> n in rest.scopeIds && rest.scopeIds[n] == step.scopeIds[n] by {
          AddPhaseScopes(roles[1..], step.scopeIds, permissionSetIds, step.created, newScopeId, authProviderId, dryRun);
        }
        CreatedIdsJoin(sn, CreatedScopeNames(rest.calls), name, step.scopeIds, rest.scopeIds, created, step.created, newScopeId);
        CreatedScopeNamesAppend(step.calls, rest.calls);
      } else {
        assert step.calls == [];
      }
    }
  }

  /** Joining the ids one add step created with those the rest of the phase created. */
  lemma CreatedIdsJoin(
    sn: seq<string>, rn: seq<string>, name: string, stepIds: map<string, string>, restIds: map<string, string>,
    created: nat, stepCreated: nat, newScopeId: nat -> string)
    requires sn == [] || (sn == [name] && name in stepIds && stepIds[name] == newScopeId(created))
    requires stepCreated == created + |sn|
    requires forall n :: n in stepIds ==> n in restIds && restIds[n] == stepIds[n]
    requires IdsInCreationOrder(rn, restIds, stepCreated, newScopeId)
    ensures IdsInCreationOrder(sn + rn, restIds, created, newScopeId)
  {
    forall k | 0 <= k < |sn + rn|
      ensures (sn + rn)[k] in restIds && restIds[(sn + rn)[k]] == newScopeId(created + k)
    {
      if k < |sn| {
        assert (sn + rn)[k] == name;
      } else {
        assert (sn + rn)[k] == rn[k - |sn|];
      }
    }
  }

  /**
   * Every access scope the add phase creates carries the name, description,
   * clusters and namespaces of the scope of one of the roles being added.
   */
  lemma {:induction false} AddPhaseCreationFields(
    roles: seq<Role>, scopeIds: map<string, string>, permissionSetIds: map<string, string>,
    created: nat, newScopeId: nat -> string, authProviderId: string, dryRun: bool)
    ensures var t := AddPhase(roles, scopeIds, permissionSetIds, created, newScopeId, authProviderId, dryRun);
            forall x :: x in t.calls && x.CreateAccessScope? ==> exists r :: r in roles && x == ScopeCreation(r.accessScope)
  {
    if roles != [] {
      var step := AddStep(roles[0], scopeIds, permissionSetIds, created, newScopeId, authProviderId, dryRun);
      AddStepCreation(roles[0], scopeIds, permissionSetIds, created, newScopeId, authProviderId, dryRun);
      if step.error.None? {
        var rest := AddPhase(roles[1..], step.scopeIds, permissionSetIds, step.created, newScopeId, authProviderId, dryRun);
        AddPhaseCreationFields(roles[1..], step.scopeIds, permissionSetIds, step.created, newScopeId, authProviderId, dryRun);
        forall x | x in step.calls + rest.calls && x.CreateAccessScope?
          ensures exists r :: r in roles && x == ScopeCreation(r.accessScope)
        {
          if x in step.calls {
            assert roles[0] in roles;
          } else {
            var r :| r in roles[1..] && x == ScopeCreation(r.accessScope);
            assert r in roles;
          }
        }
      }
    }
  }

  // Which roles the writes touch.

  /**
   * A call creates only roles (and their groups) named in `added`, removes
   * only roles (and their groups) named in `removed`, and rewrites only
   * roles (and their groups) named in `rewritten`.
   */
  predicate Touches(x: Call, added: set<string>, removed: set<string>, rewritten: set<string>)
  {
    match x
    case CreateRole(name, _, _, _) => name in added
    case CreateGroupBatch(additions) => forall g :: g in additions ==> g.roleName in added
    case DeleteRole(name) => name in removed
    case DeleteGroupBatch(groups) => forall g :: g in groups ==> g.roleName in removed
    case UpdateRole(name, _, _, _) => name in rewritten
    case UpdateGroupBatch(removals, additions) =>
      (forall g :: g in removals ==> g.roleName in rewritten) && (forall g :: g in additions ==> g.roleName in rewritten)
    case _ => true
  }

  lemma {:induction false} AddPhaseTouches(
    roles: seq<Role>, scopeIds: map<string, string>, permissionSetIds: map<string, string>,
    created: nat, newScopeId: nat -> string, authProviderId: string, dryRun: bool,
    added: set<string>, removed: set<string>, rewritten: set<string>)
    requires NameSet(roles) <= added
    ensures forall x :: x in AddPhase(roles, scopeIds, permissionSetIds, created, newScopeId, authProviderId, dryRun).calls ==>
              Touches(x, added, removed, rewritten)
  {
    if roles != [] {
      var step := AddStep(roles[0], scopeIds, permissionSetIds, created, newScopeId, authProviderId, dryRun);
      assert roles[0] in roles;
      assert NameSet(roles[1..]) <= NameSet(roles) by {
        forall r | r in roles[1..] ensures r in roles { }
      }
      if step.error.None? {
        AddPhaseTouches(roles[1..], step.scopeIds, permissionSetIds, step.created, newScopeId, authProviderId, dryRun,
                        added, removed, rewritten);
      }
    }
  }

  lemma {:induction false} DeletePhaseTouches(
    roles: seq<Role>, scopeIds: map<string, string>, groups: seq<GroupRecord>, dryRun: bool,
    added: set<string>, removed: set<string>, rewritten: set<string>)
    requires NameSet(roles) <= removed
    ensures forall x :: x in DeletePhase(roles, scopeIds, groups, dryRun).calls ==> Touches(x, added, removed, rewritten)
  {
    if roles != [] {
      assert roles[0] in roles;
      assert NameSet(roles[1..]) <= NameSet(roles) by {
        forall r | r in roles[1..] ensures r in roles { }
      }
      DeletePhaseTouches(roles[1..], scopeIds, groups, dryRun, added, removed, rewritten);
    }
  }

  lemma UpdateStepTouches(
    d: Role, c: Role, scopeIds: map<string, string>, permissionSetIds: map<string, string>,
    groups: seq<GroupRecord>, authProviderId: string, dryRun: bool,
    added: set<string>, removed: set<string>, rewritten: set<string>)
    requires d.name == c.name && d.name in rewritten
    ensures forall x :: x in UpdateStep(d, c, scopeIds, permissionSetIds, groups, authProviderId, dryRun).calls ==>
              Touches(x, added, removed, rewritten)
  {
    var t := UpdateStep(d, c, scopeIds, permissionSetIds, groups, authProviderId, dryRun);
    if RewriteError(d, c, scopeIds, permissionSetIds).None? && !dryRun {
      var scope := d.accessScope;
      var scopeCall :=
        if scope != c.accessScope then
          [UpdateAccessScope(scopeIds[c.accessScope.name], scope.name, scope.description, scope.clusters, scope.namespaces)]
        else [];
      var roleCall :=
        if RoleFieldsDiffer(d, c) then
          [UpdateRole(d.name, d.description, permissionSetIds[d.permissionSetName], scopeIds[c.accessScope.name])]
        else [];
      var groupCall := GroupUpdate(d, c, groups, authProviderId);
      assert t.calls == scopeCall + roleCall + groupCall;
      assert forall x :: x in groupCall ==> Touches(x, added, removed, rewritten);
    }
  }

  lemma {:induction false} UpdatePhaseTouches(
    pairs: seq<(Role, Role)>, scopeIds: map<string, string>, permissionSetIds: map<string, string>,
    groups: seq<GroupRecord>, authProviderId: string, dryRun: bool,
    added: set<string>, removed: set<string>, rewritten: set<string>)
    requires forall q :: q in pairs ==> q.0.name == q.1.name && q.0.name in rewritten
    ensures forall x :: x in UpdatePhase(pairs, scopeIds, permissionSetIds, groups, authProviderId, dryRun).calls ==>
              Touches(x, added, removed, rewritten)
  {
    if pairs != [] {
      assert pairs[0] in pairs;
      UpdateStepTouches(pairs[0].0, pairs[0].1, scopeIds, permissionSetIds, groups, authProviderId, dryRun,
                        added, removed, rewritten);
      assert forall q :: q in pairs[1..] ==> q in pairs;
      UpdatePhaseTouches(pairs[1..], scopeIds, permissionSetIds, groups, authProviderId, dryRun,
                         added, removed, rewritten);
    }
  }

  lemma AddPartTouches(
    toAdd: seq<Role>, p: Platform, created: nat, newScopeId: nat -> string, authProviderId: string, dryRun: bool,
    added: set<string>, removed: set<string>, rewritten: set<string>)
    requires NameSet(toAdd) <= added
    ensures forall x :: x in AddPart(toAdd, p, created, newScopeId, authProviderId, dryRun).calls ==>
              Touches(x, added, removed, rewritten)
  {
    if toAdd != [] {
      AddPhaseTouches(toAdd, ScopeIdIndex(p.accessScopes), PermissionSetIdIndex(p.permissionSets),
                      created, newScopeId, authProviderId, dryRun, added, removed, rewritten);
    }
  }

  lemma DeletePartTouches(
    toDelete: seq<Role>, p: Platform, dryRun: bool, added: set<string>, removed: set<string>, rewritten: set<string>)
    requires NameSet(toDelete) <= removed
    ensures forall x :: x in DeletePart(toDelete, p, dryRun).calls ==> Touches(x, added, removed, rewritten)
  {
    if toDelete != [] {
      DeletePhaseTouches(toDelete, ScopeIdIndex(p.accessScopes), p.groups, dryRun, added, removed, rewritten);
    }
  }

  lemma UpdatePartTouches(
    toUpdate: seq<(Role, Role)>, p: Platform, authProviderId: string, dryRun: bool,
    added: set<string>, removed: set<string>, rewritten: set<string>)
    requires forall q :: q in toUpdate ==> q.0.name == q.1.name && q.0.name in rewritten
    ensures forall x :: x in UpdatePart(toUpdate, p, authProviderId, dryRun).calls ==> Touches(x, added, removed, rewritten)
  {
    if toUpdate != [] {
      UpdatePhaseTouches(toUpdate, ScopeIdIndex(p.accessScopes), PermissionSetIdIndex(p.permissionSets),
                         p.groups, authProviderId, dryRun, added, removed, rewritten);
    }
  }

  /**
   * Every write of a pass follows the name-keyed diff: roles (and groups)
   * are created only for names missing from the platform, removed only for
   * names no longer wanted, and rewritten only for names on both sides.
   */
  lemma WritesFollowTheDiff(
    desired: seq<Role>, current: seq<Role>, p: Platform, newScopeId: nat -> string, created: nat,
    authProviderId: string, dryRun: bool)
    ensures forall x :: x in Plan(desired, current, p, newScopeId, created, authProviderId, dryRun).calls ==>
              Touches(x, NameSet(desired) - NameSet(current), NameSet(current) - NameSet(desired),
                      NameSet(desired) * NameSet(current))
  {
    var added, removed, rewritten :=
      NameSet(desired) - NameSet(current), NameSet(current) - NameSet(desired), NameSet(desired) * NameSet(current);
    var toAdd, toDelete, toUpdate :=
      RolesToAdd(desired, current), RolesToDelete(desired, current), RolesToUpdate(desired, current);
    var add := AddPart(toAdd, p, created, newScopeId, authProviderId, dryRun);
    var del := DeletePart(toDelete, p, dryRun);
    var upd := UpdatePart(toUpdate, p, authProviderId, dryRun);
    AddPartTouches(toAdd, p, created, newScopeId, authProviderId, dryRun, added, removed, rewritten);
    DeletePartTouches(toDelete, p, dryRun, added, removed, rewritten);
    UpdatePartTouches(toUpdate, p, authProviderId, dryRun, added, removed, rewritten);
    var calls := Plan(desired, current, p, newScopeId, created, authProviderId, dryRun).calls;
    PlanShape(desired, current, p, newScopeId, created, authProviderId, dryRun);
    PrefixTouches(add.calls, del.calls, upd.calls, calls, added, removed, rewritten);
  }

  /** A pass issues the additions' calls, then possibly the removals', then possibly the updates'. */
  lemma PlanShape(
    desired: seq<Role>, current: seq<Role>, p: Platform, newScopeId: nat -> string, created: nat,
    authProviderId: string, dryRun: bool)
    ensures var add := AddPart(RolesToAdd(desired, current), p, created, newScopeId, authProviderId, dryRun);
            var del := DeletePart(RolesToDelete(desired, current), p, dryRun);
            var upd := UpdatePart(RolesToUpdate(desired, current), p, authProviderId, dryRun);
            var calls := Plan(desired, current, p, newScopeId, created, authProviderId, dryRun).calls;
            calls == add.calls || calls == add.calls + del.calls || calls == add.calls + del.calls + upd.calls
  {
  }

  lemma PrefixTouches(
    a: seq<Call>, b: seq<Call>, c: seq<Call>, calls: seq<Call>,
    added: set<string>, removed: set<string>, rewritten: set<string>)
    requires forall x :: x in a ==> Touches(x, added, removed, rewritten)
    requires forall x :: x in b ==> Touches(x, added, removed, rewritten)
    requires forall x :: x in c ==> Touches(x, added, removed, rewritten)
    requires calls == a || calls == a + b || calls == a + b + c
    ensures forall x :: x in calls ==> Touches(x, added, removed, rewritten)
  {
  }

  // Group batches converge.

  /** The role's members on the platform are exactly the pairs of its groups. */
  ghost predicate HeldAsGroups(c: Role, groups: seq<GroupRecord>)
  {
    forall a :: a in c.assignments <==> exists g :: g in groups && g.roleName == c.name && a == PairOf(g)
  }

  /** The members a role holds once a batch has removed and added groups. */
  function PairsAfterBatch(
    groups: seq<GroupRecord>, roleName: string, removals: seq<GroupRecord>, additions: seq<GroupAdd>): set<AssignmentPair>
  {
    (set g | g in groups && g.roleName == roleName && g !in removals :: PairOf(g))
      + (set a | a in additions :: AssignmentPair(a.key, a.value))
  }

  /**
   * The batch an update issues leaves the role with exactly the desired
   * members: the groups it keeps plus the groups it adds hold every desired
   * pair and no other.
   */
  lemma GroupBatchConverges(d: Role, c: Role, groups: seq<GroupRecord>, authProviderId: string)
    requires d.name == c.name
    requires HeldAsGroups(c, groups)
    ensures var removals := StaleGroups(GroupsOf(groups, c.name), d.assignments);
            var additions := GroupAdds(d.name, MissingAssignments(d.assignments, c.assignments), authProviderId);
            PairsAfterBatch(groups, c.name, removals, additions) == set x | x in d.assignments
  {
    var held := GroupsOf(groups, c.name);
    var removals := StaleGroups(held, d.assignments);
    var missing := MissingAssignments(d.assignments, c.assignments);
    var additions := GroupAdds(d.name, missing, authProviderId);
    var after := PairsAfterBatch(groups, c.name, removals, additions);
    forall x | x in after ensures x in d.assignments {
      if g :| g in groups && g.roleName == c.name && g !in removals && x == PairOf(g) {
        assert g in held;
      } else {
        var a :| a in additions && x == AssignmentPair(a.key, a.value);
        var i :| 0 <= i < |additions| && additions[i] == a;
        assert missing[i] in missing;
      }
    }
    forall x | x in d.assignments ensures x in after {
      if x in c.assignments {
        var g :| g in groups && g.roleName == c.name && x == PairOf(g);
        assert g in held && g !in removals;
      } else {
        var i :| 0 <= i < |missing| && missing[i] == x;
        assert additions[i] in additions;
      }
    }
  }

  /**
   * An update sends no group batch exactly when the role already holds the
   * desired members.
   */
  lemma GroupUpdateSilent(d: Role, c: Role, groups: seq<GroupRecord>, authProviderId: string)
    requires d.name == c.name
    requires HeldAsGroups(c, groups)
    ensures GroupUpdate(d, c, groups, authProviderId) == [] <==>
              forall x :: x in d.assignments <==> x in c.assignments
  {
    var held := GroupsOf(groups, c.name);
    var removals := StaleGroups(held, d.assignments);
    var missing := MissingAssignments(d.assignments, c.assignments);
    var additions := GroupAdds(d.name, missing, authProviderId);
    if removals == [] && additions == [] {
      forall x | x in c.assignments ensures x in d.assignments {
        var g :| g in groups && g.roleName == c.name && x == PairOf(g);
        assert g in held && g !in removals;
      }
      forall x | x in d.assignments ensures x in c.assignments {
        assert x !in missing;
      }
    } else if removals != [] {
      // a held group whose pair is not wanted
      var g := removals[0];
      assert g in removals && g in held;
      assert PairOf(g) in c.assignments && PairOf(g) !in d.assignments;
    } else {
      // a wanted pair not held
      assert missing[0] in missing;
    }
  }

  /** A live update of one role, as its scope call, its role call and its group call. */
  lemma UpdateStepParts(
    d: Role, c: Role, scopeIds: map<string, string>, permissionSetIds: map<string, string>,
    groups: seq<GroupRecord>, authProviderId: string)
    returns (scopeCall: seq<Call>, roleCall: seq<Call>, groupCall: seq<Call>)
    requires RewriteError(d, c, scopeIds, permissionSetIds).None?
    ensures UpdateStep(d, c, scopeIds, permissionSetIds, groups, authProviderId, false).calls
              == scopeCall + roleCall + groupCall
    ensures d.accessScope != c.accessScope ==> c.accessScope.name in scopeIds
    ensures scopeCall == if d.accessScope == c.accessScope then [] else
              [UpdateAccessScope(scopeIds[c.accessScope.name], d.accessScope.name, d.accessScope.description,
                                 d.accessScope.clusters, d.accessScope.namespaces)]
    ensures RoleFieldsDiffer(d, c) ==> d.permissionSetName in permissionSetIds && c.accessScope.name in scopeIds
    ensures roleCall == if !RoleFieldsDiffer(d, c) then [] else
              [UpdateRole(d.name, d.description, permissionSetIds[d.permissionSetName], scopeIds[c.accessScope.name])]
    ensures groupCall == GroupUpdate(d, c, groups, authProviderId)
  {
    var scope := d.accessScope;
    scopeCall :=
      if scope != c.accessScope then
        [UpdateAccessScope(scopeIds[c.accessScope.name], scope.name, scope.description, scope.clusters, scope.namespaces)]
      else [];
    roleCall :=
      if RoleFieldsDiffer(d, c) then
        [UpdateRole(d.name, d.description, permissionSetIds[d.permissionSetName], scopeIds[c.accessScope.name])]
      else [];
    groupCall := GroupUpdate(d, c, groups, authProviderId);
  }

  /**
   * Which calls a live update of one role sends: a scope rewrite exactly
   * when the scopes differ, a role rewrite exactly when its fields differ,
   * and one group batch exactly when the members differ.
   */
  lemma UpdateStepIssues(
    d: Role, c: Role, scopeIds: map<string, string>, permissionSetIds: map<string, string>,
    groups: seq<GroupRecord>, authProviderId: string)
    requires d.name == c.name
    requires HeldAsGroups(c, groups)
    requires RewriteError(d, c, scopeIds, permissionSetIds).None?
    ensures var calls := UpdateStep(d, c, scopeIds, permissionSetIds, groups, authProviderId, false).calls;
            && (forall x :: x in calls ==> x.UpdateAccessScope? || x.UpdateRole? || x.UpdateGroupBatch?)
            && ((exists x :: x in calls && x.UpdateAccessScope?) <==> d.accessScope != c.accessScope)
            && ((exists x :: x in calls && x.UpdateRole?) <==> RoleFieldsDiffer(d, c))
            && ((exists x :: x in calls && x.UpdateGroupBatch?) <==>
                  !(forall a :: a in d.assignments <==> a in c.assignments))
  {
    var calls := UpdateStep(d, c, scopeIds, permissionSetIds, groups, authProviderId, false).calls;
    var scopeCall, roleCall, groupCall := UpdateStepParts(d, c, scopeIds, permissionSetIds, groups, authProviderId);
    assert forall x :: x in calls <==> x in scopeCall || x in roleCall || x in groupCall;
    GroupUpdateSilent(d, c, groups, authProviderId);
    if scopeCall != [] {
      assert scopeCall[0] in calls;
    }
    if roleCall != [] {
      assert roleCall[0] in calls;
    }
    if groupCall != [] {
      assert groupCall[0] in calls;
    }
  }

  /**
   * What the rewrites carry: the existing scope keeps its id and takes the
   * desired fields; the role takes the desired description and permission
   * set and keeps the existing scope's id.
   */
  lemma UpdateStepRewrites(
    d: Role, c: Role, scopeIds: map<string, string>, permissionSetIds: map<string, string>,
    groups: seq<GroupRecord>, authProviderId: string)
    requires RewriteError(d, c, scopeIds, permissionSetIds).None?
    ensures var calls := UpdateStep(d, c, scopeIds, permissionSetIds, groups, authProviderId, false).calls;
            && (forall x :: x in calls && x.UpdateAccessScope? ==>
                  && c.accessScope.name in scopeIds && x.id == scopeIds[c.accessScope.name]
                  && x.name == d.accessScope.name && x.description == d.accessScope.description
                  && x.clusters == d.accessScope.clusters && x.namespaces == d.accessScope.namespaces)
            && (forall x :: x in calls && x.UpdateRole? ==>
                  && d.permissionSetName in permissionSetIds && c.accessScope.name in scopeIds
                  && x == UpdateRole(d.name, d.description, permissionSetIds[d.permissionSetName],
                                     scopeIds[c.accessScope.name]))
  {
    var calls := UpdateStep(d, c, scopeIds, permissionSetIds, groups, authProviderId, false).calls;
    var scopeCall, roleCall, groupCall := UpdateStepParts(d, c, scopeIds, permissionSetIds, groups, authProviderId);
    assert forall x :: x in calls <==> x in scopeCall || x in roleCall || x in groupCall;
  }

  // Every role the diff selects gets its writes.

  /**
   * `calls` create role `r` with the ids of its permission set and of its
   * access scope, and create its members in one batch.
   */
  predicate RoleCreated(
    r: Role, calls: seq<Call>, scopeIds: map<string, string>, permissionSetIds: map<string, string>, authProviderId: string)
  {
    && r.permissionSetName in permissionSetIds && r.accessScope.name in scopeIds
    && CreateRole(r.name, r.description, permissionSetIds[r.permissionSetName], scopeIds[r.accessScope.name]) in calls
    && CreateGroupBatch(GroupAdds(r.name, r.assignments, authProviderId)) in calls
  }

  /** `calls` delete role `r`'s members, `r` itself and its access scope. */
  predicate RoleDeleted(r: Role, calls: seq<Call>, scopeIds: map<string, string>, groups: seq<GroupRecord>)
  {
    && r.accessScope.name in scopeIds
    && DeleteGroupBatch(GroupsOf(groups, r.name)) in calls
    && DeleteRole(r.name) in calls
    && DeleteAccessScope(scopeIds[r.accessScope.name]) in calls
  }

  /**
   * `calls` rewrite the existing scope when the scopes differ, the role when
   * its fields differ, and carry the group batch the members need.
   */
  predicate RoleRewritten(
    d: Role, c: Role, calls: seq<Call>, scopeIds: map<string, string>, permissionSetIds: map<string, string>,
    groups: seq<GroupRecord>, authProviderId: string)
  {
    && (d.accessScope != c.accessScope ==>
          && c.accessScope.name in scopeIds
          && UpdateAccessScope(scopeIds[c.accessScope.name], d.accessScope.name, d.accessScope.description,
                               d.accessScope.clusters, d.accessScope.namespaces) in calls)
    && (RoleFieldsDiffer(d, c) ==>
          && d.permissionSetName in permissionSetIds && c.accessScope.name in scopeIds
          && UpdateRole(d.name, d.description, permissionSetIds[d.permissionSetName], scopeIds[c.accessScope.name]) in calls)
    && (forall x :: x in GroupUpdate(d, c, groups, authProviderId) ==> x in calls)
  }

  lemma AddStepWrites(
    role: Role, scopeIds: map<string, string>, permissionSetIds: map<string, string>,
    created: nat, newScopeId: nat -> string, authProviderId: string)
    ensures var t := AddStep(role, scopeIds, permissionSetIds, created, newScopeId, authProviderId, false);
            t.error.None? ==> RoleCreated(role, t.calls, t.scopeIds, permissionSetIds, authProviderId)
  {
  }

  /**
   * A live add phase that ends without error creates every role it was
   * given, each on the id its scope has at the end of the phase.
   */
  lemma {:induction false} AddPhaseWrites(
    roles: seq<Role>, scopeIds: map<string, string>, permissionSetIds: map<string, string>,
    created: nat, newScopeId: nat -> string, authProviderId: string)
    ensures var t := AddPhase(roles, scopeIds, permissionSetIds, created, newScopeId, authProviderId, false);
            t.error.None? ==> forall r :: r in roles ==> RoleCreated(r, t.calls, t.scopeIds, permissionSetIds, authProviderId)
  {
    if roles != [] {
      var step := AddStep(roles[0], scopeIds, permissionSetIds, created, newScopeId, authProviderId, false);
      if step.error.None? {
        var rest := AddPhase(roles[1..], step.scopeIds, permissionSetIds, step.created, newScopeId, authProviderId, false);
        AddStepWrites(roles[0], scopeIds, permissionSetIds, created, newScopeId, authProviderId);
        AddPhaseWrites(roles[1..], step.scopeIds, permissionSetIds, step.created, newScopeId, authProviderId);
        AddPhaseScopes(roles[1..], step.scopeIds, permissionSetIds, step.created, newScopeId, authProviderId, false);
        assert forall r :: r in roles ==> r == roles[0] || r in roles[1..];
      }
    }
  }

  /** A live delete phase that ends without error deletes every role it was given. */
  lemma {:induction false} DeletePhaseWrites(roles: seq<Role>, scopeIds: map<string, string>, groups: seq<GroupRecord>)
    ensures var t := DeletePhase(roles, scopeIds, groups, false);
            && (t.error.None? ==> forall r :: r in roles ==> RoleDeleted(r, t.calls, scopeIds, groups))
            && (forall x :: x in t.calls ==> !x.CreateAccessScope?)
  {
    if roles != [] {
      var step := DeleteStep(roles[0], scopeIds, groups, false);
      if step.error.None? {
        DeletePhaseWrites(roles[1..], scopeIds, groups);
        assert forall r :: r in roles ==> r == roles[0] || r in roles[1..];
      }
    }
  }

  lemma UpdateStepWrites(
    d: Role, c: Role, scopeIds: map<string, string>, permissionSetIds: map<string, string>,
    groups: seq<GroupRecord>, authProviderId: string)
    ensures var t := UpdateStep(d, c, scopeIds, permissionSetIds, groups, authProviderId, false);
            && (t.error.None? ==> RoleRewritten(d, c, t.calls, scopeIds, permissionSetIds, groups, authProviderId))
            && (forall x :: x in t.calls ==> !x.CreateAccessScope?)
  {
    UpdateStepFacts(d, c, scopeIds, permissionSetIds, groups, authProviderId, false);
    if RewriteError(d, c, scopeIds, permissionSetIds).None? {
      var calls := UpdateStep(d, c, scopeIds, permissionSetIds, groups, authProviderId, false).calls;
      var scopeCall, roleCall, groupCall := UpdateStepParts(d, c, scopeIds, permissionSetIds, groups, authProviderId);
      assert forall x :: x in calls <==> x in scopeCall || x in roleCall || x in groupCall;
    }
  }

  /** A live update phase that ends without error rewrites every pair it was given. */
  lemma {:induction false} UpdatePhaseWrites(
    pairs: seq<(Role, Role)>, scopeIds: map<string, string>, permissionSetIds: map<string, string>,
    groups: seq<GroupRecord>, authProviderId: string)
    ensures var t := UpdatePhase(pairs, scopeIds, permissionSetIds, groups, authProviderId, false);
            && (t.error.None? ==> forall q :: q in pairs ==>
                  RoleRewritten(q.0, q.1, t.calls, scopeIds, permissionSetIds, groups, authProviderId))
            && (forall x :: x in t.calls ==> !x.CreateAccessScope?)
  {
    if pairs != [] {
      var step := UpdateStep(pairs[0].0, pairs[0].1, scopeIds, permissionSetIds, groups, authProviderId, false);
      UpdateStepWrites(pairs[0].0, pairs[0].1, scopeIds, permissionSetIds, groups, authProviderId);
      if step.error.None? {
        UpdatePhaseWrites(pairs[1..], scopeIds, permissionSetIds, groups, authProviderId);
        assert forall q :: q in pairs ==> q == pairs[0] || q in pairs[1..];
      }
    }
  }

  /**
   * A live add phase that ends without error creates every role to add;
   * a role whose scope is not listed finds it among the scopes the phase
   * created, and the phase creates each scope once and none already listed.
   */
  lemma AddPartWrites(toAdd: seq<Role>, p: Platform, created: nat, newScopeId: nat -> string, authProviderId: string)
    ensures var t := AddPart(toAdd, p, created, newScopeId, authProviderId, false);
            var listed := ScopeIdIndex(p.accessScopes);
            var names := CreatedScopeNames(t.calls);
            t.error.None? ==>
              && (forall r :: r in toAdd ==>
                    RoleCreated(r, t.calls, t.scopeIds, PermissionSetIdIndex(p.permissionSets), authProviderId))
              && (forall r :: r in toAdd ==> r.accessScope.name in listed || r.accessScope.name in names)
              && Distinct(names)
              && (forall n :: n in names ==> n !in listed)
  {
    if toAdd != [] {
      var listed, psIds := ScopeIdIndex(p.accessScopes), PermissionSetIdIndex(p.permissionSets);
      var t := AddPhase(toAdd, listed, psIds, created, newScopeId, authProviderId, false);
      AddPhaseWrites(toAdd, listed, psIds, created, newScopeId, authProviderId);
      AddPhaseScopes(toAdd, listed, psIds, created, newScopeId, authProviderId, false);
      CreatedScopeNamesAppend([GetAccessScopes, GetPermissionSets], t.calls);
      NoScopeCreated([GetAccessScopes, GetPermissionSets]);
    }
  }

  /**
   * The add phase starts from the listed scope ids and keeps them, records
   * each scope it creates under the id of that creation, and creates only
   * scopes of roles being added, with their fields.
   */
  lemma AddPartCreations(
    toAdd: seq<Role>, p: Platform, created: nat, newScopeId: nat -> string, authProviderId: string, dryRun: bool)
    ensures var t := AddPart(toAdd, p, created, newScopeId, authProviderId, dryRun);
            var listed := ScopeIdIndex(p.accessScopes);
            && (toAdd != [] ==> forall n :: n in listed ==> n in t.scopeIds && t.scopeIds[n] == listed[n])
            && IdsInCreationOrder(CreatedScopeNames(t.calls), t.scopeIds, created, newScopeId)
            && (forall x :: x in t.calls && x.CreateAccessScope? ==>
                  exists r :: r in toAdd && x == ScopeCreation(r.accessScope))
  {
    if toAdd != [] {
      var listed, psIds := ScopeIdIndex(p.accessScopes), PermissionSetIdIndex(p.permissionSets);
      var t := AddPhase(toAdd, listed, psIds, created, newScopeId, authProviderId, dryRun);
      var part := AddPart(toAdd, p, created, newScopeId, authProviderId, dryRun);
      assert part.scopeIds == t.scopeIds && part.calls == [GetAccessScopes, GetPermissionSets] + t.calls;
      assert forall n :: n in listed ==> n in t.scopeIds && t.scopeIds[n] == listed[n] by {
        AddPhaseScopes(toAdd, listed, psIds, created, newScopeId, authProviderId, dryRun);
      }
      assert CreatedScopeNames(part.calls) == CreatedScopeNames(t.calls) by {
        CreatedScopeNamesAppend([GetAccessScopes, GetPermissionSets], t.calls);
        NoScopeCreated([GetAccessScopes, GetPermissionSets]);
      }
      assert IdsInCreationOrder(CreatedScopeNames(part.calls), part.scopeIds, created, newScopeId) by {
        AddPhaseCreatedIds(toAdd, listed, psIds, created, newScopeId, authProviderId, dryRun);
      }
      forall x | x in part.calls && x.CreateAccessScope?
        ensures exists r :: r in toAdd && x == ScopeCreation(r.accessScope)
      {
        assert x in t.calls;
        AddPhaseCreationFields(toAdd, listed, psIds, created, newScopeId, authProviderId, dryRun);
      }
    }
  }

  lemma DeletePartWrites(toDelete: seq<Role>, p: Platform)
    ensures var t := DeletePart(toDelete, p, false);
            && (t.error.None? ==> forall r :: r in toDelete ==>
                  RoleDeleted(r, t.calls, ScopeIdIndex(p.accessScopes), p.groups))
            && CreatedScopeNames(t.calls) == []
  {
    if toDelete != [] {
      DeletePhaseWrites(toDelete, ScopeIdIndex(p.accessScopes), p.groups);
    }
    NoScopeCreated(DeletePart(toDelete, p, false).calls);
  }

  lemma UpdatePartWrites(toUpdate: seq<(Role, Role)>, p: Platform, authProviderId: string)
    ensures var t := UpdatePart(toUpdate, p, authProviderId, false);
            && (t.error.None? ==> forall q :: q in toUpdate ==>
                  RoleRewritten(q.0, q.1, t.calls, ScopeIdIndex(p.accessScopes), PermissionSetIdIndex(p.permissionSets),
                                p.groups, authProviderId))
            && CreatedScopeNames(t.calls) == []
  {
    if toUpdate != [] {
      UpdatePhaseWrites(toUpdate, ScopeIdIndex(p.accessScopes), PermissionSetIdIndex(p.permissionSets), p.groups, authProviderId);
    }
    NoScopeCreated(UpdatePart(toUpdate, p, authProviderId, false).calls);
  }

  /** A pass that ends without error ran all three phases to their end. */
  lemma PassWithoutError(
    desired: seq<Role>, current: seq<Role>, p: Platform, newScopeId: nat -> string, created: nat,
    authProviderId: string, dryRun: bool)
    ensures var add := AddPart(RolesToAdd(desired, current), p, created, newScopeId, authProviderId, dryRun);
            var del := DeletePart(RolesToDelete(desired, current), p, dryRun);
            var upd := UpdatePart(RolesToUpdate(desired, current), p, authProviderId, dryRun);
            var t := Plan(desired, current, p, newScopeId, created, authProviderId, dryRun);
            t.error.None? ==>
              add.error.None? && del.error.None? && upd.error.None? && t.calls == add.calls + del.calls + upd.calls
  {
  }

  /** Calls issued by one phase are among the calls of the whole pass. */
  lemma AmongPass(a: seq<Call>, b: seq<Call>, c: seq<Call>)
    ensures forall x :: x in a ==> x in a + b + c
    ensures forall x :: x in b ==> x in a + b + c
    ensures forall x :: x in c ==> x in a + b + c
  {
  }

  /**
   * The converse of `WritesFollowTheDiff`: a live pass that ends without
   * error creates every role missing from the platform (on a listed scope
   * of its name or on one it created, each created scope once), deletes
   * every role no longer wanted with its members and scope, and rewrites
   * every role that differs as `UpdateStepIssues` says. The ids it creates
   * roles with are the listed ones and, for the k-th scope it creates, the
   * platform's k-th new id; every scope it creates is an added role's own.
   */
  lemma DiffIsWritten(
    desired: seq<Role>, current: seq<Role>, p: Platform, newScopeId: nat -> string, created: nat, authProviderId: string)
    ensures var t := Plan(desired, current, p, newScopeId, created, authProviderId, false);
            var add := AddPart(RolesToAdd(desired, current), p, created, newScopeId, authProviderId, false);
            var listed := ScopeIdIndex(p.accessScopes);
            var psIds := PermissionSetIdIndex(p.permissionSets);
            var names := CreatedScopeNames(t.calls);
            t.error.None? ==>
              && (forall r :: r in RolesToAdd(desired, current) ==>
                    RoleCreated(r, t.calls, add.scopeIds, psIds, authProviderId))
              && (forall r :: r in RolesToAdd(desired, current) ==>
                    r.accessScope.name in listed || r.accessScope.name in names)
              && Distinct(names)
              && (forall n :: n in names ==> n !in listed)
              && (RolesToAdd(desired, current) != [] ==>
                    forall n :: n in listed ==> n in add.scopeIds && add.scopeIds[n] == listed[n])
              && IdsInCreationOrder(names, add.scopeIds, created, newScopeId)
              && (forall x :: x in t.calls && x.CreateAccessScope? ==>
                    exists r :: r in RolesToAdd(desired, current) && x == ScopeCreation(r.accessScope))
              && (forall r :: r in RolesToDelete(desired, current) ==> RoleDeleted(r, t.calls, listed, p.groups))
              && (forall q :: q in RolesToUpdate(desired, current) ==>
                    RoleRewritten(q.0, q.1, t.calls, listed, psIds, p.groups, authProviderId))
  {
    var toAdd, toDelete, toUpdate :=
      RolesToAdd(desired, current), RolesToDelete(desired, current), RolesToUpdate(desired, current);
    var listed, psIds := ScopeIdIndex(p.accessScopes), PermissionSetIdIndex(p.permissionSets);
    var add := AddPart(toAdd, p, created, newScopeId, authProviderId, false);
    var del := DeletePart(toDelete, p, false);
    var upd := UpdatePart(toUpdate, p, authProviderId, false);
    var t := Plan(desired, current, p, newScopeId, created, authProviderId, false);
    PassWithoutError(desired, current, p, newScopeId, created, authProviderId, false);
    if t.error.None? {
      var calls := add.calls + del.calls + upd.calls;
      assert t.calls == calls;
      AddPartWrites(toAdd, p, created, newScopeId, authProviderId);
      DeletePartWrites(toDelete, p);
      UpdatePartWrites(toUpdate, p, authProviderId);
      AmongPass(add.calls, del.calls, upd.calls);
      CreatedScopeNamesAppend(add.calls, del.calls);
      CreatedScopeNamesAppend(add.calls + del.calls, upd.calls);
      assert CreatedScopeNames(calls) == CreatedScopeNames(add.calls);
      AddPartCreations(toAdd, p, created, newScopeId, authProviderId, false);
      forall x | x in calls && x.CreateAccessScope? ensures exists r :: r in toAdd && x == ScopeCreation(r.accessScope) {
        assert x.name in CreatedScopeNames(add.calls);
        assert x in add.calls;
      }
      forall r | r in toAdd ensures RoleCreated(r, calls, add.scopeIds, psIds, authProviderId) {
        assert RoleCreated(r, add.calls, add.scopeIds, psIds, authProviderId);
      }
      forall r | r in toDelete ensures RoleDeleted(r, calls, listed, p.groups) {
        assert RoleDeleted(r, del.calls, listed, p.groups);
      }
      forall q | q in toUpdate ensures RoleRewritten(q.0, q.1, calls, listed, psIds, p.groups, authProviderId) {
        assert RoleRewritten(q.0, q.1, upd.calls, listed, psIds, p.groups, authProviderId);
      }
    }
  }

  /**
   * By name: a live pass that ends without error issues create_role for
   * every desired name the platform lacks and delete_role for every
   * current name no longer desired.
   */
  lemma DiffNamesWritten(
    desired: seq<Role>, current: seq<Role>, p: Platform, newScopeId: nat -> string, created: nat, authProviderId: string)
    ensures var t := Plan(desired, current, p, newScopeId, created, authProviderId, false);
            t.error.None? ==>
              && (forall n :: n in NameSet(desired) - NameSet(current) ==>
                    exists x :: x in t.calls && x.CreateRole? && x.name == n)
              && (forall n :: n in NameSet(current) - NameSet(desired) ==> DeleteRole(n) in t.calls)
  {
    var t := Plan(desired, current, p, newScopeId, created, authProviderId, false);
    if t.error.None? {
      DiffIsWritten(desired, current, p, newScopeId, created, authProviderId);
      var add := AddPart(RolesToAdd(desired, current), p, created, newScopeId, authProviderId, false);
      var psIds := PermissionSetIdIndex(p.permissionSets);
      forall n | n in NameSet(desired) - NameSet(current)
        ensures exists x :: x in t.calls && x.CreateRole? && x.name == n
      {
        assert n in NameSet(RolesToAdd(desired, current));
        var r :| r in RolesToAdd(desired, current) && r.name == n;
        assert RoleCreated(r, t.calls, add.scopeIds, psIds, authProviderId);
        var x := CreateRole(r.name, r.description, psIds[r.permissionSetName], add.scopeIds[r.accessScope.name]);
        assert x in t.calls;
      }
      forall n | n in NameSet(current) - NameSet(desired) ensures DeleteRole(n) in t.calls {
        assert n in NameSet(RolesToDelete(desired, current));
        var r :| r in RolesToDelete(desired, current) && r.name == n;
        assert RoleDeleted(r, t.calls, ScopeIdIndex(p.accessScopes), p.groups);
      }
    }
  }
}
