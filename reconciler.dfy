/**
 * The reconciler: walks the roles to add, remove and update and issues the
 * gateway calls one at a time. Each phase is proved to issue exactly the
 * calls its specification function lists, so the whole pass issues exactly
 * the calls of `Plan`.
 */
module Reconciler {
  import opened Wrappers
  import opened AcsModel
  import opened Gateway
  import opened ReconcilePlan
  import SeqUtil

  /** Creates one missing role, its access scope unless one of that name is known, and its groups. */
  method AddOneRole(
    role: Role, scopeIds: map<string, string>, permissionSetIds: map<string, string>,
    gw: AcsGateway, authProviderId: string, dryRun: bool)
    returns (error: Option<ReconcileError>, newScopeIds: map<string, string>)
    modifies gw`log, gw`created
    ensures var t := AddStep(role, scopeIds, permissionSetIds, old(gw.created), gw.newScopeId, authProviderId, dryRun);
            gw.log == old(gw.log) + t.calls && gw.created == t.created && newScopeIds == t.scopeIds && error == t.error
  {
    newScopeIds := scopeIds;
    if role.permissionSetName !in permissionSetIds {
      return Some(UnknownPermissionSet(role.permissionSetName)), newScopeIds;
    }
    error := None;
    if dryRun {
      return;
    }
    var permissionSetId := permissionSetIds[role.permissionSetName];
    var scope := role.accessScope;
    var scopeId: string;
    if scope.name in scopeIds {
      scopeId := scopeIds[scope.name];
    } else {
      scopeId := gw.NewAccessScope(scope.name, scope.description, scope.clusters, scope.namespaces);
      newScopeIds := scopeIds[scope.name := scopeId];
    }
    gw.Issue(CreateRole(role.name, role.description, permissionSetId, scopeId));
    gw.Issue(CreateGroupBatch(GroupAdds(role.name, role.assignments, authProviderId)));
  }

  /** Creates the missing roles, their access scopes (once per name) and their groups. */
  method AddRoles(
    toAdd: seq<Role>, listedScopeIds: map<string, string>, permissionSetIds: map<string, string>,
    gw: AcsGateway, authProviderId: string, dryRun: bool)
    returns (error: Option<ReconcileError>)
    modifies gw`log, gw`created
    ensures var t := AddPhase(toAdd, listedScopeIds, permissionSetIds, old(gw.created), gw.newScopeId, authProviderId, dryRun);
            gw.log == old(gw.log) + t.calls && gw.created == t.created && error == t.error
  {
    ghost var all := AddPhase(toAdd, listedScopeIds, permissionSetIds, gw.created, gw.newScopeId, authProviderId, dryRun);
    var scopeIds := listedScopeIds;
    var i := 0;
    ghost var done: seq<Call> := [];
    assert toAdd[0..] == toAdd;
    assert all == all.(calls := done + all.calls);
    while i < |toAdd|
      invariant i <= |toAdd|
      invariant gw.log == old(gw.log) + done
      invariant var rest := AddPhase(toAdd[i..], scopeIds, permissionSetIds, gw.created, gw.newScopeId, authProviderId, dryRun);
                all == rest.(calls := done + rest.calls)
    {
      AddPhaseWalk(toAdd, i, scopeIds, permissionSetIds, gw.created, gw.newScopeId, authProviderId, dryRun, all, done);
      ghost var step := AddStep(toAdd[i], scopeIds, permissionSetIds, gw.created, gw.newScopeId, authProviderId, dryRun);
      SeqUtil.ConcatAssoc(old(gw.log), done, step.calls);
      error, scopeIds := AddOneRole(toAdd[i], scopeIds, permissionSetIds, gw, authProviderId, dryRun);
      if error.Some? {
        return;
      }
      done := done + step.calls;
      i := i + 1;
    }
    assert toAdd[i..] == [];
    assert done + [] == done;
    error := None;
  }

  /** Removes one role: its groups in one batch, the role, then its access scope. */
  method DeleteOneRole(role: Role, scopeIds: map<string, string>, groups: seq<GroupRecord>, gw: AcsGateway, dryRun: bool)
    returns (error: Option<ReconcileError>)
    modifies gw`log
    ensures var t := DeleteStep(role, scopeIds, groups, dryRun);
            gw.log == old(gw.log) + t.calls && error == t.error
  {
    if role.accessScope.name !in scopeIds {
      return Some(UnknownAccessScope(role.accessScope.name));
    }
    error := None;
    if !dryRun {
      gw.Issue(DeleteGroupBatch(GroupsOf(groups, role.name)));
      gw.Issue(DeleteRole(role.name));
      gw.Issue(DeleteAccessScope(scopeIds[role.accessScope.name]));
    }
  }

  /** Removes the roles no longer wanted, each with its groups and its access scope. */
  method DeleteRoles(
    toDelete: seq<Role>, scopeIds: map<string, string>, groups: seq<GroupRecord>, gw: AcsGateway, dryRun: bool)
    returns (error: Option<ReconcileError>)
    modifies gw`log
    ensures var t := DeletePhase(toDelete, scopeIds, groups, dryRun);
            gw.log == old(gw.log) + t.calls && error == t.error
  {
    ghost var all := DeletePhase(toDelete, scopeIds, groups, dryRun);
    var i := 0;
    ghost var done: seq<Call> := [];
    assert toDelete[0..] == toDelete;
    assert all == Trace(done + all.calls, all.error);
    while i < |toDelete|
      invariant i <= |toDelete|
      invariant gw.log == old(gw.log) + done
      invariant var rest := DeletePhase(toDelete[i..], scopeIds, groups, dryRun);
                all == Trace(done + rest.calls, rest.error)
    {
      DeletePhaseWalk(toDelete, i, scopeIds, groups, dryRun, all, done);
      ghost var step := DeleteStep(toDelete[i], scopeIds, groups, dryRun);
      SeqUtil.ConcatAssoc(old(gw.log), done, step.calls);
      error := DeleteOneRole(toDelete[i], scopeIds, groups, gw, dryRun);
      if error.Some? {
        return;
      }
      done := done + step.calls;
      i := i + 1;
    }
    assert toDelete[i..] == [];
    assert done + [] == done;
    error := None;
  }

  /** Updates one role whose desired and current versions differ. */
  method UpdateOneRole(
    d: Role, c: Role, scopeIds: map<string, string>, permissionSetIds: map<string, string>,
    groups: seq<GroupRecord>, gw: AcsGateway, authProviderId: string, dryRun: bool)
    returns (error: Option<ReconcileError>)
    modifies gw`log
    ensures var t := UpdateStep(d, c, scopeIds, permissionSetIds, groups, authProviderId, dryRun);
            gw.log == old(gw.log) + t.calls && error == t.error
  {
    var fieldsDiffer := RoleFieldsDiffer(d, c);
    if fieldsDiffer && d.permissionSetName !in permissionSetIds {
      return Some(UnknownPermissionSet(d.permissionSetName));
    }
    if fieldsDiffer && c.accessScope.name !in scopeIds {
      return Some(UnknownAccessScope(c.accessScope.name));
    }
    error := None;
    if dryRun {
      return;
    }
    ghost var scopeCall: seq<Call> := [];
    if d.accessScope != c.accessScope {
      var scope := d.accessScope;
      var call := UpdateAccessScope(scopeIds[c.accessScope.name], scope.name, scope.description, scope.clusters, scope.namespaces);
      gw.Issue(call);
      scopeCall := [call];
    }
    ghost var roleCall: seq<Call> := [];
    if fieldsDiffer {
      var call := UpdateRole(d.name, d.description, permissionSetIds[d.permissionSetName], scopeIds[c.accessScope.name]);
      gw.Issue(call);
      roleCall := [call];
    }
    SeqUtil.ConcatAssoc(old(gw.log), scopeCall, roleCall);
    var removals := StaleGroups(GroupsOf(groups, c.name), d.assignments);
    var additions := GroupAdds(d.name, MissingAssignments(d.assignments, c.assignments), authProviderId);
    ghost var groupCall: seq<Call> := [];
    if removals != [] || additions != [] {
      var call := UpdateGroupBatch(removals, additions);
      gw.Issue(call);
      groupCall := [call];
    }
    assert groupCall == GroupUpdate(d, c, groups, authProviderId);
    SeqUtil.ConcatAssoc(old(gw.log), scopeCall + roleCall, groupCall);
  }

  /** Rewrites the roles whose fields differ and re-batches the members that differ. */
  method UpdateRoles(
    toUpdate: seq<(Role, Role)>, scopeIds: map<string, string>, permissionSetIds: map<string, string>,
    groups: seq<GroupRecord>, gw: AcsGateway, authProviderId: string, dryRun: bool)
    returns (error: Option<ReconcileError>)
    modifies gw`log
    ensures var t := UpdatePhase(toUpdate, scopeIds, permissionSetIds, groups, authProviderId, dryRun);
            gw.log == old(gw.log) + t.calls && error == t.error
  {
    ghost var all := UpdatePhase(toUpdate, scopeIds, permissionSetIds, groups, authProviderId, dryRun);
    var i := 0;
    ghost var done: seq<Call> := [];
    assert toUpdate[0..] == toUpdate;
    assert all == Trace(done + all.calls, all.error);
    while i < |toUpdate|
      invariant i <= |toUpdate|
      invariant gw.log == old(gw.log) + done
      invariant var rest := UpdatePhase(toUpdate[i..], scopeIds, permissionSetIds, groups, authProviderId, dryRun);
                all == Trace(done + rest.calls, rest.error)
    {
      var d := toUpdate[i].0;
      var c := toUpdate[i].1;
      UpdatePhaseWalk(toUpdate, i, scopeIds, permissionSetIds, groups, authProviderId, dryRun, all, done);
      ghost var step := UpdateStep(d, c, scopeIds, permissionSetIds, groups, authProviderId, dryRun);
      SeqUtil.ConcatAssoc(old(gw.log), done, step.calls);
      error := UpdateOneRole(d, c, scopeIds, permissionSetIds, groups, gw, authProviderId, dryRun);
      if error.Some? {
        return;
      }
      done := done + step.calls;
      i := i + 1;
    }
    assert toUpdate[i..] == [];
    assert done + [] == done;
    error := None;
  }

  /** The additions of a pass: listings first, then one role after another. */
  method RunAdditions(toAdd: seq<Role>, gw: AcsGateway, authProviderId: string, dryRun: bool)
    returns (error: Option<ReconcileError>)
    modifies gw`log, gw`created
    ensures var t := AddPart(toAdd, gw.platform, old(gw.created), gw.newScopeId, authProviderId, dryRun);
            gw.log == old(gw.log) + t.calls && gw.created == t.created && error == t.error
  {
    error := None;
    if toAdd != [] {
      var scopes := gw.ListAccessScopes();
      var permissionSets := gw.ListPermissionSets();
      SeqUtil.ConcatAssoc(old(gw.log), [GetAccessScopes], [GetPermissionSets]);
      assert gw.log == old(gw.log) + [GetAccessScopes, GetPermissionSets];
      ghost var phase := AddPhase(toAdd, ScopeIdIndex(scopes), PermissionSetIdIndex(permissionSets),
                                  gw.created, gw.newScopeId, authProviderId, dryRun);
      SeqUtil.ConcatAssoc(old(gw.log), [GetAccessScopes, GetPermissionSets], phase.calls);
      error := AddRoles(toAdd, ScopeIdIndex(scopes), PermissionSetIdIndex(permissionSets), gw, authProviderId, dryRun);
    }
  }

  /** The removals of a pass: listings first, then one role after another. */
  method RunRemovals(toDelete: seq<Role>, gw: AcsGateway, dryRun: bool)
    returns (error: Option<ReconcileError>)
    modifies gw`log
    ensures var t := DeletePart(toDelete, gw.platform, dryRun);
            gw.log == old(gw.log) + t.calls && error == t.error
  {
    error := None;
    if toDelete != [] {
      var scopes := gw.ListAccessScopes();
      var groups := gw.ListGroups();
      SeqUtil.ConcatAssoc(old(gw.log), [GetAccessScopes], [GetGroups]);
      assert gw.log == old(gw.log) + [GetAccessScopes, GetGroups];
      ghost var phase := DeletePhase(toDelete, ScopeIdIndex(scopes), groups, dryRun);
      SeqUtil.ConcatAssoc(old(gw.log), [GetAccessScopes, GetGroups], phase.calls);
      error := DeleteRoles(toDelete, ScopeIdIndex(scopes), groups, gw, dryRun);
    }
  }

  /** The updates of a pass: listings first, then one role pair after another. */
  method RunUpdates(toUpdate: seq<(Role, Role)>, gw: AcsGateway, authProviderId: string, dryRun: bool)
    returns (error: Option<ReconcileError>)
    modifies gw`log
    ensures var t := UpdatePart(toUpdate, gw.platform, authProviderId, dryRun);
            gw.log == old(gw.log) + t.calls && error == t.error
  {
    error := None;
    if toUpdate != [] {
      var scopes := gw.ListAccessScopes();
      var permissionSets := gw.ListPermissionSets();
      var groups := gw.ListGroups();
      SeqUtil.ConcatAssoc(old(gw.log), [GetAccessScopes], [GetPermissionSets]);
      SeqUtil.ConcatAssoc(old(gw.log), [GetAccessScopes, GetPermissionSets], [GetGroups]);
      assert gw.log == old(gw.log) + [GetAccessScopes, GetPermissionSets, GetGroups];
      ghost var phase := UpdatePhase(toUpdate, ScopeIdIndex(scopes), PermissionSetIdIndex(permissionSets),
                                     groups, authProviderId, dryRun);
      SeqUtil.ConcatAssoc(old(gw.log), [GetAccessScopes, GetPermissionSets, GetGroups], phase.calls);
      error := UpdateRoles(toUpdate, ScopeIdIndex(scopes), PermissionSetIdIndex(permissionSets), groups, gw, authProviderId, dryRun);
    }
  }

  /**
   * reconcile: additions, then removals, then updates, each phase against
   * fresh listings; the first error ends the pass.
   */
  method Reconcile(desired: seq<Role>, current: seq<Role>, gw: AcsGateway, authProviderId: string, dryRun: bool)
    returns (error: Option<ReconcileError>)
    modifies gw`log, gw`created
    ensures var t := Plan(desired, current, gw.platform, gw.newScopeId, old(gw.created), authProviderId, dryRun);
            gw.log == old(gw.log) + t.calls && gw.created == t.created && error == t.error
  {
    ghost var add := AddPart(RolesToAdd(desired, current), gw.platform, gw.created, gw.newScopeId, authProviderId, dryRun);
    error := RunAdditions(RolesToAdd(desired, current), gw, authProviderId, dryRun);
    if error.Some? {
      return;
    }
    ghost var del := DeletePart(RolesToDelete(desired, current), gw.platform, dryRun);
    SeqUtil.ConcatAssoc(old(gw.log), add.calls, del.calls);
    error := RunRemovals(RolesToDelete(desired, current), gw, dryRun);
    if error.Some? {
      return;
    }
    ghost var upd := UpdatePart(RolesToUpdate(desired, current), gw.platform, authProviderId, dryRun);
    SeqUtil.ConcatAssoc(old(gw.log), add.calls + del.calls, upd.calls);
    error := RunUpdates(RolesToUpdate(desired, current), gw, authProviderId, dryRun);
  }
}
