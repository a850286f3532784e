/**
 * What one reconciliation pass does, as functions: which roles are added,
 * removed and updated, and the exact sequence of gateway calls each phase
 * issues. The imperative reconciler is proved to issue exactly these calls.
 */
module ReconcilePlan {
  import opened Wrappers
  import opened AcsModel
  import opened SeqUtil
  import opened Gateway

  /** Why a pass stops: a name the platform listings do not resolve. */
  datatype ReconcileError =
    | UnknownPermissionSet(permissionSetName: string)
    | UnknownAccessScope(accessScopeName: string)

  /** Calls issued by part of a pass, and the error that stopped it, if any. */
  datatype Trace = Trace(calls: seq<Call>, error: Option<ReconcileError>)

  /**
   * The add phase's trace, with the scope-name -> id map it keeps (the listed
   * scopes plus the ones it created) and the number of scopes created so far.
   */
  datatype AddTrace = AddTrace(calls: seq<Call>, scopeIds: map<string, string>, created: nat, error: Option<ReconcileError>)

  /** A whole pass: its calls, the scopes created by the end, and its error. */
  datatype PassTrace = PassTrace(calls: seq<Call>, created: nat, error: Option<ReconcileError>)

  // Indexing by name.

  /**
   * Roles keyed by name as a dictionary keys them: a later role replaces an
   * earlier one of the same name in the earlier one's position.
   */
  function Keyed(roles: seq<Role>): (k: seq<Role>)
    ensures DistinctNames(k)
    ensures NameSet(k) == NameSet(roles)
    ensures forall r :: r in k ==> r in roles
    ensures forall i :: 0 <= i < |roles| && LastOfItsName(roles, i) ==> roles[i] in k
  {
    if roles == [] then []
    else
      var front := roles[..|roles| - 1];
      var pre := Keyed(front);
      var r := roles[|roles| - 1];
      assert roles == front + [r];
      SnocNames(front, r);
      var i := IndexOfName(pre, r.name);
      assert forall j :: 0 <= j < |front| && LastOfItsName(roles, j) ==> LastOfItsName(front, j) && front[j].name != r.name;
      if i < |pre| then
        ReplaceKeepsNames(pre, i, r);
        pre[i := r]
      else
        AppendKeepsNames(pre, r);
        pre + [r]
  }

  /** No role after position `i` has the name of the role at `i`. */
  predicate LastOfItsName(roles: seq<Role>, i: nat)
    requires i < |roles|
  {
    forall j :: i < j < |roles| ==> roles[j].name != roles[i].name
  }

  lemma SnocNames(front: seq<Role>, r: Role)
    ensures NameSet(front + [r]) == NameSet(front) + {r.name}
    ensures forall x :: x in front + [r] <==> x in front || x == r
  {
  }

  lemma ReplaceKeepsNames(pre: seq<Role>, i: nat, r: Role)
    requires DistinctNames(pre) && i < |pre| && pre[i].name == r.name
    ensures DistinctNames(pre[i := r])
    ensures NameSet(pre[i := r]) == NameSet(pre)
    ensures forall x :: x in pre[i := r] ==> x == r || x in pre
    ensures forall x :: x in pre && x.name != r.name ==> x in pre[i := r]
  {
    forall x | x in pre ensures x.name in NameSet(pre[i := r]) {
      var j :| 0 <= j < |pre| && pre[j] == x;
      assert pre[i := r][j].name == x.name;
    }
  }

  lemma AppendKeepsNames(pre: seq<Role>, r: Role)
    requires DistinctNames(pre) && IndexOfName(pre, r.name) == |pre|
    ensures DistinctNames(pre + [r])
    ensures NameSet(pre + [r]) == NameSet(pre) + {r.name}
    ensures forall x :: x in pre + [r] ==> x == r || x in pre
  {
  }

  /** `{s.name: s.id for s in scopes}`: the last scope of each name wins. */
  function ScopeIdIndex(scopes: seq<AccessScopeRecord>): (m: map<string, string>)
    ensures forall name :: name in m <==> exists s :: s in scopes && s.name == name
    ensures forall name :: name in m ==> exists s :: s in scopes && s.name == name && s.id == m[name]
  {
    if scopes == [] then map[]
    else
      var last := scopes[|scopes| - 1];
      assert scopes == scopes[..|scopes| - 1] + [last];
      ScopeIdIndex(scopes[..|scopes| - 1])[last.name := last.id]
  }

  /** The scope `ScopeIdIndex` keeps for a name is the last scope of that name. */
  lemma {:induction false} ScopeIdIndexLastWins(scopes: seq<AccessScopeRecord>)
    ensures forall i :: 0 <= i < |scopes| && (forall j :: i < j < |scopes| ==> scopes[j].name != scopes[i].name) ==>
              scopes[i].name in ScopeIdIndex(scopes) && ScopeIdIndex(scopes)[scopes[i].name] == scopes[i].id
  {
    if scopes != [] {
      var front, last := scopes[..|scopes| - 1], scopes[|scopes| - 1];
      ScopeIdIndexLastWins(front);
      forall i | 0 <= i < |front| && (forall j :: i < j < |scopes| ==> scopes[j].name != scopes[i].name)
        ensures scopes[i].name in ScopeIdIndex(scopes) && ScopeIdIndex(scopes)[scopes[i].name] == scopes[i].id
      {
        assert scopes[i] == front[i] && scopes[|scopes| - 1] == last;
        assert forall j :: i < j < |front| ==> front[j].name != front[i].name by {
          forall j | i < j < |front| ensures front[j].name != front[i].name {
            assert scopes[j] == front[j];
          }
        }
      }
    }
  }

  /** `{p.name: p.id for p in sets}`: the last set of each name wins. */
  function PermissionSetIdIndex(sets: seq<PermissionSetRecord>): (m: map<string, string>)
    ensures forall name :: name in m <==> exists p :: p in sets && p.name == name
    ensures forall name :: name in m ==> exists p :: p in sets && p.name == name && p.id == m[name]
  {
    if sets == [] then map[]
    else
      var last := sets[|sets| - 1];
      assert sets == sets[..|sets| - 1] + [last];
      PermissionSetIdIndex(sets[..|sets| - 1])[last.name := last.id]
  }

  /** The set `PermissionSetIdIndex` keeps for a name is the last set of that name. */
  lemma {:induction false} PermissionSetIdIndexLastWins(sets: seq<PermissionSetRecord>)
    ensures forall i :: 0 <= i < |sets| && (forall j :: i < j < |sets| ==> sets[j].name != sets[i].name) ==>
              sets[i].name in PermissionSetIdIndex(sets) && PermissionSetIdIndex(sets)[sets[i].name] == sets[i].id
  {
    if sets != [] {
      var front, last := sets[..|sets| - 1], sets[|sets| - 1];
      PermissionSetIdIndexLastWins(front);
      forall i | 0 <= i < |front| && (forall j :: i < j < |sets| ==> sets[j].name != sets[i].name)
        ensures sets[i].name in PermissionSetIdIndex(sets) && PermissionSetIdIndex(sets)[sets[i].name] == sets[i].id
      {
        assert sets[i] == front[i] && sets[|sets| - 1] == last;
        assert forall j :: i < j < |front| ==> front[j].name != front[i].name by {
          forall j | i < j < |front| ensures front[j].name != front[i].name {
            assert sets[j] == front[j];
          }
        }
      }
    }
  }

  // The three diffs.

  /** The roles whose name is not among `names`, in their order. */
  function Absent(roles: seq<Role>, names: set<string>): (r: seq<Role>)
    ensures forall x :: x in r <==> x in roles && x.name !in names
    ensures DistinctNames(roles) ==> DistinctNames(r)
  {
    if roles == [] then []
    else
      var rest := Absent(roles[1..], names);
      assert forall x :: x in roles[1..] ==> x in roles;
      if roles[0].name in names then rest
      else
        assert DistinctNames(roles) ==> roles[0].name !in NameSet(roles[1..]);
        [roles[0]] + rest
  }

  /**
   * The (desired, current) pairs of roles present on both sides under one
   * name that differ in any field.
   */
  function Changed(desired: seq<Role>, current: seq<Role>): (r: seq<(Role, Role)>)
    ensures forall p :: p in r ==>
      p.0 in desired && p.1 in current && p.0.name == p.1.name && p.0 != p.1
    ensures forall d :: d in desired && d.name in NameSet(current) ==>
      var c := current[IndexOfName(current, d.name)];
      d != c ==> (d, c) in r
  {
    if desired == [] then []
    else
      var d := desired[0];
      var i := IndexOfName(current, d.name);
      var rest := Changed(desired[1..], current);
      assert forall x :: x in desired[1..] ==> x in desired;
      assert forall x :: x in desired ==> x == d || x in desired[1..];
      assert d.name in NameSet(current) ==> i < |current| by {
        if d.name in NameSet(current) {
          var c :| c in current && c.name == d.name;
          var j :| 0 <= j < |current| && current[j] == c;
        }
      }
      (if i < |current| && d != current[i] then [(d, current[i])] else []) + rest
  }

  /** Desired roles no current role is named like: one per missing name. */
  function RolesToAdd(desired: seq<Role>, current: seq<Role>): (r: seq<Role>)
    ensures NameSet(r) == NameSet(desired) - NameSet(current)
    ensures DistinctNames(r)
    ensures forall x :: x in r ==> x in desired
  {
    Absent(Keyed(desired), NameSet(current))
  }

  /** Current roles no desired role is named like: one per name no longer wanted. */
  function RolesToDelete(desired: seq<Role>, current: seq<Role>): (r: seq<Role>)
    ensures NameSet(r) == NameSet(current) - NameSet(desired)
    ensures DistinctNames(r)
    ensures forall x :: x in r ==> x in current
  {
    Absent(Keyed(current), NameSet(desired))
  }

  /**
   * Roles on both sides whose desired and current versions differ, paired
   * under their common name.
   */
  function RolesToUpdate(desired: seq<Role>, current: seq<Role>): (r: seq<(Role, Role)>)
    ensures forall p :: p in r ==>
      p.0 in desired && p.1 in current && p.0.name == p.1.name && p.0 != p.1
    ensures forall p :: p in r ==> p.0.name in NameSet(desired) * NameSet(current)
    ensures forall d :: d in Keyed(desired) && d.name in NameSet(current) ==>
      var c := Keyed(current)[IndexOfName(Keyed(current), d.name)];
      d != c ==> (d, c) in r
  {
    Changed(Keyed(desired), Keyed(current))
  }

  // Group batches.

  /** One group addition per assignment, in order, bound to the role and provider. */
  function GroupAdds(roleName: string, assignments: seq<AssignmentPair>, authProviderId: string): (r: seq<GroupAdd>)
    ensures |r| == |assignments|
    ensures forall i :: 0 <= i < |r| ==>
      r[i] == GroupAdd(roleName, assignments[i].key, assignments[i].value, authProviderId)
  {
    seq(|assignments|, i requires 0 <= i < |assignments| =>
      GroupAdd(roleName, assignments[i].key, assignments[i].value, authProviderId))
  }

  /** The groups whose pair is no longer wanted, in listing order. */
  function StaleGroups(groups: seq<GroupRecord>, wanted: seq<AssignmentPair>): (r: seq<GroupRecord>)
    ensures forall g :: g in r <==> g in groups && PairOf(g) !in wanted
  {
    if groups == [] then []
    else (if PairOf(groups[0]) !in wanted then [groups[0]] else []) + StaleGroups(groups[1..], wanted)
  }

  /** The wanted assignments not yet held, in wanted order. */
  function MissingAssignments(wanted: seq<AssignmentPair>, held: seq<AssignmentPair>): (r: seq<AssignmentPair>)
    ensures forall a :: a in r <==> a in wanted && a !in held
  {
    if wanted == [] then []
    else (if wanted[0] !in held then [wanted[0]] else []) + MissingAssignments(wanted[1..], held)
  }

  // One role at a time.

  /** create_role followed by create_group_batch for a role and its scope id. */
  function RoleCreation(role: Role, permissionSetId: string, scopeId: string, authProviderId: string): seq<Call>
  {
    [ CreateRole(role.name, role.description, permissionSetId, scopeId),
      CreateGroupBatch(GroupAdds(role.name, role.assignments, authProviderId)) ]
  }

  /**
   * Adds one role: resolves its permission set (an unknown name stops the
   * pass before any write), reuses the id of a known scope name or creates
   * the scope and remembers its id, then creates the role and its groups.
   */
  function AddStep(
    role: Role, scopeIds: map<string, string>, permissionSetIds: map<string, string>,
    created: nat, newScopeId: nat -> string, authProviderId: string, dryRun: bool): AddTrace
  {
    var scope := role.accessScope;
    if role.permissionSetName !in permissionSetIds then
      AddTrace([], scopeIds, created, Some(UnknownPermissionSet(role.permissionSetName)))
    else if dryRun then
      AddTrace([], scopeIds, created, None)
    else
      var permissionSetId := permissionSetIds[role.permissionSetName];
      if scope.name in scopeIds then
        AddTrace(RoleCreation(role, permissionSetId, scopeIds[scope.name], authProviderId), scopeIds, created, None)
      else
        var id := newScopeId(created);
        AddTrace(
          [CreateAccessScope(scope.name, scope.description, scope.clusters, scope.namespaces)]
            + RoleCreation(role, permissionSetId, id, authProviderId),
          scopeIds[scope.name := id], created + 1, None)
  }

  function AddPhase(
    roles: seq<Role>, scopeIds: map<string, string>, permissionSetIds: map<string, string>,
    created: nat, newScopeId: nat -> string, authProviderId: string, dryRun: bool): AddTrace
    decreases |roles|
  {
    if roles == [] then AddTrace([], scopeIds, created, None)
    else
      var step := AddStep(roles[0], scopeIds, permissionSetIds, created, newScopeId, authProviderId, dryRun);
      if step.error.Some? then step
      else
        var rest := AddPhase(roles[1..], step.scopeIds, permissionSetIds, step.created, newScopeId, authProviderId, dryRun);
        rest.(calls := step.calls + rest.calls)
  }

  /** Walking the add phase one role at a time; see `UpdatePhaseWalk`. */
  lemma AddPhaseWalk(
    roles: seq<Role>, i: nat, scopeIds: map<string, string>, permissionSetIds: map<string, string>,
    created: nat, newScopeId: nat -> string, authProviderId: string, dryRun: bool, whole: AddTrace, done: seq<Call>)
    requires i < |roles|
    requires var here := AddPhase(roles[i..], scopeIds, permissionSetIds, created, newScopeId, authProviderId, dryRun);
             whole == here.(calls := done + here.calls)
    ensures var step := AddStep(roles[i], scopeIds, permissionSetIds, created, newScopeId, authProviderId, dryRun);
            var next := AddPhase(roles[i + 1..], step.scopeIds, permissionSetIds, step.created, newScopeId, authProviderId, dryRun);
            if step.error.Some? then whole == step.(calls := done + step.calls)
            else whole == next.(calls := (done + step.calls) + next.calls)
  {
    assert roles[i..][0] == roles[i] && roles[i..][1..] == roles[i + 1..];
    var step := AddStep(roles[i], scopeIds, permissionSetIds, created, newScopeId, authProviderId, dryRun);
    var next := AddPhase(roles[i + 1..], step.scopeIds, permissionSetIds, step.created, newScopeId, authProviderId, dryRun);
    ConcatAssoc(done, step.calls, next.calls);
  }

  /**
   * Removes one role: resolves its scope's id (an unknown name stops the
   * pass before any write), then deletes the role's groups in one batch,
   * the role, and its access scope.
   */
  function DeleteStep(role: Role, scopeIds: map<string, string>, groups: seq<GroupRecord>, dryRun: bool): Trace
  {
    var scopeName := role.accessScope.name;
    if scopeName !in scopeIds then Trace([], Some(UnknownAccessScope(scopeName)))
    else if dryRun then Trace([], None)
    else Trace([DeleteGroupBatch(GroupsOf(groups, role.name)), DeleteRole(role.name), DeleteAccessScope(scopeIds[scopeName])], None)
  }

  function DeletePhase(roles: seq<Role>, scopeIds: map<string, string>, groups: seq<GroupRecord>, dryRun: bool): Trace
    decreases |roles|
  {
    if roles == [] then Trace([], None)
    else
      var step := DeleteStep(roles[0], scopeIds, groups, dryRun);
      if step.error.Some? then step
      else
        var rest := DeletePhase(roles[1..], scopeIds, groups, dryRun);
        Trace(step.calls + rest.calls, rest.error)
  }

  /** Walking the delete phase one role at a time; see `UpdatePhaseWalk`. */
  lemma DeletePhaseWalk(
    roles: seq<Role>, i: nat, scopeIds: map<string, string>, groups: seq<GroupRecord>, dryRun: bool,
    whole: Trace, done: seq<Call>)
    requires i < |roles|
    requires var here := DeletePhase(roles[i..], scopeIds, groups, dryRun);
             whole == Trace(done + here.calls, here.error)
    ensures var step := DeleteStep(roles[i], scopeIds, groups, dryRun);
            var next := DeletePhase(roles[i + 1..], scopeIds, groups, dryRun);
            if step.error.Some? then whole == Trace(done + step.calls, step.error)
            else whole == Trace((done + step.calls) + next.calls, next.error)
  {
    assert roles[i..][0] == roles[i] && roles[i..][1..] == roles[i + 1..];
    var step := DeleteStep(roles[i], scopeIds, groups, dryRun);
    var next := DeletePhase(roles[i + 1..], scopeIds, groups, dryRun);
    ConcatAssoc(done, step.calls, next.calls);
  }

  /** Whether the role itself (not only its members) must be rewritten. */
  predicate RoleFieldsDiffer(d: Role, c: Role)
  {
    d.accessScope != c.accessScope || d.permissionSetName != c.permissionSetName || d.description != c.description
  }

  /** The one group call an update needs, or none when nothing differs. */
  function GroupUpdate(d: Role, c: Role, groups: seq<GroupRecord>, authProviderId: string): seq<Call>
  {
    var removals := StaleGroups(GroupsOf(groups, c.name), d.assignments);
    var additions := GroupAdds(d.name, MissingAssignments(d.assignments, c.assignments), authProviderId);
    if removals == [] && additions == [] then [] else [UpdateGroupBatch(removals, additions)]
  }

  /**
   * Updates one role: when its fields differ, resolves the desired
   * permission set and the existing scope's id (an unknown name stops the
   * pass before any write), rewrites the scope if it differs and the role;
   * then issues one group batch for the members that differ.
   */
  function UpdateStep(
    d: Role, c: Role, scopeIds: map<string, string>, permissionSetIds: map<string, string>,
    groups: seq<GroupRecord>, authProviderId: string, dryRun: bool): Trace
  {
    var fieldsDiffer := RoleFieldsDiffer(d, c);
    if fieldsDiffer && d.permissionSetName !in permissionSetIds then
      Trace([], Some(UnknownPermissionSet(d.permissionSetName)))
    else if fieldsDiffer && c.accessScope.name !in scopeIds then
      Trace([], Some(UnknownAccessScope(c.accessScope.name)))
    else if dryRun then Trace([], None)
    else
      var scope := d.accessScope;
      var scopeCall :=
        if scope != c.accessScope then
          [UpdateAccessScope(scopeIds[c.accessScope.name], scope.name, scope.description, scope.clusters, scope.namespaces)]
        else [];
      var roleCall :=
        if fieldsDiffer then
          [UpdateRole(d.name, d.description, permissionSetIds[d.permissionSetName], scopeIds[c.accessScope.name])]
        else [];
      Trace(scopeCall + roleCall + GroupUpdate(d, c, groups, authProviderId), None)
  }

  function UpdatePhase(
    pairs: seq<(Role, Role)>, scopeIds: map<string, string>, permissionSetIds: map<string, string>,
    groups: seq<GroupRecord>, authProviderId: string, dryRun: bool): Trace
    decreases |pairs|
  {
    if pairs == [] then Trace([], None)
    else
      var step := UpdateStep(pairs[0].0, pairs[0].1, scopeIds, permissionSetIds, groups, authProviderId, dryRun);
      if step.error.Some? then step
      else
        var rest := UpdatePhase(pairs[1..], scopeIds, permissionSetIds, groups, authProviderId, dryRun);
        Trace(step.calls + rest.calls, rest.error)
  }

  /**
   * Walking the update phase: if `whole` is `done` followed by the phase from
   * position `i` on, then after the step at `i` it is `done` and that step
   * followed by the phase from `i + 1` on, or, when the step fails, it ends there.
   */
  lemma UpdatePhaseWalk(
    pairs: seq<(Role, Role)>, i: nat, scopeIds: map<string, string>, permissionSetIds: map<string, string>,
    groups: seq<GroupRecord>, authProviderId: string, dryRun: bool, whole: Trace, done: seq<Call>)
    requires i < |pairs|
    requires var here := UpdatePhase(pairs[i..], scopeIds, permissionSetIds, groups, authProviderId, dryRun);
             whole == Trace(done + here.calls, here.error)
    ensures var step := UpdateStep(pairs[i].0, pairs[i].1, scopeIds, permissionSetIds, groups, authProviderId, dryRun);
            var next := UpdatePhase(pairs[i + 1..], scopeIds, permissionSetIds, groups, authProviderId, dryRun);
            if step.error.Some? then whole == Trace(done + step.calls, step.error)
            else whole == Trace((done + step.calls) + next.calls, next.error)
  {
    assert pairs[i..][0] == pairs[i] && pairs[i..][1..] == pairs[i + 1..];
    var step := UpdateStep(pairs[i].0, pairs[i].1, scopeIds, permissionSetIds, groups, authProviderId, dryRun);
    var next := UpdatePhase(pairs[i + 1..], scopeIds, permissionSetIds, groups, authProviderId, dryRun);
    ConcatAssoc(done, step.calls, next.calls);
  }

  // Phases with the listings each fetches, only when it has work to do.

  function AddPart(
    toAdd: seq<Role>, p: Platform, created: nat, newScopeId: nat -> string, authProviderId: string, dryRun: bool): AddTrace
  {
    if toAdd == [] then AddTrace([], map[], created, None)
    else
      var t := AddPhase(toAdd, ScopeIdIndex(p.accessScopes), PermissionSetIdIndex(p.permissionSets),
                        created, newScopeId, authProviderId, dryRun);
      t.(calls := [GetAccessScopes, GetPermissionSets] + t.calls)
  }

  function DeletePart(toDelete: seq<Role>, p: Platform, dryRun: bool): Trace
  {
    if toDelete == [] then Trace([], None)
    else
      var t := DeletePhase(toDelete, ScopeIdIndex(p.accessScopes), p.groups, dryRun);
      t.(calls := [GetAccessScopes, GetGroups] + t.calls)
  }

  function UpdatePart(toUpdate: seq<(Role, Role)>, p: Platform, authProviderId: string, dryRun: bool): Trace
  {
    if toUpdate == [] then Trace([], None)
    else
      var t := UpdatePhase(toUpdate, ScopeIdIndex(p.accessScopes), PermissionSetIdIndex(p.permissionSets),
                           p.groups, authProviderId, dryRun);
      t.(calls := [GetAccessScopes, GetPermissionSets, GetGroups] + t.calls)
  }

  /**
   * reconcile: additions, then removals, then updates; the first error
   * stops the pass with the calls issued so far.
   */
  function Plan(
    desired: seq<Role>, current: seq<Role>, p: Platform, newScopeId: nat -> string, created: nat,
    authProviderId: string, dryRun: bool): PassTrace
  {
    var add := AddPart(RolesToAdd(desired, current), p, created, newScopeId, authProviderId, dryRun);
    if add.error.Some? then PassTrace(add.calls, add.created, add.error)
    else
      var del := DeletePart(RolesToDelete(desired, current), p, dryRun);
      if del.error.Some? then PassTrace(add.calls + del.calls, add.created, del.error)
      else
        var upd := UpdatePart(RolesToUpdate(desired, current), p, authProviderId, dryRun);
        PassTrace(add.calls + del.calls + upd.calls, add.created, upd.error)
  }
}
