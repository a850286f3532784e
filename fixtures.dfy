/**
 * The unit-test scenarios of the integration, replayed on the model: the
 * desired state built from the fixture users, the current state assembled
 * from the fixture listings, and the exact calls each reconciliation
 * scenario makes against a platform answering with those listings.
 */
module Fixtures {
  import opened Wrappers
  import opened AcsModel
  import opened DesiredState
  import opened CurrentState
  import opened Gateway
  import opened ReconcilePlan
  import opened SeqUtil
  import opened ReconcileProperties
  import Reconciler

  const AuthProvider := "6a41743c-792b-11ee-b962-0242ac120002"

  // The strings the fixtures share, each written once.

  const AdminName := "app-sre-acs-admin"
  const AdminDescription := "admin access to acs instance"
  const AnalystName := "cluster-analyst"
  const AnalystDescription := "analyst access to clusters in acs instance"
  const VulnName := "service-vuln-admin"
  const VulnDescription := "vuln-admin access to service namespaces in acs instance"
  const Foo := "foo@redhat.com"
  const Bar := "bar@redhat.com"
  const FooFoo := "foofoo@redhat.com"
  const BarBar := "barbar@redhat.com"
  const FooBar := "foobar@redhat.com"
  const AdminSet := "Admin"
  const AnalystSet := "Analyst"
  const VulnAdminSet := "Vulnerability Management Admin"

  // The three canonical roles the fixtures agree on.

  const AdminScope := AccessScope(UnrestrictedName, UnrestrictedDescription, [], [])
  const AnalystScope := AccessScope(AnalystName, AnalystDescription, ["clusterA", "clusterB"], [])
  const VulnNamespaces :=
    [NamespaceRef("stage-cluster", "serviceA-stage"), NamespaceRef("prod-cluster", "serviceA-prod")]
  const VulnScope := AccessScope(VulnName, VulnDescription, [], VulnNamespaces)

  const AdminRole := Role(
    AdminName, AdminDescription, [AssignmentPair(EmailKey, Foo), AssignmentPair(EmailKey, Bar)],
    AdminSet, AdminScope, false)
  const AnalystRole := Role(
    AnalystName, AnalystDescription, [AssignmentPair(EmailKey, FooFoo), AssignmentPair(EmailKey, BarBar)],
    AnalystSet, AnalystScope, false)
  const VulnRole := Role(
    VulnName, VulnDescription, [AssignmentPair(EmailKey, FooBar)],
    VulnAdminSet, VulnScope, false)

  const Modeled := [AdminRole, AnalystRole, VulnRole]

  // The platform's listings.

  const RoleRecords := [
    RoleRecord(AdminName, "1", "1", AdminDescription, false),
    RoleRecord(AnalystName, "2", "2", AnalystDescription, false),
    RoleRecord(VulnName, "3", "3", VulnDescription, false)]

  const Group1 := GroupRecord("1", AdminName, EmailKey, Foo, AuthProvider)
  const Group2 := GroupRecord("2", AdminName, EmailKey, Bar, AuthProvider)
  const Group3 := GroupRecord("3", AnalystName, EmailKey, FooFoo, AuthProvider)
  const Group4 := GroupRecord("4", AnalystName, EmailKey, BarBar, AuthProvider)
  const Group5 := GroupRecord("5", VulnName, EmailKey, FooBar, AuthProvider)
  const Groups := [Group1, Group2, Group3, Group4, Group5]

  const Scope1 := AccessScopeRecord("1", UnrestrictedName, UnrestrictedDescription, None)
  const Scope2 := AccessScopeRecord("2", AnalystName, AnalystDescription, Some(ScopeRules(["clusterA", "clusterB"], [])))
  const Scope3 := AccessScopeRecord("3", VulnName, VulnDescription, Some(ScopeRules([], VulnNamespaces)))
  const Scopes := [Scope1, Scope2, Scope3]

  const PermissionSets := [
    PermissionSetRecord("1", AdminSet),
    PermissionSetRecord("2", AnalystSet),
    PermissionSetRecord("3", VulnAdminSet)]

  const Listings := Platform(RoleRecords, Groups, Scopes, PermissionSets)

  /** The fixture role names are pairwise different (their lengths differ). */
  lemma NamesDiffer()
    ensures AdminName != AnalystName && AdminName != VulnName && AnalystName != VulnName
  {
    assert |AdminName| == 17 && |AnalystName| == 15 && |VulnName| == 18;
  }

  // Filtering groups by role, block by block.

  lemma {:induction false} GroupsOfAppend(a: seq<GroupRecord>, b: seq<GroupRecord>, roleName: string)
    ensures GroupsOf(a + b, roleName) == GroupsOf(a, roleName) + GroupsOf(b, roleName)
  {
    if a == [] {
      assert a + b == b;
    } else {
      assert (a + b)[1..] == a[1..] + b;
      GroupsOfAppend(a[1..], b, roleName);
    }
  }

  lemma {:induction false} GroupsOfAll(groups: seq<GroupRecord>, roleName: string)
    requires forall g :: g in groups ==> g.roleName == roleName
    ensures GroupsOf(groups, roleName) == groups
  {
    if groups != [] {
      assert groups == [groups[0]] + groups[1..];
      GroupsOfAll(groups[1..], roleName);
    }
  }

  lemma {:induction false} GroupsOfNone(groups: seq<GroupRecord>, roleName: string)
    requires forall g :: g in groups ==> g.roleName != roleName
    ensures GroupsOf(groups, roleName) == []
  {
    if groups != [] {
      GroupsOfNone(groups[1..], roleName);
    }
  }

  /** A listing made of other roles' groups, then one role's, then other roles' again, filters to the middle block. */
  lemma GroupsOfBlocks(a: seq<GroupRecord>, b: seq<GroupRecord>, c: seq<GroupRecord>, roleName: string)
    requires forall g :: g in a ==> g.roleName != roleName
    requires forall g :: g in b ==> g.roleName == roleName
    requires forall g :: g in c ==> g.roleName != roleName
    ensures GroupsOf(a + b + c, roleName) == b
  {
    GroupsOfAppend(a + b, c, roleName);
    GroupsOfAppend(a, b, roleName);
    GroupsOfNone(a, roleName);
    GroupsOfAll(b, roleName);
    GroupsOfNone(c, roleName);
  }

  lemma AdminGroups()
    ensures GroupsOf(Groups, AdminName) == [Group1, Group2]
  {
    NamesDiffer();
    assert Groups == [] + [Group1, Group2] + [Group3, Group4, Group5];
    GroupsOfBlocks([], [Group1, Group2], [Group3, Group4, Group5], AdminName);
  }

  lemma AnalystGroups()
    ensures GroupsOf(Groups, AnalystName) == [Group3, Group4]
  {
    NamesDiffer();
    assert Groups == [Group1, Group2] + [Group3, Group4] + [Group5];
    GroupsOfBlocks([Group1, Group2], [Group3, Group4], [Group5], AnalystName);
  }

  lemma VulnGroups()
    ensures GroupsOf(Groups, VulnName) == [Group5]
  {
    NamesDiffer();
    assert Groups == [Group1, Group2, Group3, Group4] + [Group5] + [];
    GroupsOfBlocks([Group1, Group2, Group3, Group4], [Group5], [], VulnName);
  }

  lemma PairsOfTwo(groups: seq<GroupRecord>, roleName: string, g: GroupRecord, h: GroupRecord)
    requires GroupsOf(groups, roleName) == [g, h]
    ensures AssignmentsOf(groups, roleName) == [PairOf(g), PairOf(h)]
  {
  }

  lemma PairsOfOne(groups: seq<GroupRecord>, roleName: string, g: GroupRecord)
    requires GroupsOf(groups, roleName) == [g]
    ensures AssignmentsOf(groups, roleName) == [PairOf(g)]
  {
  }

  lemma MembersOfListings()
    ensures AssignmentsOf(Groups, AdminName) == AdminRole.assignments
    ensures AssignmentsOf(Groups, AnalystName) == AnalystRole.assignments
    ensures AssignmentsOf(Groups, VulnName) == VulnRole.assignments
  {
    AdminGroups();
    PairsOfTwo(Groups, AdminName, Group1, Group2);
    AnalystGroups();
    PairsOfTwo(Groups, AnalystName, Group3, Group4);
    VulnGroups();
    PairsOfOne(Groups, VulnName, Group5);
  }

  lemma ScopeLookups()
    ensures AccessScopeById(Scopes, "1") == Some(Scope1)
    ensures AccessScopeById(Scopes, "2") == Some(Scope2)
    ensures AccessScopeById(Scopes, "3") == Some(Scope3)
  {
    assert Scope1 in Scopes && Scope2 in Scopes && Scope3 in Scopes;
  }

  lemma PermissionSetLookups()
    ensures PermissionSetById(PermissionSets, "1") == Some(PermissionSets[0])
    ensures PermissionSetById(PermissionSets, "2") == Some(PermissionSets[1])
    ensures PermissionSetById(PermissionSets, "3") == Some(PermissionSets[2])
  {
    assert PermissionSets[0] in PermissionSets && PermissionSets[1] in PermissionSets && PermissionSets[2] in PermissionSets;
  }

  lemma AdminAssembles()
    ensures AssembleRole(RoleRecords[0], Listings) == Success(AdminRole)
  {
    MembersOfListings();
    ScopeLookups();
    PermissionSetLookups();
  }

  lemma AnalystAssembles()
    ensures AssembleRole(RoleRecords[1], Listings) == Success(AnalystRole)
  {
    MembersOfListings();
    ScopeLookups();
    PermissionSetLookups();
  }

  lemma VulnAssembles()
    ensures AssembleRole(RoleRecords[2], Listings) == Success(VulnRole)
  {
    MembersOfListings();
    ScopeLookups();
    PermissionSetLookups();
  }

  lemma EachRecordAssembles()
    ensures |Listings.roles| == 3
    ensures forall i :: 0 <= i < 3 ==> AssembleRole(Listings.roles[i], Listings) == Success(Modeled[i])
  {
    forall i | 0 <= i < 3 ensures AssembleRole(Listings.roles[i], Listings) == Success(Modeled[i]) {
      if i == 0 {
        AdminAssembles();
      } else if i == 1 {
        AnalystAssembles();
      } else {
        VulnAssembles();
      }
    }
  }

  /** get_current_state over the fixture listings yields the three canonical roles, in listing order. */
  lemma CurrentStateOfListings()
    ensures GetCurrentState(Listings) == Success(Modeled)
  {
    EachRecordAssembles();
    var r := AssembleRoles(Listings.roles, Listings);
    assert r.Success?;
    assert r.value == Modeled;
  }

  // The query data: five users, each holding one permission through one role.

  const AdminPermission := OidcPermission(AdminName, AdminDescription, "acs", AdminLabel, [], [])
  const AnalystPermission := OidcPermission(
    AnalystName, AnalystDescription, "acs", AnalystLabel, [ClusterRef("clusterA"), ClusterRef("clusterB")], [])
  const VulnPermission := OidcPermission(
    VulnName, VulnDescription, "acs", VulnAdminLabel, [],
    [NamespaceEntry("serviceA-stage", ClusterRef("stage-cluster")),
     NamespaceEntry("serviceA-prod", ClusterRef("prod-cluster"))])

  const Users := [
    User(Foo, [UserRole("app-sre-admin", [AdminPermission])]),
    User(Bar, [UserRole("app-sre-admin", [AdminPermission])]),
    User(FooFoo, [UserRole("tenant-role-a", [AnalystPermission])]),
    User(BarBar, [UserRole("tenant-role-a", [AnalystPermission])]),
    User(FooBar, [UserRole("tenant-role-b", [VulnPermission])])]

  const FixtureGrants := [
    Grant(Foo, AdminPermission), Grant(Bar, AdminPermission),
    Grant(FooFoo, AnalystPermission), Grant(BarBar, AnalystPermission),
    Grant(FooBar, VulnPermission)]

  lemma OneRoleOnePermission(user: string, roleName: string, p: OidcPermission)
    ensures RoleGrants(user, [UserRole(roleName, [p])]) == [Grant(user, p)]
  {
    assert [UserRole(roleName, [p])][1..] == [];
    assert [p][1..] == [];
    assert PermissionGrants(user, [p]) == [Grant(user, p)] + PermissionGrants(user, []);
    assert RoleGrants(user, [UserRole(roleName, [p])]) == PermissionGrants(user, [p]) + RoleGrants(user, []);
  }

  lemma {:induction false} GrantsAppend(a: seq<User>, b: seq<User>)
    ensures Grants(a + b) == Grants(a) + Grants(b)
  {
    if a == [] {
      assert a + b == b;
    } else {
      assert (a + b)[1..] == a[1..] + b;
      GrantsAppend(a[1..], b);
    }
  }

  lemma GrantsOfOne(u: User)
    ensures Grants([u]) == RoleGrants(u.acsUser, u.roles)
  {
    assert [u][1..] == [];
  }

  lemma EachUserGrants()
    ensures forall i :: 0 <= i < 5 ==> Grants([Users[i]]) == [FixtureGrants[i]]
  {
    forall i | 0 <= i < 5 ensures Grants([Users[i]]) == [FixtureGrants[i]] {
      GrantsOfOne(Users[i]);
      OneRoleOnePermission(Users[i].acsUser, Users[i].roles[0].name, FixtureGrants[i].permission);
    }
  }

  /** Users contributing one grant each contribute them in user order. */
  lemma {:induction false} OneGrantEach(us: seq<User>, gs: seq<Grant>)
    requires |us| == |gs|
    requires forall i :: 0 <= i < |us| ==> Grants([us[i]]) == [gs[i]]
    ensures Grants(us) == gs
  {
    if us != [] {
      assert us == [us[0]] + us[1..];
      GrantsAppend([us[0]], us[1..]);
      assert Grants([us[0]]) == [gs[0]];
      OneGrantEach(us[1..], gs[1..]);
    }
  }

  lemma GrantsOfUsers()
    ensures Grants(Users) == FixtureGrants
  {
    EachUserGrants();
    OneGrantEach(Users, FixtureGrants);
  }

  lemma AccumulateSnoc(gs: seq<Grant>, g: Grant)
    ensures Accumulate(gs + [g]) == AddGrant(Accumulate(gs), g)
  {
    assert (gs + [g])[..|gs|] == gs;
  }

  /** The users' e-mail addresses are pairwise different. */
  lemma EmailsDiffer()
    ensures Foo != Bar && FooFoo != BarBar
  {
    assert Foo[0] != Bar[0] && FooFoo[0] != BarBar[0];
  }

  lemma AdminFromGrants()
    ensures RoleFor(AdminPermission, [Email(Foo), Email(Bar)]) == AdminRole
  {
  }

  lemma AnalystFromGrants()
    ensures RoleFor(AnalystPermission, [Email(FooFoo), Email(BarBar)]) == AnalystRole
  {
    var s := ScopeFor(AnalystPermission);
    assert s.clusters == ["clusterA", "clusterB"];
  }

  lemma VulnFromGrants()
    ensures RoleFor(VulnPermission, [Email(FooBar)]) == VulnRole
  {
    var s := ScopeFor(VulnPermission);
    assert s.namespaces == VulnNamespaces;
  }

  /** A grant for a permission no role is named after opens a new role at the end. */
  lemma GrantOpensRole(roles: seq<Role>, g: Grant)
    requires forall k :: 0 <= k < |roles| ==> roles[k].name != g.permission.name
    ensures AddGrant(roles, g) == roles + [RoleFor(g.permission, [Email(g.user)])]
  {
    assert IndexOfName(roles, g.permission.name) == |roles|;
  }

  /** A grant for the k-th role's permission, from a user not yet in it, appends that user there. */
  lemma GrantJoinsRole(roles: seq<Role>, k: nat, g: Grant)
    requires k < |roles| && roles[k].name == g.permission.name
    requires forall j :: 0 <= j < k ==> roles[j].name != g.permission.name
    requires Email(g.user) !in roles[k].assignments
    ensures AddGrant(roles, g) == roles[k := roles[k].(assignments := roles[k].assignments + [Email(g.user)])]
  {
    assert IndexOfName(roles, g.permission.name) == k;
  }

  lemma FirstGrant()
    ensures Accumulate(FixtureGrants[..1]) == [RoleFor(AdminPermission, [Email(Foo)])]
  {
    var g := FixtureGrants;
    assert g[..1] == [] + [g[0]];
    AccumulateSnoc([], g[0]);
    GrantOpensRole([], g[0]);
  }

  lemma FirstTwoGrants()
    ensures Accumulate(FixtureGrants[..2]) == [AdminRole]
  {
    var g := FixtureGrants;
    assert g[..2] == g[..1] + [g[1]];
    AccumulateSnoc(g[..1], g[1]);
    FirstGrant();
    EmailsDiffer();
    var first := RoleFor(AdminPermission, [Email(Foo)]);
    GrantJoinsRole([first], 0, g[1]);
    var both := [Email(Foo)] + [Email(Bar)];
    assert both == [Email(Foo), Email(Bar)];
    assert first.(assignments := both) == RoleFor(AdminPermission, both);
    assert [first][0 := first.(assignments := both)] == [first.(assignments := both)];
    AdminFromGrants();
  }

  lemma FirstThreeGrants()
    ensures Accumulate(FixtureGrants[..3]) == [AdminRole, RoleFor(AnalystPermission, [Email(FooFoo)])]
  {
    var g := FixtureGrants;
    assert g[..3] == g[..2] + [g[2]];
    AccumulateSnoc(g[..2], g[2]);
    FirstTwoGrants();
    NamesDiffer();
    GrantOpensRole([AdminRole], g[2]);
  }

  lemma FirstFourGrants()
    ensures Accumulate(FixtureGrants[..4]) == [AdminRole, AnalystRole]
  {
    var g := FixtureGrants;
    assert g[..4] == g[..3] + [g[3]];
    AccumulateSnoc(g[..3], g[3]);
    FirstThreeGrants();
    NamesDiffer();
    EmailsDiffer();
    var third := RoleFor(AnalystPermission, [Email(FooFoo)]);
    GrantJoinsRole([AdminRole, third], 1, g[3]);
    var both := [Email(FooFoo)] + [Email(BarBar)];
    assert both == [Email(FooFoo), Email(BarBar)];
    assert third.(assignments := both) == RoleFor(AnalystPermission, both);
    assert [AdminRole, third][1 := third.(assignments := both)] == [AdminRole, third.(assignments := both)];
    AnalystFromGrants();
  }

  /** get_desired_state over the fixture users yields the three canonical roles. */
  lemma DesiredStateOfUsers()
    ensures GetDesiredState(Users) == Modeled
  {
    GrantsOfUsers();
    var g := FixtureGrants;
    assert g == g[..4] + [g[4]];
    AccumulateSnoc(g[..4], g[4]);
    FirstFourGrants();
    NamesDiffer();
    GrantOpensRole([AdminRole, AnalystRole], g[4]);
    VulnFromGrants();
  }

  // Evaluating the diff on small lists.

  /** Roles with distinct names key to themselves, in order. */
  lemma {:induction false} KeyedDistinct(roles: seq<Role>)
    requires DistinctNames(roles)
    ensures Keyed(roles) == roles
  {
    if roles != [] {
      var front := roles[..|roles| - 1];
      var r := roles[|roles| - 1];
      assert DistinctNames(front);
      KeyedDistinct(front);
      assert forall k :: 0 <= k < |front| ==> front[k].name != r.name;
      assert roles == front + [r];
    }
  }

  lemma {:induction false} AbsentKeepsAll(roles: seq<Role>, names: set<string>)
    requires forall r :: r in roles ==> r.name !in names
    ensures Absent(roles, names) == roles
  {
    if roles != [] {
      assert roles == [roles[0]] + roles[1..];
      AbsentKeepsAll(roles[1..], names);
    }
  }

  lemma {:induction false} AbsentAppend(a: seq<Role>, b: seq<Role>, names: set<string>)
    ensures Absent(a + b, names) == Absent(a, names) + Absent(b, names)
  {
    if a == [] {
      assert a + b == b;
    } else {
      assert (a + b)[1..] == a[1..] + b;
      AbsentAppend(a[1..], b, names);
    }
  }

  /** A desired role already on the platform unchanged needs no update. */
  lemma ChangedSame(d: Role, current: seq<Role>, k: nat)
    requires DistinctNames(current) && k < |current| && current[k] == d
    ensures Changed([d], current) == []
  {
    assert IndexOfName(current, d.name) == k;
    assert [d][1..] == [];
  }

  /** A desired role not on the platform is no update. */
  lemma ChangedMissing(d: Role, current: seq<Role>)
    requires forall c :: c in current ==> c.name != d.name
    ensures Changed([d], current) == []
  {
    assert [d][1..] == [];
  }

  /** A desired role whose platform namesake differs is paired with it. */
  lemma ChangedDiffers(d: Role, current: seq<Role>, k: nat)
    requires DistinctNames(current) && k < |current| && current[k].name == d.name && current[k] != d
    ensures Changed([d], current) == [(d, current[k])]
  {
    assert IndexOfName(current, d.name) == k;
    assert [d][1..] == [];
  }

  /** A pass whose diff holds only removals issues just the delete part. */
  lemma PlanOnlyDeletes(
    desired: seq<Role>, current: seq<Role>, p: Platform, newScopeId: nat -> string, created: nat,
    authProviderId: string, dryRun: bool, del: Trace)
    requires RolesToAdd(desired, current) == [] && RolesToUpdate(desired, current) == []
    requires DeletePart(RolesToDelete(desired, current), p, dryRun) == del && del.error.None?
    ensures Plan(desired, current, p, newScopeId, created, authProviderId, dryRun) == PassTrace(del.calls, created, None)
  {
    assert [] + del.calls + [] == del.calls;
  }

  /** A pass whose diff holds only changed roles issues just the update part. */
  lemma PlanOnlyUpdates(
    desired: seq<Role>, current: seq<Role>, p: Platform, newScopeId: nat -> string, created: nat,
    authProviderId: string, dryRun: bool, upd: Trace)
    requires RolesToAdd(desired, current) == [] && RolesToDelete(desired, current) == []
    requires UpdatePart(RolesToUpdate(desired, current), p, authProviderId, dryRun) == upd
    ensures Plan(desired, current, p, newScopeId, created, authProviderId, dryRun) == PassTrace(upd.calls, created, upd.error)
  {
    assert [] + [] + upd.calls == upd.calls;
  }

  /** The update part for one changed role: the three listings, then that role's step. */
  lemma UpdatePartOne(d: Role, c: Role, p: Platform, authProviderId: string, step: Trace)
    requires UpdateStep(d, c, ScopeIdIndex(p.accessScopes), PermissionSetIdIndex(p.permissionSets),
                        p.groups, authProviderId, false) == step
    requires step.error.None?
    ensures UpdatePart([(d, c)], p, authProviderId, false)
      == Trace([GetAccessScopes, GetPermissionSets, GetGroups] + step.calls, None)
  {
    UpdatePhaseOne(d, c, ScopeIdIndex(p.accessScopes), PermissionSetIdIndex(p.permissionSets),
                   p.groups, authProviderId, false);
  }

  /** The add part for one role: the two listings, then that role's step. */
  lemma AddPartOne(r: Role, p: Platform, created: nat, newScopeId: nat -> string, authProviderId: string)
    requires AddStep(r, ScopeIdIndex(p.accessScopes), PermissionSetIdIndex(p.permissionSets),
                     created, newScopeId, authProviderId, false).error.None?
    ensures var step := AddStep(r, ScopeIdIndex(p.accessScopes), PermissionSetIdIndex(p.permissionSets),
                                created, newScopeId, authProviderId, false);
            AddPart([r], p, created, newScopeId, authProviderId, false)
              == step.(calls := [GetAccessScopes, GetPermissionSets] + step.calls)
  {
    AddPhaseOne(r, ScopeIdIndex(p.accessScopes), PermissionSetIdIndex(p.permissionSets),
                created, newScopeId, authProviderId, false);
  }

  /** The delete part for one role: the two listings, then that role's step. */
  lemma DeletePartOne(r: Role, p: Platform, step: Trace)
    requires DeleteStep(r, ScopeIdIndex(p.accessScopes), p.groups, false) == step
    requires step.error.None?
    ensures DeletePart([r], p, false) == Trace([GetAccessScopes, GetGroups] + step.calls, None)
  {
    DeletePhaseOne(r, ScopeIdIndex(p.accessScopes), p.groups, false);
  }

  lemma AddPhaseOne(
    r: Role, scopeIds: map<string, string>, permissionSetIds: map<string, string>,
    created: nat, newScopeId: nat -> string, authProviderId: string, dryRun: bool)
    requires AddStep(r, scopeIds, permissionSetIds, created, newScopeId, authProviderId, dryRun).error.None?
    ensures AddPhase([r], scopeIds, permissionSetIds, created, newScopeId, authProviderId, dryRun)
      == AddStep(r, scopeIds, permissionSetIds, created, newScopeId, authProviderId, dryRun)
  {
    assert [r][1..] == [];
  }

  lemma DeletePhaseOne(r: Role, scopeIds: map<string, string>, groups: seq<GroupRecord>, dryRun: bool)
    requires DeleteStep(r, scopeIds, groups, dryRun).error.None?
    ensures DeletePhase([r], scopeIds, groups, dryRun) == DeleteStep(r, scopeIds, groups, dryRun)
  {
    assert [r][1..] == [];
  }

  lemma UpdatePhaseOne(
    d: Role, c: Role, scopeIds: map<string, string>, permissionSetIds: map<string, string>,
    groups: seq<GroupRecord>, authProviderId: string, dryRun: bool)
    requires UpdateStep(d, c, scopeIds, permissionSetIds, groups, authProviderId, dryRun).error.None?
    ensures UpdatePhase([(d, c)], scopeIds, permissionSetIds, groups, authProviderId, dryRun)
      == UpdateStep(d, c, scopeIds, permissionSetIds, groups, authProviderId, dryRun)
  {
    assert [(d, c)][1..] == [];
  }

  /** With distinct names on both sides, the diff needs no keying. */
  lemma DiffOfDistinct(desired: seq<Role>, current: seq<Role>)
    requires DistinctNames(desired) && DistinctNames(current)
    ensures RolesToAdd(desired, current) == Absent(desired, NameSet(current))
    ensures RolesToDelete(desired, current) == Absent(current, NameSet(desired))
    ensures RolesToUpdate(desired, current) == Changed(desired, current)
  {
    KeyedDistinct(desired);
    KeyedDistinct(current);
  }

  lemma NameSetOfTwo(x: Role, y: Role)
    ensures NameSet([x, y]) == {x.name, y.name}
  {
    assert x in [x, y] && y in [x, y];
  }

  lemma NameSetOfThree(x: Role, y: Role, z: Role)
    ensures NameSet([x, y, z]) == {x.name, y.name, z.name}
  {
    assert x in [x, y, z] && y in [x, y, z] && z in [x, y, z];
  }

  lemma AbsentOfTwo(x: Role, y: Role, names: set<string>)
    ensures Absent([x, y], names) == (if x.name in names then [] else [x]) + (if y.name in names then [] else [y])
  {
    assert [x, y][1..] == [y] && [y][1..] == [];
    assert Absent([y], names) == (if y.name in names then [] else [y]);
  }

  lemma AbsentOfThree(x: Role, y: Role, z: Role, names: set<string>)
    ensures Absent([x, y, z], names)
      == (if x.name in names then [] else [x]) + (if y.name in names then [] else [y]) + (if z.name in names then [] else [z])
  {
    assert [x, y, z][1..] == [y, z];
    AbsentOfTwo(y, z, names);
  }

  lemma ChangedCons(x: Role, rest: seq<Role>, current: seq<Role>)
    ensures Changed([x] + rest, current) == Changed([x], current) + Changed(rest, current)
  {
    assert ([x] + rest)[0] == x && ([x] + rest)[1..] == rest && [x][1..] == [];
  }

  lemma ChangedOfTwo(x: Role, y: Role, current: seq<Role>)
    ensures Changed([x, y], current) == Changed([x], current) + Changed([y], current)
  {
    assert [x, y] == [x] + [y];
    ChangedCons(x, [y], current);
  }

  lemma ChangedOfThree(x: Role, y: Role, z: Role, current: seq<Role>)
    ensures Changed([x, y, z], current) == Changed([x], current) + Changed([y], current) + Changed([z], current)
  {
    assert [x, y, z] == [x] + [y, z];
    ChangedCons(x, [y, z], current);
    ChangedOfTwo(y, z, current);
  }

  lemma ModeledDistinct()
    ensures DistinctNames(Modeled)
  {
    NamesDiffer();
  }

  lemma {:induction false} AbsentDropsAll(roles: seq<Role>, names: set<string>)
    requires forall r :: r in roles ==> r.name in names
    ensures Absent(roles, names) == []
  {
    if roles != [] {
      AbsentDropsAll(roles[1..], names);
    }
  }

  /** The listed scope names resolve to their ids. */
  lemma ScopeIds()
    ensures var m := ScopeIdIndex(Scopes);
            UnrestrictedName in m && m[UnrestrictedName] == "1" && AnalystName in m && m[AnalystName] == "2"
            && VulnName in m && m[VulnName] == "3"
  {
    NamesDiffer();
    assert |UnrestrictedName| == 12;
    assert Scopes[0] in Scopes && Scopes[1] in Scopes && Scopes[2] in Scopes;
  }

  /** The listed permission-set names resolve to their ids. */
  lemma PermissionSetIds()
    ensures var m := PermissionSetIdIndex(PermissionSets);
            AdminSet in m && m[AdminSet] == "1" && AnalystSet in m && m[AnalystSet] == "2"
            && VulnAdminSet in m && m[VulnAdminSet] == "3"
  {
    assert |AdminSet| == 5 && |AnalystSet| == 7 && |VulnAdminSet| == 30;
    assert PermissionSets[0] in PermissionSets && PermissionSets[1] in PermissionSets && PermissionSets[2] in PermissionSets;
  }

  // test_add_rbac: the platform lacks the vulnerability admin role and its scope.

  const AddCurrent := [AdminRole, AnalystRole]
  const AddListings := Platform(RoleRecords, Groups, [Scope1, Scope2], PermissionSets)
  /** The mock's create_access_scope answers with the id "3". */
  const ScopeIdThree := (n: nat) => "3"

  lemma AddCurrentDistinct()
    ensures DistinctNames(AddCurrent)
  {
    NamesDiffer();
  }

  lemma AddDiffAdds()
    ensures RolesToAdd(Modeled, AddCurrent) == [VulnRole]
  {
    ModeledDistinct();
    AddCurrentDistinct();
    DiffOfDistinct(Modeled, AddCurrent);
    NameSetOfTwo(AdminRole, AnalystRole);
    VulnOnlyOutside();
  }

  lemma AddDiffKeepsCurrent()
    ensures RolesToDelete(Modeled, AddCurrent) == []
  {
    ModeledDistinct();
    AddCurrentDistinct();
    DiffOfDistinct(Modeled, AddCurrent);
    NameSetOfThree(AdminRole, AnalystRole, VulnRole);
    AbsentOfTwo(AdminRole, AnalystRole, NameSet(Modeled));
  }

  lemma AddDiffKeeps()
    ensures RolesToDelete(Modeled, AddCurrent) == []
    ensures RolesToUpdate(Modeled, AddCurrent) == []
  {
    NamesDiffer();
    ModeledDistinct();
    AddCurrentDistinct();
    AddDiffKeepsCurrent();
    DiffOfDistinct(Modeled, AddCurrent);
    ChangedOfThree(AdminRole, AnalystRole, VulnRole, AddCurrent);
    ChangedSame(AdminRole, AddCurrent, 0);
    ChangedSame(AnalystRole, AddCurrent, 1);
    ChangedMissing(VulnRole, AddCurrent);
  }

  /** The calls test_add_rbac expects: the two listings, the new scope, the role under it, its groups. */
  const AddCalls := [
    GetAccessScopes, GetPermissionSets,
    CreateAccessScope(VulnName, VulnDescription, [], VulnNamespaces),
    CreateRole(VulnName, VulnDescription, "3", "3"),
    CreateGroupBatch([GroupAdd(VulnName, EmailKey, FooBar, AuthProvider)])]

  /** Creating the vulnerability admin where its scope is unknown and its permission set has id 3. */
  lemma VulnCreation(scopeIds: map<string, string>, permissionSetIds: map<string, string>)
    requires VulnName !in scopeIds
    requires VulnAdminSet in permissionSetIds && permissionSetIds[VulnAdminSet] == "3"
    ensures var step := AddStep(VulnRole, scopeIds, permissionSetIds, 0, ScopeIdThree, AuthProvider, false);
            step.calls == AddCalls[2..] && step.created == 1 && step.error.None?
  {
    var adds := GroupAdds(VulnName, VulnRole.assignments, AuthProvider);
    assert |adds| == 1 && adds[0] == GroupAdd(VulnName, EmailKey, FooBar, AuthProvider);
    assert adds == [GroupAdd(VulnName, EmailKey, FooBar, AuthProvider)];
    assert AddCalls[2..] == [CreateAccessScope(VulnName, VulnDescription, [], VulnNamespaces)]
      + RoleCreation(VulnRole, "3", "3", AuthProvider);
  }

  lemma AddVulnStep()
    ensures var step := AddStep(
              VulnRole, ScopeIdIndex(AddListings.accessScopes), PermissionSetIdIndex(PermissionSets),
              0, ScopeIdThree, AuthProvider, false);
            step.calls == AddCalls[2..] && step.created == 1 && step.error.None?
  {
    NamesDiffer();
    PermissionSetIds();
    assert |UnrestrictedName| == 12;
    assert VulnName !in ScopeIdIndex(AddListings.accessScopes);
    VulnCreation(ScopeIdIndex(AddListings.accessScopes), PermissionSetIdIndex(PermissionSets));
  }

  lemma AddVulnPart()
    ensures var add := AddPart([VulnRole], AddListings, 0, ScopeIdThree, AuthProvider, false);
            add.calls == AddCalls && add.created == 1 && add.error.None?
  {
    AddVulnStep();
    AddPartOne(VulnRole, AddListings, 0, ScopeIdThree, AuthProvider);
    assert AddCalls == [GetAccessScopes, GetPermissionSets] + AddCalls[2..];
  }

  /**
   * test_add_rbac: the missing role's scope is created first, then the role
   * under the new scope id with its permission set's id, then its one group.
   */
  lemma AddScenario()
    ensures Plan(Modeled, AddCurrent, AddListings, ScopeIdThree, 0, AuthProvider, false) == PassTrace(AddCalls, 1, None)
  {
    AddDiffAdds();
    AddDiffKeeps();
    AddVulnPart();
    assert AddCalls + [] + [] == AddCalls;
  }

  /** test_add_rbac_dry_run: only the two listings are read; nothing is created. */
  lemma AddDryRunScenario()
    ensures Plan(Modeled, AddCurrent, AddListings, ScopeIdThree, 0, AuthProvider, true)
      == PassTrace([GetAccessScopes, GetPermissionSets], 0, None)
  {
    AddDiffAdds();
    AddDiffKeeps();
    AddVulnPart();
    AddPartDryRun([VulnRole], AddListings, 0, ScopeIdThree, AuthProvider);
  }

  // test_delete_rbac: the analyst role is no longer wanted.

  const DeleteDesired := [AdminRole, VulnRole]

  /** The calls test_delete_rbac expects: the role's groups, the role, then its scope. */
  const DeleteCalls := [
    GetAccessScopes, GetGroups,
    DeleteGroupBatch([Group3, Group4]), DeleteRole(AnalystName), DeleteAccessScope("2")]

  lemma DeleteDesiredDistinct()
    ensures DistinctNames(DeleteDesired)
  {
    NamesDiffer();
  }

  lemma AnalystOnlyOutside()
    ensures Absent(Modeled, {AdminName, VulnName}) == [AnalystRole]
  {
    NamesDiffer();
    AbsentOfThree(AdminRole, AnalystRole, VulnRole, {AdminName, VulnName});
  }

  lemma DeleteDiffRemoves()
    ensures RolesToDelete(DeleteDesired, Modeled) == [AnalystRole]
  {
    ModeledDistinct();
    DeleteDesiredDistinct();
    DiffOfDistinct(DeleteDesired, Modeled);
    NameSetOfTwo(AdminRole, VulnRole);
    AnalystOnlyOutside();
  }

  lemma DeleteDiffKeepsDesired()
    ensures RolesToAdd(DeleteDesired, Modeled) == []
  {
    ModeledDistinct();
    DeleteDesiredDistinct();
    DiffOfDistinct(DeleteDesired, Modeled);
    NameSetOfThree(AdminRole, AnalystRole, VulnRole);
    AbsentOfTwo(AdminRole, VulnRole, NameSet(Modeled));
  }

  lemma DeleteDiffKeeps()
    ensures RolesToAdd(DeleteDesired, Modeled) == []
    ensures RolesToUpdate(DeleteDesired, Modeled) == []
  {
    ModeledDistinct();
    DeleteDesiredDistinct();
    DeleteDiffKeepsDesired();
    DiffOfDistinct(DeleteDesired, Modeled);
    ChangedOfTwo(AdminRole, VulnRole, Modeled);
    ChangedSame(AdminRole, Modeled, 0);
    ChangedSame(VulnRole, Modeled, 2);
  }

  lemma AnalystRemoval(scopeIds: map<string, string>)
    requires AnalystName in scopeIds && scopeIds[AnalystName] == "2"
    ensures DeleteStep(AnalystRole, scopeIds, Groups, false) == Trace(DeleteCalls[2..], None)
  {
    AnalystGroups();
  }

  lemma DeleteAnalystStep()
    ensures DeleteStep(AnalystRole, ScopeIdIndex(Scopes), Groups, false) == Trace(DeleteCalls[2..], None)
  {
    ScopeIds();
    AnalystRemoval(ScopeIdIndex(Scopes));
  }

  lemma DeleteAnalystPart()
    ensures DeletePart([AnalystRole], Listings, false) == Trace(DeleteCalls, None)
  {
    DeleteAnalystStep();
    DeletePartOne(AnalystRole, Listings, Trace(DeleteCalls[2..], None));
    assert DeleteCalls == [GetAccessScopes, GetGroups] + DeleteCalls[2..];
  }

  /**
   * test_delete_rbac: the role's groups go in one batch, then the role,
   * then the scope listed under the role's scope name.
   */
  lemma DeleteScenario()
    ensures Plan(DeleteDesired, Modeled, Listings, ScopeIdThree, 0, AuthProvider, false) == PassTrace(DeleteCalls, 0, None)
  {
    DeleteDiffRemoves();
    DeleteDiffKeeps();
    DeleteAnalystPart();
    PlanOnlyDeletes(DeleteDesired, Modeled, Listings, ScopeIdThree, 0, AuthProvider, false, Trace(DeleteCalls, None));
  }

  /** Of the three canonical roles, only the vulnerability admin is outside the first two names. */
  lemma VulnOnlyOutside()
    ensures Absent(Modeled, {AdminName, AnalystName}) == [VulnRole]
  {
    NamesDiffer();
    AbsentOfThree(AdminRole, AnalystRole, VulnRole, {AdminName, AnalystName});
  }

  lemma DeleteDryRemoves()
    ensures RolesToDelete(AddCurrent, Modeled) == [VulnRole]
  {
    ModeledDistinct();
    AddCurrentDistinct();
    DiffOfDistinct(AddCurrent, Modeled);
    NameSetOfTwo(AdminRole, AnalystRole);
    VulnOnlyOutside();
  }

  lemma DeleteDryKeepsDesired()
    ensures RolesToAdd(AddCurrent, Modeled) == []
  {
    ModeledDistinct();
    AddCurrentDistinct();
    DiffOfDistinct(AddCurrent, Modeled);
    NameSetOfThree(AdminRole, AnalystRole, VulnRole);
    AbsentOfTwo(AdminRole, AnalystRole, NameSet(Modeled));
  }

  lemma DeleteDryKeeps()
    ensures RolesToAdd(AddCurrent, Modeled) == []
    ensures RolesToUpdate(AddCurrent, Modeled) == []
  {
    ModeledDistinct();
    AddCurrentDistinct();
    DeleteDryKeepsDesired();
    DiffOfDistinct(AddCurrent, Modeled);
    ChangedOfTwo(AdminRole, AnalystRole, Modeled);
    ChangedSame(AdminRole, Modeled, 0);
    ChangedSame(AnalystRole, Modeled, 1);
  }

  lemma DeleteVulnStep()
    ensures DeleteStep(VulnRole, ScopeIdIndex(Scopes), Groups, false).error.None?
  {
    ScopeIds();
  }

  lemma DeleteVulnPart()
    ensures DeletePart([VulnRole], Listings, false).error.None?
  {
    DeleteVulnStep();
    DeletePhaseOne(VulnRole, ScopeIdIndex(Scopes), Groups, false);
  }

  lemma DeleteVulnDry()
    ensures DeletePart([VulnRole], Listings, true) == Trace([GetAccessScopes, GetGroups], None)
  {
    DeleteVulnPart();
    DeletePartDryRun([VulnRole], Listings);
  }

  /** test_delete_rbac_dry_run: only the scope and group listings are read; nothing is deleted. */
  lemma DeleteDryRunScenario()
    ensures Plan(AddCurrent, Modeled, Listings, ScopeIdThree, 0, AuthProvider, true)
      == PassTrace([GetAccessScopes, GetGroups], 0, None)
  {
    DeleteDryRemoves();
    DeleteDryKeeps();
    DeleteVulnDry();
    PlanOnlyDeletes(AddCurrent, Modeled, Listings, ScopeIdThree, 0, AuthProvider, true,
                    Trace([GetAccessScopes, GetGroups], None));
  }

  // test_update_rbac_groups_only: one admin member differs on the platform.

  const Lasagna := "lasagna"
  const AdminLasagna := AdminRole.(assignments := [AssignmentPair(EmailKey, Lasagna), AssignmentPair(EmailKey, Bar)])
  const GroupsCurrent := [AdminLasagna, AnalystRole, VulnRole]
  const Group1Lasagna := Group1.(value := Lasagna)
  const GroupsLasagna := [Group1Lasagna, Group2, Group3, Group4, Group5]
  const GroupsListings := Platform(RoleRecords, GroupsLasagna, Scopes, PermissionSets)

  /** The calls test_update_rbac_groups_only expects: three listings and one group batch. */
  const GroupsCalls := [
    GetAccessScopes, GetPermissionSets, GetGroups,
    UpdateGroupBatch([Group1Lasagna], [GroupAdd(AdminName, EmailKey, Foo, AuthProvider)])]

  lemma GroupsCurrentDistinct()
    ensures DistinctNames(GroupsCurrent)
  {
    NamesDiffer();
  }

  lemma GroupsDiffKeepsCurrent()
    ensures RolesToDelete(Modeled, GroupsCurrent) == []
  {
    ModeledDistinct();
    GroupsCurrentDistinct();
    DiffOfDistinct(Modeled, GroupsCurrent);
    NameSetOfThree(AdminRole, AnalystRole, VulnRole);
    AbsentOfThree(AdminLasagna, AnalystRole, VulnRole, NameSet(Modeled));
  }

  lemma GroupsDiffKeeps()
    ensures RolesToAdd(Modeled, GroupsCurrent) == []
    ensures RolesToDelete(Modeled, GroupsCurrent) == []
  {
    ModeledDistinct();
    GroupsCurrentDistinct();
    GroupsDiffKeepsCurrent();
    DiffOfDistinct(Modeled, GroupsCurrent);
    NameSetOfThree(AdminLasagna, AnalystRole, VulnRole);
    AbsentOfThree(AdminRole, AnalystRole, VulnRole, NameSet(GroupsCurrent));
  }

  lemma GroupsDiffUpdates()
    ensures RolesToUpdate(Modeled, GroupsCurrent) == [(AdminRole, AdminLasagna)]
  {
    ModeledDistinct();
    GroupsCurrentDistinct();
    DiffOfDistinct(Modeled, GroupsCurrent);
    GroupsChanged();
  }

  lemma GroupsChanged()
    ensures Changed(Modeled, GroupsCurrent) == [(AdminRole, AdminLasagna)]
  {
    GroupsCurrentDistinct();
    assert |Lasagna| == 7 && |Foo| == 14;
    assert AdminLasagna.assignments[0] != AdminRole.assignments[0];
    ChangedOfThree(AdminRole, AnalystRole, VulnRole, GroupsCurrent);
    ChangedDiffers(AdminRole, GroupsCurrent, 0);
    ChangedSame(AnalystRole, GroupsCurrent, 1);
    ChangedSame(VulnRole, GroupsCurrent, 2);
  }

  lemma AdminGroupsLasagna()
    ensures GroupsOf(GroupsLasagna, AdminName) == [Group1Lasagna, Group2]
  {
    NamesDiffer();
    assert GroupsLasagna == [] + [Group1Lasagna, Group2] + [Group3, Group4, Group5];
    GroupsOfBlocks([], [Group1Lasagna, Group2], [Group3, Group4, Group5], AdminName);
  }

  /** The lasagna group is the only stale one; foo is the only missing member. */
  lemma AdminGroupUpdate()
    ensures GroupUpdate(AdminRole, AdminLasagna, GroupsLasagna, AuthProvider)
      == [UpdateGroupBatch([Group1Lasagna], [GroupAdd(AdminName, EmailKey, Foo, AuthProvider)])]
  {
    AdminGroupsLasagna();
    assert |Lasagna| == 7 && |Foo| == 14 && |Bar| == 14 && Foo[0] != Bar[0];
    var wanted := AdminRole.assignments;
    assert PairOf(Group1Lasagna) !in wanted;
    assert PairOf(Group2) in wanted;
    assert StaleGroups([Group2], wanted) == [];
    assert StaleGroups([Group1Lasagna, Group2], wanted) == [Group1Lasagna];
    var held := AdminLasagna.assignments;
    assert wanted[1] in held && wanted[0] !in held;
    assert MissingAssignments(wanted[1..], held) == [];
    assert MissingAssignments(wanted, held) == [wanted[0]];
    var adds := GroupAdds(AdminName, [wanted[0]], AuthProvider);
    assert |adds| == 1 && adds[0] == GroupAdd(AdminName, EmailKey, Foo, AuthProvider);
    assert StaleGroups(GroupsOf(GroupsLasagna, AdminLasagna.name), wanted) == [Group1Lasagna];
    assert GroupAdds(AdminRole.name, MissingAssignments(wanted, held), AuthProvider)
      == [GroupAdd(AdminName, EmailKey, Foo, AuthProvider)];
  }

  lemma AdminLasagnaStep()
    ensures UpdateStep(AdminRole, AdminLasagna, ScopeIdIndex(Scopes), PermissionSetIdIndex(PermissionSets),
                       GroupsLasagna, AuthProvider, false)
      == Trace(GroupsCalls[3..], None)
  {
    AdminGroupUpdate();
    assert !RoleFieldsDiffer(AdminRole, AdminLasagna);
  }

  lemma GroupsOnlyPart()
    ensures UpdatePart([(AdminRole, AdminLasagna)], GroupsListings, AuthProvider, false) == Trace(GroupsCalls, None)
  {
    AdminLasagnaStep();
    UpdatePhaseOne(AdminRole, AdminLasagna, ScopeIdIndex(Scopes), PermissionSetIdIndex(PermissionSets),
                   GroupsLasagna, AuthProvider, false);
    assert GroupsCalls == [GetAccessScopes, GetPermissionSets, GetGroups] + GroupsCalls[3..];
  }

  /**
   * test_update_rbac_groups_only: the role itself and its scope are left
   * alone; one batch swaps the stale group for the missing member.
   */
  lemma GroupsOnlyScenario()
    ensures Plan(Modeled, GroupsCurrent, GroupsListings, ScopeIdThree, 0, AuthProvider, false)
      == PassTrace(GroupsCalls, 0, None)
  {
    GroupsDiffKeeps();
    GroupsDiffUpdates();
    GroupsOnlyPart();
    PlanOnlyUpdates(Modeled, GroupsCurrent, GroupsListings, ScopeIdThree, 0, AuthProvider, false, Trace(GroupsCalls, None));
  }

  // test_full_reconcile: one role to add, one to delete, one to rewrite.

  const NewRoleName := "new-role"
  const NewRoleDescription := "add me"
  const Elsa := "elsa@redhat.com"
  const Anna := "anna@redhat.com"
  /** The added role reuses the existing unrestricted scope and the admin permission set. */
  const NewRole := Role(
    NewRoleName, NewRoleDescription, [AssignmentPair(EmailKey, Elsa), AssignmentPair(EmailKey, Anna)],
    AdminSet, AdminScope, false)
  const FullDesired := [AdminRole, AnalystRole, NewRole]

  /** On the platform the analyst role has another permission set and one cluster fewer. */
  const AnalystCurrent := AnalystRole.(permissionSetName := VulnAdminSet, accessScope := AnalystScope.(clusters := ["clusterA"]))
  const FullCurrent := [AdminRole, AnalystCurrent, VulnRole]
  const Scope2Narrow := Scope2.(rules := Some(ScopeRules(["clusterA"], [])))
  const FullScopes := [Scope1, Scope2Narrow, Scope3]
  const FullListings := Platform(RoleRecords, Groups, FullScopes, PermissionSets)

  const NewRoleGroupAdds := [GroupAdd(NewRoleName, EmailKey, Elsa, AuthProvider), GroupAdd(NewRoleName, EmailKey, Anna, AuthProvider)]
  const FullAddCalls := [
    GetAccessScopes, GetPermissionSets,
    CreateRole(NewRoleName, NewRoleDescription, "1", "1"),
    CreateGroupBatch(NewRoleGroupAdds)]
  const FullDeleteCalls := [
    GetAccessScopes, GetGroups, DeleteGroupBatch([Group5]), DeleteRole(VulnName), DeleteAccessScope("3")]
  const FullUpdateCalls := [
    GetAccessScopes, GetPermissionSets, GetGroups,
    AnalystScopeRewrite, AnalystRoleRewrite]
  const AnalystScopeRewrite := UpdateAccessScope("2", AnalystName, AnalystDescription, ["clusterA", "clusterB"], [])
  const AnalystRoleRewrite := UpdateRole(AnalystName, AnalystDescription, "2", "2")

  /**
   * The calls test_full_reconcile expects, in order: three scope listings,
   * two permission-set listings, two group listings, no scope created and
   * no group batch rewritten.
   */
  const FullCalls := FullAddCalls + FullDeleteCalls + FullUpdateCalls

  lemma NewNameDiffers()
    ensures NewRoleName != AdminName && NewRoleName != AnalystName && NewRoleName != VulnName
  {
    assert |NewRoleName| == 8 && |AdminName| == 17 && |AnalystName| == 15 && |VulnName| == 18;
  }

  lemma FullDistinct()
    ensures DistinctNames(FullDesired) && DistinctNames(FullCurrent)
  {
    NamesDiffer();
    NewNameDiffers();
  }

  lemma FullAddedOnly()
    ensures Absent(FullDesired, {AdminName, AnalystName, VulnName}) == [NewRole]
  {
    NamesDiffer();
    NewNameDiffers();
    AbsentOfThree(AdminRole, AnalystRole, NewRole, {AdminName, AnalystName, VulnName});
  }

  lemma FullDiffAdds()
    ensures RolesToAdd(FullDesired, FullCurrent) == [NewRole]
  {
    FullDistinct();
    DiffOfDistinct(FullDesired, FullCurrent);
    NameSetOfThree(AdminRole, AnalystCurrent, VulnRole);
    FullAddedOnly();
  }

  lemma FullRemovedOnly()
    ensures Absent(FullCurrent, {AdminName, AnalystName, NewRoleName}) == [VulnRole]
  {
    NamesDiffer();
    NewNameDiffers();
    AbsentOfThree(AdminRole, AnalystCurrent, VulnRole, {AdminName, AnalystName, NewRoleName});
  }

  lemma FullDiffDeletes()
    ensures RolesToDelete(FullDesired, FullCurrent) == [VulnRole]
  {
    FullDistinct();
    DiffOfDistinct(FullDesired, FullCurrent);
    NameSetOfThree(AdminRole, AnalystRole, NewRole);
    FullRemovedOnly();
  }

  lemma AnalystRewritten()
    ensures Changed([AnalystRole], FullCurrent) == [(AnalystRole, AnalystCurrent)]
  {
    FullDistinct();
    assert AnalystRole.permissionSetName != AnalystCurrent.permissionSetName by {
      assert |AnalystSet| == 7 && |VulnAdminSet| == 30;
    }
    ChangedDiffers(AnalystRole, FullCurrent, 1);
  }

  lemma NewRoleUnlisted()
    ensures Changed([NewRole], FullCurrent) == []
  {
    NewNameDiffers();
    ChangedMissing(NewRole, FullCurrent);
  }

  lemma FullDiffUpdates()
    ensures RolesToUpdate(FullDesired, FullCurrent) == [(AnalystRole, AnalystCurrent)]
  {
    FullDistinct();
    DiffOfDistinct(FullDesired, FullCurrent);
    FullChanged();
  }

  lemma FullChanged()
    ensures Changed(FullDesired, FullCurrent) == [(AnalystRole, AnalystCurrent)]
  {
    FullDistinct();
    ChangedOfThree(AdminRole, AnalystRole, NewRole, FullCurrent);
    ChangedSame(AdminRole, FullCurrent, 0);
    AnalystRewritten();
    NewRoleUnlisted();
  }

  lemma FullScopeIds()
    ensures var m := ScopeIdIndex(FullScopes);
            UnrestrictedName in m && m[UnrestrictedName] == "1" && AnalystName in m && m[AnalystName] == "2"
            && VulnName in m && m[VulnName] == "3"
  {
    NamesDiffer();
    assert |UnrestrictedName| == 12;
    assert FullScopes[0] in FullScopes && FullScopes[1] in FullScopes && FullScopes[2] in FullScopes;
  }

  lemma NewRoleGroups()
    ensures GroupAdds(NewRoleName, NewRole.assignments, AuthProvider) == NewRoleGroupAdds
  {
    var adds := GroupAdds(NewRoleName, NewRole.assignments, AuthProvider);
    assert |adds| == 2;
    assert adds[0] == NewRoleGroupAdds[0] && adds[1] == NewRoleGroupAdds[1];
  }

  lemma NewRoleCreation(scopeIds: map<string, string>, permissionSetIds: map<string, string>)
    requires UnrestrictedName in scopeIds && scopeIds[UnrestrictedName] == "1"
    requires AdminSet in permissionSetIds && permissionSetIds[AdminSet] == "1"
    ensures AddStep(NewRole, scopeIds, permissionSetIds, 0, ScopeIdThree, AuthProvider, false)
      == AddTrace(FullAddCalls[2..], scopeIds, 0, None)
  {
    NewRoleGroups();
    assert RoleCreation(NewRole, "1", "1", AuthProvider) == FullAddCalls[2..];
  }

  /** The new role's scope is known already: no scope is created and no id consumed. */
  lemma NewRoleStep()
    ensures var step := AddStep(
              NewRole, ScopeIdIndex(FullScopes), PermissionSetIdIndex(PermissionSets),
              0, ScopeIdThree, AuthProvider, false);
            step == AddTrace(FullAddCalls[2..], ScopeIdIndex(FullScopes), 0, None)
  {
    FullScopeIds();
    PermissionSetIds();
    NewRoleCreation(ScopeIdIndex(FullScopes), PermissionSetIdIndex(PermissionSets));
  }

  lemma NewRolePart()
    ensures var add := AddPart([NewRole], FullListings, 0, ScopeIdThree, AuthProvider, false);
            add.calls == FullAddCalls && add.created == 0 && add.error.None?
  {
    NewRoleStep();
    AddPartOne(NewRole, FullListings, 0, ScopeIdThree, AuthProvider);
    assert FullAddCalls == [GetAccessScopes, GetPermissionSets] + FullAddCalls[2..];
  }

  lemma VulnRemoval(scopeIds: map<string, string>)
    requires VulnName in scopeIds && scopeIds[VulnName] == "3"
    ensures DeleteStep(VulnRole, scopeIds, Groups, false) == Trace(FullDeleteCalls[2..], None)
  {
    VulnGroups();
  }

  lemma FullDeleteStep()
    ensures DeleteStep(VulnRole, ScopeIdIndex(FullScopes), Groups, false) == Trace(FullDeleteCalls[2..], None)
  {
    FullScopeIds();
    VulnRemoval(ScopeIdIndex(FullScopes));
  }

  lemma FullDeletePart()
    ensures DeletePart([VulnRole], FullListings, false) == Trace(FullDeleteCalls, None)
  {
    FullDeleteStep();
    DeletePartOne(VulnRole, FullListings, Trace(FullDeleteCalls[2..], None));
    assert FullDeleteCalls == [GetAccessScopes, GetGroups] + FullDeleteCalls[2..];
  }

  lemma AnalystNoneStale()
    ensures StaleGroups([Group3, Group4], AnalystRole.assignments) == []
  {
    var wanted := AnalystRole.assignments;
    assert PairOf(Group3) == wanted[0] && PairOf(Group4) == wanted[1];
    assert StaleGroups([Group4], wanted) == [];
  }

  lemma AnalystNoneMissing()
    ensures MissingAssignments(AnalystRole.assignments, AnalystCurrent.assignments) == []
  {
    var wanted := AnalystRole.assignments;
    assert AnalystCurrent.assignments == wanted;
    assert MissingAssignments(wanted[1..], wanted) == [];
  }

  /** The analyst's members agree on both sides: no group batch. */
  lemma AnalystGroupsAgree()
    ensures GroupUpdate(AnalystRole, AnalystCurrent, Groups, AuthProvider) == []
  {
    AnalystGroups();
    AnalystNoneStale();
    AnalystNoneMissing();
    assert GroupAdds(AnalystName, [], AuthProvider) == [];
  }

  lemma AnalystFieldsDiffer()
    ensures RoleFieldsDiffer(AnalystRole, AnalystCurrent)
    ensures AnalystRole.accessScope != AnalystCurrent.accessScope
  {
    assert |AnalystRole.accessScope.clusters| == 2;
  }

  /** The analyst rewrite against any id maps that resolve its two names as the listings do. */
  lemma AnalystRewrite(scopeIds: map<string, string>, permissionSetIds: map<string, string>)
    requires AnalystName in scopeIds && scopeIds[AnalystName] == "2"
    requires AnalystSet in permissionSetIds && permissionSetIds[AnalystSet] == "2"
    ensures UpdateStep(AnalystRole, AnalystCurrent, scopeIds, permissionSetIds, Groups, AuthProvider, false)
      == Trace([AnalystScopeRewrite, AnalystRoleRewrite], None)
  {
    AnalystFieldsDiffer();
    AnalystGroupsAgree();
    assert [AnalystScopeRewrite] + [AnalystRoleRewrite] + [] == [AnalystScopeRewrite, AnalystRoleRewrite];
  }

  /**
   * The scope is rewritten under the listed id of the current scope's name,
   * then the role under the desired permission set's id and that scope id.
   */
  lemma AnalystUpdateStep()
    ensures UpdateStep(AnalystRole, AnalystCurrent, ScopeIdIndex(FullScopes), PermissionSetIdIndex(PermissionSets),
                       Groups, AuthProvider, false)
      == Trace([AnalystScopeRewrite, AnalystRoleRewrite], None)
  {
    FullScopeIds();
    PermissionSetIds();
    AnalystRewrite(ScopeIdIndex(FullScopes), PermissionSetIdIndex(PermissionSets));
  }

  lemma AnalystUpdatePart()
    ensures UpdatePart([(AnalystRole, AnalystCurrent)], FullListings, AuthProvider, false) == Trace(FullUpdateCalls, None)
  {
    AnalystUpdateStep();
    UpdatePartOne(AnalystRole, AnalystCurrent, FullListings, AuthProvider,
                  Trace([AnalystScopeRewrite, AnalystRoleRewrite], None));
  }

  /** test_full_reconcile: additions, then removals, then updates, each with its own listings. */
  lemma FullScenario()
    ensures Plan(FullDesired, FullCurrent, FullListings, ScopeIdThree, 0, AuthProvider, false)
      == PassTrace(FullCalls, 0, None)
  {
    FullDiffAdds();
    FullDiffDeletes();
    FullDiffUpdates();
    NewRolePart();
    FullDeletePart();
    AnalystUpdatePart();
  }

  // The same scenarios through the gateway and the reconciler itself.

  /** test_add_rbac against a fresh gateway: the log is the expected calls and one scope was created. */
  method AddReconcileRun() returns (log: seq<Call>, created: nat, error: Option<ReconcileError>)
    ensures log == AddCalls && created == 1 && error.None?
  {
    var gw := new AcsGateway(AddListings, ScopeIdThree);
    error := Reconciler.Reconcile(Modeled, AddCurrent, gw, AuthProvider, false);
    AddScenario();
    log, created := gw.log, gw.created;
  }

  /** test_full_reconcile against a fresh gateway: the log is the expected calls, in order. */
  method FullReconcileRun() returns (log: seq<Call>, created: nat, error: Option<ReconcileError>)
    ensures log == FullCalls && created == 0 && error.None?
  {
    var gw := new AcsGateway(FullListings, ScopeIdThree);
    error := Reconciler.Reconcile(FullDesired, FullCurrent, gw, AuthProvider, false);
    FullScenario();
    log, created := gw.log, gw.created;
  }
}
