/**
 * Current-state assembler: turns the platform's role, group, access-scope and
 * permission-set listings into canonical roles, the shape the desired state
 * is built in.
 */
module CurrentState {
  import opened Wrappers
  import opened AcsModel

  /** A role record referring to an id the platform cannot resolve. */
  datatype FetchError =
    | UnknownAccessScopeId(roleName: string, accessScopeId: string)
    | UnknownPermissionSetId(roleName: string, permissionSetId: string)

  /** The first listed record whose id, as `idOf` reads it, is `id`. */
  function ById<T>(records: seq<T>, idOf: T -> string, id: string): (r: Option<T>)
    ensures r.Some? ==> r.value in records && idOf(r.value) == id
    ensures r.None? <==> forall x :: x in records ==> idOf(x) != id
  {
    if records == [] then None
    else if idOf(records[0]) == id then Some(records[0])
    else ById(records[1..], idOf, id)
  }

  /** get_access_scope_by_id: the first listed scope with that id. */
  function AccessScopeById(scopes: seq<AccessScopeRecord>, id: string): Option<AccessScopeRecord>
  {
    ById(scopes, (s: AccessScopeRecord) => s.id, id)
  }

  /** get_permission_set_by_id: the first listed permission set with that id. */
  function PermissionSetById(sets: seq<PermissionSetRecord>, id: string): Option<PermissionSetRecord>
  {
    ById(sets, (s: PermissionSetRecord) => s.id, id)
  }

  /**
   * The canonical scope of a platform scope record; a record without rules
   * (the unrestricted scope) admits no listed cluster and no listed namespace.
   */
  function ToAccessScope(rec: AccessScopeRecord): (s: AccessScope)
    ensures s.name == rec.name && s.description == rec.description
    ensures rec.rules.None? ==> s.clusters == [] && s.namespaces == []
    ensures rec.rules.Some? ==>
      s.clusters == rec.rules.value.includedClusters && s.namespaces == rec.rules.value.includedNamespaces
  {
    match rec.rules
    case None => AccessScope(rec.name, rec.description, [], [])
    case Some(rules) => AccessScope(rec.name, rec.description, rules.includedClusters, rules.includedNamespaces)
  }

  /**
   * The assignments of one role: the (key, value) of each of its groups, in
   * listing order, so that the role's groups are exactly its assignments.
   */
  function AssignmentsOf(groups: seq<GroupRecord>, roleName: string): (a: seq<AssignmentPair>)
    ensures |a| == |GroupsOf(groups, roleName)|
    ensures forall i :: 0 <= i < |a| ==> a[i] == PairOf(GroupsOf(groups, roleName)[i])
  {
    if groups == [] then []
    else
      var rest := AssignmentsOf(groups[1..], roleName);
      if groups[0].roleName == roleName then
        assert GroupsOf(groups, roleName) == [groups[0]] + GroupsOf(groups[1..], roleName);
        [PairOf(groups[0])] + rest
      else
        assert GroupsOf(groups, roleName) == GroupsOf(groups[1..], roleName);
        rest
  }

  /** One role record with its scope and permission set looked up by id. */
  function AssembleRole(rec: RoleRecord, p: Platform): (r: Result<Role, FetchError>)
    ensures r.Success? <==>
      AccessScopeById(p.accessScopes, rec.accessScopeId).Some?
      && PermissionSetById(p.permissionSets, rec.permissionSetId).Some?
    ensures r.Success? ==>
      && r.value.name == rec.name
      && r.value.description == rec.description
      && r.value.assignments == AssignmentsOf(p.groups, rec.name)
      && r.value.permissionSetName == PermissionSetById(p.permissionSets, rec.permissionSetId).value.name
      && r.value.accessScope == ToAccessScope(AccessScopeById(p.accessScopes, rec.accessScopeId).value)
      && r.value.systemDefault == rec.systemDefault
    ensures r.Failure? ==> r.error.roleName == rec.name
  {
    match AccessScopeById(p.accessScopes, rec.accessScopeId)
    case None => Failure(UnknownAccessScopeId(rec.name, rec.accessScopeId))
    case Some(scope) =>
      match PermissionSetById(p.permissionSets, rec.permissionSetId)
      case None => Failure(UnknownPermissionSetId(rec.name, rec.permissionSetId))
      case Some(permissionSet) =>
        Success(Role(
          rec.name,
          rec.description,
          AssignmentsOf(p.groups, rec.name),
          permissionSet.name,
          ToAccessScope(scope),
          rec.systemDefault))
  }

  /**
   * Assembles the listed roles in order; the first record whose scope or
   * permission set cannot be resolved aborts the whole fetch.
   */
  function AssembleRoles(roles: seq<RoleRecord>, p: Platform): (r: Result<seq<Role>, FetchError>)
    ensures r.Success? <==> forall i :: 0 <= i < |roles| ==> AssembleRole(roles[i], p).Success?
    ensures r.Success? ==>
      |r.value| == |roles| && forall i :: 0 <= i < |roles| ==> r.value[i] == AssembleRole(roles[i], p).value
    ensures r.Failure? ==>
      exists i :: 0 <= i < |roles| && AssembleRole(roles[i], p) == Failure(r.error)
        && forall j :: 0 <= j < i ==> AssembleRole(roles[j], p).Success?
  {
    if roles == [] then Success([])
    else
      match AssembleRole(roles[0], p)
      case Failure(e) => Failure(e)
      case Success(role) =>
        match AssembleRoles(roles[1..], p)
        case Failure(e) =>
          var i :| 0 <= i < |roles[1..]| && AssembleRole(roles[1..][i], p) == Failure(e)
            && forall j :: 0 <= j < i ==> AssembleRole(roles[1..][j], p).Success?;
          assert AssembleRole(roles[i + 1], p) == Failure(e);
          Failure(e)
        case Success(rest) => Success([role] + rest)
  }

  /** get_current_state: every listed role, in get_roles order. */
  function GetCurrentState(p: Platform): Result<seq<Role>, FetchError>
  {
    AssembleRoles(p.roles, p)
  }

  /** The assignments of a role are the (key, value) pairs of the groups listed under its name. */
  lemma AssignmentsAreGroupPairs(groups: seq<GroupRecord>, roleName: string, x: AssignmentPair)
    ensures x in AssignmentsOf(groups, roleName)
        <==> exists g :: g in groups && g.roleName == roleName && x == PairOf(g)
  {
    var gs := GroupsOf(groups, roleName);
    var a := AssignmentsOf(groups, roleName);
    if x in a {
      var i :| 0 <= i < |a| && a[i] == x;
      assert gs[i] in gs;
    }
    if g :| g in groups && g.roleName == roleName && x == PairOf(g) {
      var i :| 0 <= i < |gs| && gs[i] == g;
      assert a[i] == x;
    }
  }

  /**
   * Each assembled role's assignments are exactly the (key, value) pairs of
   * the groups listed under its name.
   */
  lemma CurrentAssignmentsAreGroups(p: Platform)
    requires GetCurrentState(p).Success?
    ensures forall r :: r in GetCurrentState(p).value ==>
      forall a :: a in r.assignments <==> exists g :: g in p.groups && g.roleName == r.name && a == PairOf(g)
  {
    var roles := GetCurrentState(p).value;
    forall r, a | r in roles
      ensures a in r.assignments <==> exists g :: g in p.groups && g.roleName == r.name && a == PairOf(g)
    {
      var i :| 0 <= i < |roles| && roles[i] == r;
      assert r.assignments == AssignmentsOf(p.groups, r.name);
      AssignmentsAreGroupPairs(p.groups, r.name, a);
    }
  }
}
