/**
 * The records of the ACS RBAC reconciler: the canonical role model that both
 * the desired-state builder and the current-state assembler produce, and the
 * platform records (roles, groups, access scopes, permission sets) that the
 * ACS API lists.
 */
module AcsModel {
  import opened Wrappers

  /** Assignment key used for every desired member: the user's e-mail. */
  const EmailKey: string := "email"
  /** The platform's built-in scope that grants access everywhere. */
  const UnrestrictedName: string := "Unrestricted"
  const UnrestrictedDescription: string := "Access to all clusters and namespaces"

  /** A member-matching predicate: an identity attribute and its value. */
  datatype AssignmentPair = AssignmentPair(key: string, value: string)

  /** One namespace an access scope admits, named with its cluster. */
  datatype NamespaceRef = NamespaceRef(clusterName: string, namespaceName: string)

  datatype AccessScope = AccessScope(
    name: string,
    description: string,
    clusters: seq<string>,
    namespaces: seq<NamespaceRef>)

  /** The canonical role: the shape both desired and current state are compared in. */
  datatype Role = Role(
    name: string,
    description: string,
    assignments: seq<AssignmentPair>,
    permissionSetName: string,
    accessScope: AccessScope,
    systemDefault: bool)

  /** The scope every grant without clusters and namespaces maps to. */
  function UnrestrictedScope(): AccessScope
  {
    AccessScope(UnrestrictedName, UnrestrictedDescription, [], [])
  }

  // Platform records as the ACS API lists them.

  datatype RoleRecord = RoleRecord(
    name: string,
    permissionSetId: string,
    accessScopeId: string,
    description: string,
    systemDefault: bool)

  datatype GroupRecord = GroupRecord(
    id: string,
    roleName: string,
    key: string,
    value: string,
    authProviderId: string)

  /** The `rules` object of a platform access scope. */
  datatype ScopeRules = ScopeRules(includedClusters: seq<string>, includedNamespaces: seq<NamespaceRef>)

  datatype AccessScopeRecord = AccessScopeRecord(
    id: string,
    name: string,
    description: string,
    rules: Option<ScopeRules>)

  datatype PermissionSetRecord = PermissionSetRecord(id: string, name: string)

  /** A group to be created: one assignment bound to a role and an auth provider. */
  datatype GroupAdd = GroupAdd(roleName: string, key: string, value: string, authProviderId: string)

  /** The four listings the platform answers with. */
  datatype Platform = Platform(
    roles: seq<RoleRecord>,
    groups: seq<GroupRecord>,
    accessScopes: seq<AccessScopeRecord>,
    permissionSets: seq<PermissionSetRecord>)

  /** The (key, value) pair a group materialises. */
  function PairOf(g: GroupRecord): AssignmentPair
  {
    AssignmentPair(g.key, g.value)
  }

  predicate DistinctNames(roles: seq<Role>)
  {
    forall i, j :: 0 <= i < j < |roles| ==> roles[i].name != roles[j].name
  }

  function NameSet(roles: seq<Role>): set<string>
  {
    set r | r in roles :: r.name
  }

  /** Position of the first role called `name`, or |roles| when there is none. */
  function IndexOfName(roles: seq<Role>, name: string): (i: nat)
    ensures i <= |roles|
    ensures i < |roles| ==> roles[i].name == name
    ensures forall k :: 0 <= k < i ==> roles[k].name != name
  {
    if roles == [] then 0
    else if roles[0].name == name then 0
    else 1 + IndexOfName(roles[1..], name)
  }

  /** The groups of one role, in listing order. */
  function GroupsOf(groups: seq<GroupRecord>, roleName: string): (r: seq<GroupRecord>)
    ensures forall g :: g in r <==> g in groups && g.roleName == roleName
    ensures |r| <= |groups|
  {
    if groups == [] then []
    else (if groups[0].roleName == roleName then [groups[0]] else []) + GroupsOf(groups[1..], roleName)
  }
}
