/**
 * Desired-state builder: turns the user -> role -> OIDC permission records of
 * the app-interface query into canonical roles, one role per OIDC permission.
 */
module DesiredState {
  import opened AcsModel
  import opened SeqUtil

  /** The permission-set labels an ACS OIDC permission may carry. */
  datatype PermissionSetLabel = AdminLabel | AnalystLabel | VulnAdminLabel

  datatype ClusterRef = ClusterRef(name: string)
  datatype NamespaceEntry = NamespaceEntry(name: string, cluster: ClusterRef)

  datatype OidcPermission = OidcPermission(
    name: string,
    description: string,
    service: string,
    permissionSet: PermissionSetLabel,
    clusters: seq<ClusterRef>,
    namespaces: seq<NamespaceEntry>)

  datatype UserRole = UserRole(name: string, oidcPermissions: seq<OidcPermission>)
  datatype User = User(acsUser: string, roles: seq<UserRole>)

  /** One user holding one OIDC permission through one of their roles. */
  datatype Grant = Grant(user: string, permission: OidcPermission)

  /**
   * The platform's name for a permission-set label: each label has its own
   * name, so distinct labels name distinct permission sets.
   */
  function PermissionSetName(setLabel: PermissionSetLabel): (name: string)
    ensures setLabel == AdminLabel <==> name == "Admin"
    ensures setLabel == AnalystLabel <==> name == "Analyst"
    ensures setLabel == VulnAdminLabel <==> name == "Vulnerability Management Admin"
  {
    match setLabel
    case AdminLabel => "Admin"
    case AnalystLabel => "Analyst"
    case VulnAdminLabel => "Vulnerability Management Admin"
  }

  /**
   * The scope a permission grants: the platform's unrestricted scope when it
   * lists no cluster and no namespace, otherwise a scope named and described
   * after the permission holding its clusters and (cluster, namespace) pairs.
   */
  function ScopeFor(p: OidcPermission): (s: AccessScope)
    ensures |p.clusters| == 0 && |p.namespaces| == 0 ==> s == UnrestrictedScope()
    ensures |p.clusters| > 0 || |p.namespaces| > 0 ==>
      && s.name == p.name
      && s.description == p.description
      && |s.clusters| == |p.clusters|
      && (forall i :: 0 <= i < |p.clusters| ==> s.clusters[i] == p.clusters[i].name)
      && |s.namespaces| == |p.namespaces|
      && (forall i :: 0 <= i < |p.namespaces| ==>
            s.namespaces[i] == NamespaceRef(p.namespaces[i].cluster.name, p.namespaces[i].name))
  {
    if |p.clusters| == 0 && |p.namespaces| == 0 then UnrestrictedScope()
    else
      AccessScope(
        p.name,
        p.description,
        seq(|p.clusters|, i requires 0 <= i < |p.clusters| => p.clusters[i].name),
        seq(|p.namespaces|, i requires 0 <= i < |p.namespaces| =>
          NamespaceRef(p.namespaces[i].cluster.name, p.namespaces[i].name)))
  }

  function Email(user: string): AssignmentPair
  {
    AssignmentPair(EmailKey, user)
  }

  /** The role a permission becomes, given the members holding it. */
  function RoleFor(p: OidcPermission, assignments: seq<AssignmentPair>): Role
  {
    Role(p.name, p.description, assignments, PermissionSetName(p.permissionSet), ScopeFor(p), false)
  }

  // Flattening the query result into grants, user by user, role by role.

  function PermissionGrants(user: string, perms: seq<OidcPermission>): (gs: seq<Grant>)
    ensures forall g :: g in gs <==> g.user == user && g.permission in perms
  {
    if perms == [] then [] else [Grant(user, perms[0])] + PermissionGrants(user, perms[1..])
  }

  function RoleGrants(user: string, roles: seq<UserRole>): (gs: seq<Grant>)
    ensures forall g :: g in gs <==>
      g.user == user && exists j :: 0 <= j < |roles| && g.permission in roles[j].oidcPermissions
  {
    if roles == [] then []
    else
      PermissionGrants(user, roles[0].oidcPermissions) + RoleGrants(user, roles[1..])
  }

  /** Every (user, permission) pair of the query, in query order. */
  function Grants(users: seq<User>): (gs: seq<Grant>)
    ensures forall g :: g in gs <==>
      exists i :: 0 <= i < |users| && g in RoleGrants(users[i].acsUser, users[i].roles)
  {
    if users == [] then []
    else
      RoleGrants(users[0].acsUser, users[0].roles) + Grants(users[1..])
  }

  // The builder proper: one pass over the grants, keyed by permission name.

  /** Adds one grant: a new member of an existing role, or a new role. */
  function AddGrant(roles: seq<Role>, g: Grant): seq<Role>
  {
    var i := IndexOfName(roles, g.permission.name);
    if i < |roles| then roles[i := roles[i].(assignments := AppendNew(roles[i].assignments, Email(g.user)))]
    else roles + [RoleFor(g.permission, [Email(g.user)])]
  }

  function Accumulate(gs: seq<Grant>): seq<Role>
  {
    if gs == [] then [] else AddGrant(Accumulate(gs[..|gs| - 1]), gs[|gs| - 1])
  }

  /** get_desired_state: the roles the configuration asks for. */
  function GetDesiredState(users: seq<User>): seq<Role>
  {
    Accumulate(Grants(users))
  }

  // An independent description of the same result.

  function PermissionNames(gs: seq<Grant>): (names: seq<string>)
  {
    seq(|gs|, i requires 0 <= i < |gs| => gs[i].permission.name)
  }

  /** The first permission in `gs` called `name`: the one whose fields the role takes. */
  function FirstPermission(gs: seq<Grant>, name: string): (p: OidcPermission)
    requires name in PermissionNames(gs)
    ensures p.name == name
  {
    if gs[0].permission.name == name then gs[0].permission
    else
      assert PermissionNames(gs[1..]) == PermissionNames(gs)[1..];
      FirstPermission(gs[1..], name)
  }

  /** The e-mail of every user granted the permission `name`, in grant order. */
  function HoldersOf(gs: seq<Grant>, name: string): seq<AssignmentPair>
  {
    if gs == [] then []
    else
      var last := gs[|gs| - 1];
      HoldersOf(gs[..|gs| - 1], name) + (if last.permission.name == name then [Email(last.user)] else [])
  }

  /**
   * The roles the builder must produce: one per distinct permission name in
   * first-appearance order, with the fields of its first occurrence and one
   * e-mail assignment per distinct holder, in grant order.
   */
  function ReferenceRoles(gs: seq<Grant>): seq<Role>
  {
    var names := Dedup(PermissionNames(gs));
    seq(|names|, i requires 0 <= i < |names| =>
      RoleFor(FirstPermission(gs, names[i]), Dedup(HoldersOf(gs, names[i]))))
  }

  lemma PermissionNamesSnoc(gs: seq<Grant>, g: Grant)
    ensures PermissionNames(gs + [g]) == PermissionNames(gs) + [g.permission.name]
  {
  }

  lemma {:induction false} FirstPermissionSnoc(gs: seq<Grant>, g: Grant, name: string)
    requires name in PermissionNames(gs)
    ensures name in PermissionNames(gs + [g])
    ensures FirstPermission(gs + [g], name) == FirstPermission(gs, name)
  {
    PermissionNamesSnoc(gs, g);
    if gs[0].permission.name != name {
      assert PermissionNames(gs[1..]) == PermissionNames(gs)[1..];
      assert (gs + [g])[1..] == gs[1..] + [g];
      FirstPermissionSnoc(gs[1..], g, name);
    }
  }

  lemma {:induction false} FirstPermissionNew(gs: seq<Grant>, g: Grant)
    requires g.permission.name !in PermissionNames(gs)
    ensures g.permission.name in PermissionNames(gs + [g])
    ensures FirstPermission(gs + [g], g.permission.name) == g.permission
  {
    PermissionNamesSnoc(gs, g);
    if gs != [] {
      assert gs[0].permission.name == PermissionNames(gs)[0];
      assert PermissionNames(gs[1..]) == PermissionNames(gs)[1..];
      assert (gs + [g])[1..] == gs[1..] + [g];
      FirstPermissionNew(gs[1..], g);
    }
  }

  lemma {:induction false} HoldersOfAbsent(gs: seq<Grant>, name: string)
    requires name !in PermissionNames(gs)
    ensures HoldersOf(gs, name) == []
  {
    if gs != [] {
      PermissionNamesSnoc(gs[..|gs| - 1], gs[|gs| - 1]);
      assert gs[..|gs| - 1] + [gs[|gs| - 1]] == gs;
      HoldersOfAbsent(gs[..|gs| - 1], name);
    }
  }

  lemma HoldersOfSnoc(gs: seq<Grant>, g: Grant, name: string)
    ensures HoldersOf(gs + [g], name)
         == HoldersOf(gs, name) + (if g.permission.name == name then [Email(g.user)] else [])
  {
    assert (gs + [g])[..|gs + [g]| - 1] == gs;
  }

  lemma ReferenceRolesAt(gs: seq<Grant>, k: nat)
    requires k < |Dedup(PermissionNames(gs))|
    ensures |ReferenceRoles(gs)| == |Dedup(PermissionNames(gs))|
    ensures var name := Dedup(PermissionNames(gs))[k];
            && name in PermissionNames(gs)
            && ReferenceRoles(gs)[k] == RoleFor(FirstPermission(gs, name), Dedup(HoldersOf(gs, name)))
            && ReferenceRoles(gs)[k].name == name
  {
  }

  /** A grant for another permission leaves the role for `m` as it was. */
  lemma GrantOtherPermission(pre: seq<Grant>, g: Grant, m: string)
    requires m in PermissionNames(pre) && m != g.permission.name
    ensures m in PermissionNames(pre + [g])
    ensures RoleFor(FirstPermission(pre + [g], m), Dedup(HoldersOf(pre + [g], m)))
         == RoleFor(FirstPermission(pre, m), Dedup(HoldersOf(pre, m)))
  {
    FirstPermissionSnoc(pre, g, m);
    HoldersOfSnoc(pre, g, m);
    assert HoldersOf(pre, m) + [] == HoldersOf(pre, m);
  }

  /** A grant for a permission already seen adds its holder to that role. */
  lemma GrantSamePermission(pre: seq<Grant>, g: Grant)
    requires g.permission.name in PermissionNames(pre)
    ensures g.permission.name in PermissionNames(pre + [g])
    ensures RoleFor(FirstPermission(pre + [g], g.permission.name), Dedup(HoldersOf(pre + [g], g.permission.name)))
         == RoleFor(FirstPermission(pre, g.permission.name),
                    AppendNew(Dedup(HoldersOf(pre, g.permission.name)), Email(g.user)))
  {
    var n := g.permission.name;
    FirstPermissionSnoc(pre, g, n);
    HoldersOfSnoc(pre, g, n);
    DedupSnoc(HoldersOf(pre, n), Email(g.user));
  }

  /** The reference roles are named after the distinct permission names, in order. */
  lemma ReferenceRolesNamed(gs: seq<Grant>)
    ensures |ReferenceRoles(gs)| == |Dedup(PermissionNames(gs))|
    ensures forall k :: 0 <= k < |ReferenceRoles(gs)| ==> ReferenceRoles(gs)[k].name == Dedup(PermissionNames(gs))[k]
  {
    forall k | 0 <= k < |ReferenceRoles(gs)|
      ensures ReferenceRoles(gs)[k].name == Dedup(PermissionNames(gs))[k]
    {
      ReferenceRolesAt(gs, k);
    }
  }

  /** One grant for a permission already seen adds its holder to that role. */
  lemma AddGrantExisting(pre: seq<Grant>, g: Grant)
    requires g.permission.name in PermissionNames(pre)
    ensures AddGrant(ReferenceRoles(pre), g) == ReferenceRoles(pre + [g])
  {
    var r := ReferenceRoles(pre);
    var r' := ReferenceRoles(pre + [g]);
    var i := ExistingIndex(pre, g);
    var a := r[i := r[i].(assignments := AppendNew(r[i].assignments, Email(g.user)))];
    forall k | 0 <= k < |a|
      ensures r'[k] == a[k]
    {
      ExistingAt(pre, g, i, k);
    }
    SameByElements(r', a);
  }

  lemma SameByElements(x: seq<Role>, y: seq<Role>)
    requires |x| == |y|
    requires forall k :: 0 <= k < |y| ==> x[k] == y[k]
    ensures x == y
  {
  }

  /** Where the builder finds the role of a permission already seen. */
  lemma ExistingIndex(pre: seq<Grant>, g: Grant) returns (i: nat)
    requires g.permission.name in PermissionNames(pre)
    ensures Dedup(PermissionNames(pre + [g])) == Dedup(PermissionNames(pre))
    ensures |ReferenceRoles(pre + [g])| == |ReferenceRoles(pre)| == |Dedup(PermissionNames(pre))|
    ensures i < |ReferenceRoles(pre)| && Dedup(PermissionNames(pre))[i] == g.permission.name
    ensures var r := ReferenceRoles(pre);
            AddGrant(r, g) == r[i := r[i].(assignments := AppendNew(r[i].assignments, Email(g.user)))]
  {
    var names := Dedup(PermissionNames(pre));
    var n := g.permission.name;
    PermissionNamesSnoc(pre, g);
    DedupSnoc(PermissionNames(pre), n);
    var r := ReferenceRoles(pre);
    ReferenceRolesNamed(pre);
    ReferenceRolesNamed(pre + [g]);
    i := IndexOfName(r, n);
    assert i < |r| by {
      var j :| 0 <= j < |names| && names[j] == n;
      assert r[j].name == n;
    }
  }

  lemma ExistingAt(pre: seq<Grant>, g: Grant, i: nat, k: nat)
    requires g.permission.name in PermissionNames(pre)
    requires Dedup(PermissionNames(pre + [g])) == Dedup(PermissionNames(pre))
    requires i < |Dedup(PermissionNames(pre))| && Dedup(PermissionNames(pre))[i] == g.permission.name
    requires k < |Dedup(PermissionNames(pre))|
    ensures var r := ReferenceRoles(pre);
            |r| == |Dedup(PermissionNames(pre))|
            && ReferenceRoles(pre + [g])[k]
               == (if k == i then r[i].(assignments := AppendNew(r[i].assignments, Email(g.user))) else r[k])
  {
    var names := Dedup(PermissionNames(pre));
    ReferenceRolesAt(pre, k);
    ReferenceRolesAt(pre + [g], k);
    if k == i {
      GrantSamePermission(pre, g);
    } else {
      assert names[k] != names[i];
      GrantOtherPermission(pre, g, names[k]);
    }
  }

  /** One grant for a new permission appends a role holding just its holder. */
  lemma AddGrantNew(pre: seq<Grant>, g: Grant)
    requires g.permission.name !in PermissionNames(pre)
    ensures AddGrant(ReferenceRoles(pre), g) == ReferenceRoles(pre + [g])
  {
    var r := ReferenceRoles(pre);
    var r' := ReferenceRoles(pre + [g]);
    var role := RoleFor(g.permission, [Email(g.user)]);
    NewNameIsFresh(pre, g);
    NewLastRole(pre, g);
    forall k | 0 <= k < |r|
      ensures r'[k] == r[k]
    {
      NewKeepsOthers(pre, g, k);
    }
    SnocByElements(r', r, role);
  }

  lemma SnocByElements(longer: seq<Role>, s: seq<Role>, x: Role)
    requires |longer| == |s| + 1 && longer[|s|] == x
    requires forall k :: 0 <= k < |s| ==> longer[k] == s[k]
    ensures longer == s + [x]
  {
  }

  lemma NewNameIsFresh(pre: seq<Grant>, g: Grant)
    requires g.permission.name !in PermissionNames(pre)
    ensures AddGrant(ReferenceRoles(pre), g) == ReferenceRoles(pre) + [RoleFor(g.permission, [Email(g.user)])]
  {
    ReferenceRolesNamed(pre);
    assert IndexOfName(ReferenceRoles(pre), g.permission.name) == |ReferenceRoles(pre)|;
  }

  lemma NewNames(pre: seq<Grant>, g: Grant)
    requires g.permission.name !in PermissionNames(pre)
    ensures Dedup(PermissionNames(pre + [g])) == Dedup(PermissionNames(pre)) + [g.permission.name]
  {
    PermissionNamesSnoc(pre, g);
    DedupSnoc(PermissionNames(pre), g.permission.name);
  }

  lemma NewKeepsOthers(pre: seq<Grant>, g: Grant, k: nat)
    requires g.permission.name !in PermissionNames(pre)
    requires k < |ReferenceRoles(pre)|
    ensures k < |ReferenceRoles(pre + [g])|
    ensures ReferenceRoles(pre + [g])[k] == ReferenceRoles(pre)[k]
  {
    NewNames(pre, g);
    ReferenceRolesAt(pre, k);
    ReferenceRolesAt(pre + [g], k);
    GrantOtherPermission(pre, g, Dedup(PermissionNames(pre))[k]);
  }

  lemma NewLastRole(pre: seq<Grant>, g: Grant)
    requires g.permission.name !in PermissionNames(pre)
    ensures |ReferenceRoles(pre + [g])| == |ReferenceRoles(pre)| + 1
    ensures ReferenceRoles(pre + [g])[|ReferenceRoles(pre)|] == RoleFor(g.permission, [Email(g.user)])
  {
    var n := g.permission.name;
    var e := Email(g.user);
    NewNames(pre, g);
    ReferenceRolesAt(pre + [g], |Dedup(PermissionNames(pre))|);
    FirstPermissionNew(pre, g);
    HoldersOfSnoc(pre, g, n);
    HoldersOfAbsent(pre, n);
    DedupSnoc([], e);
    assert [] + [e] == [e];
  }

  /** Building role by role agrees with the reference description. */
  lemma {:induction false} AccumulateIsReference(gs: seq<Grant>)
    ensures Accumulate(gs) == ReferenceRoles(gs)
  {
    if gs != [] {
      var pre, g := gs[..|gs| - 1], gs[|gs| - 1];
      assert pre + [g] == gs;
      AccumulateIsReference(pre);
      if g.permission.name in PermissionNames(pre) {
        AddGrantExisting(pre, g);
      } else {
        AddGrantNew(pre, g);
      }
    }
  }

  lemma {:induction false} HoldersOfPresent(gs: seq<Grant>, name: string)
    requires name in PermissionNames(gs)
    ensures |HoldersOf(gs, name)| > 0
  {
    var pre, g := gs[..|gs| - 1], gs[|gs| - 1];
    assert pre + [g] == gs;
    PermissionNamesSnoc(pre, g);
    if g.permission.name != name {
      HoldersOfPresent(pre, name);
    }
  }

  lemma {:induction false} HoldersAreEmails(gs: seq<Grant>, name: string)
    ensures forall a :: a in HoldersOf(gs, name) ==> a.key == EmailKey
  {
    if gs != [] {
      HoldersAreEmails(gs[..|gs| - 1], name);
    }
  }

  /**
   * get_desired_state groups the query by permission: one role per distinct
   * OIDC permission name, in first-appearance order, taking that permission's
   * fields, its platform permission-set name and its scope, and holding one
   * e-mail assignment per distinct user granted it, in query order.
   */
  lemma DesiredStateGrouping(users: seq<User>)
    ensures var gs := Grants(users);
            var names := Dedup(PermissionNames(gs));
            var roles := GetDesiredState(users);
            && |roles| == |names|
            && forall i :: 0 <= i < |roles| ==>
                 && roles[i].name == names[i]
                 && roles[i].description == FirstPermission(gs, names[i]).description
                 && roles[i].permissionSetName == PermissionSetName(FirstPermission(gs, names[i]).permissionSet)
                 && roles[i].accessScope == ScopeFor(FirstPermission(gs, names[i]))
                 && roles[i].assignments == Dedup(HoldersOf(gs, names[i]))
                 && !roles[i].systemDefault
  {
    AccumulateIsReference(Grants(users));
  }

  /**
   * The desired roles are a valid reconciliation universe: names are unique,
   * every role has at least one member, no member twice, and every member is
   * matched by e-mail.
   */
  lemma DesiredStateWellFormed(users: seq<User>)
    ensures var roles := GetDesiredState(users);
            && DistinctNames(roles)
            && forall r :: r in roles ==>
                 && |r.assignments| > 0
                 && Distinct(r.assignments)
                 && (forall a :: a in r.assignments ==> a.key == EmailKey)
  {
    var gs := Grants(users);
    var names := Dedup(PermissionNames(gs));
    var roles := GetDesiredState(users);
    AccumulateIsReference(gs);
    forall r | r in roles
      ensures |r.assignments| > 0 && (forall a :: a in r.assignments ==> a.key == EmailKey)
    {
      var i :| 0 <= i < |roles| && roles[i] == r;
      HoldersOfPresent(gs, names[i]);
      HoldersAreEmails(gs, names[i]);
    }
  }
}
