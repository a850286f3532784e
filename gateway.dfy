/**
 * The ACS API as the reconciler sees it: three listings it reads and nine
 * mutations it issues. Every call is recorded, in order, in `log`; the
 * listings are fixed for one reconciliation pass.
 */
module Gateway {
  import opened AcsModel

  datatype Call =
    | GetAccessScopes
    | GetPermissionSets
    | GetGroups
    | CreateAccessScope(name: string, description: string, clusters: seq<string>, namespaces: seq<NamespaceRef>)
    | CreateRole(name: string, description: string, permissionSetId: string, accessScopeId: string)
    | CreateGroupBatch(additions: seq<GroupAdd>)
    | DeleteRole(roleName: string)
    | DeleteGroupBatch(groups: seq<GroupRecord>)
    | DeleteAccessScope(id: string)
    | UpdateAccessScope(id: string, name: string, description: string, clusters: seq<string>, namespaces: seq<NamespaceRef>)
    | UpdateRole(name: string, description: string, permissionSetId: string, accessScopeId: string)
    | UpdateGroupBatch(removals: seq<GroupRecord>, additions: seq<GroupAdd>)
  {
    /** A listing: the calls dry-run mode still makes. */
    predicate IsRead()
    {
      GetAccessScopes? || GetPermissionSets? || GetGroups?
    }
  }

  class AcsGateway {
    /** What the listings return during this pass. */
    const platform: Platform
    /** The id the platform gives the n-th access scope created through this gateway. */
    const newScopeId: nat -> string
    /** Every call made so far, oldest first. */
    var log: seq<Call>
    /** How many access scopes have been created so far. */
    var created: nat

    constructor(platform: Platform, newScopeId: nat -> string)
      ensures this.platform == platform && this.newScopeId == newScopeId
      ensures log == [] && created == 0
    {
      this.platform := platform;
      this.newScopeId := newScopeId;
      log := [];
      created := 0;
    }

    method ListAccessScopes() returns (scopes: seq<AccessScopeRecord>)
      modifies this`log
      ensures scopes == platform.accessScopes
      ensures log == old(log) + [GetAccessScopes]
    {
      scopes := platform.accessScopes;
      log := log + [GetAccessScopes];
    }

    method ListPermissionSets() returns (sets: seq<PermissionSetRecord>)
      modifies this`log
      ensures sets == platform.permissionSets
      ensures log == old(log) + [GetPermissionSets]
    {
      sets := platform.permissionSets;
      log := log + [GetPermissionSets];
    }

    method ListGroups() returns (groups: seq<GroupRecord>)
      modifies this`log
      ensures groups == platform.groups
      ensures log == old(log) + [GetGroups]
    {
      groups := platform.groups;
      log := log + [GetGroups];
    }

    /** Creates an access scope and answers with the id the platform gave it. */
    method NewAccessScope(name: string, description: string, clusters: seq<string>, namespaces: seq<NamespaceRef>)
      returns (id: string)
      modifies this`log, this`created
      ensures id == newScopeId(old(created)) && created == old(created) + 1
      ensures log == old(log) + [CreateAccessScope(name, description, clusters, namespaces)]
    {
      id := newScopeId(created);
      created := created + 1;
      log := log + [CreateAccessScope(name, description, clusters, namespaces)];
    }

    /** Records one mutation that answers with nothing. */
    method Issue(call: Call)
      requires !call.IsRead() && !call.CreateAccessScope?
      modifies this`log
      ensures log == old(log) + [call]
    {
      log := log + [call];
    }
  }
}
