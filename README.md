# ACS RBAC reconciler — a Dafny model

This project models the `AcsRbacIntegration` of qontract-reconcile. The
integration keeps the roles of a Red Hat Advanced Cluster Security (ACS)
instance in step with the roles declared in app-interface. It has three parts:

- **get_desired_state** reads the users with their roles and OIDC permissions.
  It builds one ACS role per distinct permission name. Each role carries the
  permission's description, its platform permission-set name ("Admin",
  "Analyst", "Vulnerability Management Admin") and an access scope. The scope
  is "Unrestricted" when the permission names no cluster and no namespace. Each
  role also holds one e-mail assignment per user granted the permission.
- **get_current_state** reads the roles, groups, access scopes and permission
  sets listed by the ACS API. It assembles each listed role from the scope and
  the permission set its ids refer to, and from the groups bound to its name.
- **reconcile** compares desired and current roles by name. It creates the
  missing roles, deletes the unwanted ones and rewrites the ones that differ.
  The model runs these phases in that order; no test fixes the order.
  Creation reuses an access scope whose name is already listed, or creates it.
  Deletion removes the role's groups, the role and its scope. An update
  rewrites the scope only if it differs and the role only if its fields
  differ, then issues one group batch for the members that differ. The
  groups-only and full tests show this for their fixtures; the model applies
  it to every update. Each phase reads the listings it needs only when it has
  work. A dry run makes the same reads and no write.

The model has these modules:

- `AcsModel` holds the records.
- `DesiredState` and `CurrentState` are pure functions with lemmas.
- `Gateway` has the class `AcsGateway`. It stands for the ACS API and records
  every call it receives, in order, in its `log` field.
- `ReconcilePlan` gives, as functions, the diff and the exact call sequence of
  each phase.
- `Reconciler` has the imperative `Reconcile` method. It works through the
  roles with loops, and its contract ties the gateway's new log to `Plan`.
- `ReconcileProperties` proves what a pass promises: dry runs only read,
  a converged pass is silent, writes follow the diff and every role the diff
  selects gets its writes, each scope is created at most once, and group
  batches converge.
- `Fixtures` rebuilds the test fixtures of `reconcile/test/test_acs_rbac.py`.
  It proves that each scenario there issues exactly the calls the test asserts.

The implementation module `reconcile/acs_rbac.py` is not part of this model.
Its behaviour is taken from the tests. Where the tests leave a case open, the
model makes a choice, and "## Left out" names each such choice.

## Model

| member | source | states |
|---|---|---|
| DesiredState.PermissionSetName | reconcile/test/test_acs_rbac.py:40-40 | the label "admin" (line 40) names exactly "Admin" (line 153), "analyst" exactly "Analyst", "vuln-admin" exactly "Vulnerability Management Admin", so distinct labels name distinct permission sets |
| DesiredState.ScopeFor | reconcile/test/test_acs_rbac.py:144-194 | a permission with no clusters and no namespaces gets the "Unrestricted" scope; otherwise a scope named and described like the permission, with its clusters and its (cluster, namespace) pairs in order |
| DesiredState.Grants | reconcile/test/test_acs_rbac.py:27-140 | a (user, permission) grant is produced exactly when the user has a role carrying that OIDC permission |
| DesiredState.AccumulateIsReference | reconcile/test/test_acs_rbac.py:360-367 | folding the grants role by role equals the reference grouping: one role per distinct permission name in first-appearance order, with the deduplicated holders |
| DesiredState.DesiredStateGrouping | reconcile/test/test_acs_rbac.py:360-367 | every desired role has the name, description, permission-set name and scope of its permission's first grant, holds the deduplicated e-mails of its holders, and is not system-default |
| DesiredState.DesiredStateWellFormed | reconcile/test/test_acs_rbac.py:144-194 | desired role names are unique; every role has at least one assignment, none twice, each keyed "email" |
| DesiredState.HoldersOfPresent | reconcile/test/test_acs_rbac.py:144-153 | a permission that occurs in the grants has at least one holder |
| DesiredState.HoldersAreEmails | reconcile/test/test_acs_rbac.py:148-152 | every holder of a permission is an e-mail assignment |
| CurrentState.ById | reconcile/test/test_acs_rbac.py:381-382 | the lookup behind get_access_scope_by_id and get_permission_set_by_id: finds a listed record with the given id, and none exactly when no listed record has that id |
| CurrentState.ToAccessScope | reconcile/test/test_acs_rbac.py:292-334 | an API scope keeps its name and description; no rules means no clusters and no namespaces; otherwise its included clusters and namespaces in order |
| CurrentState.AssignmentsOf | reconcile/test/test_acs_rbac.py:231-289 | a role's assignments are the (key, value) pairs of the groups bound to its name, in listing order |
| CurrentState.AssembleRole | reconcile/test/test_acs_rbac.py:370-387 | a listed role assembles exactly when its scope id and permission-set id resolve; the result has the listed fields, the resolved names and the group pairs; a failure names the role |
| CurrentState.AssembleRoles | reconcile/test/test_acs_rbac.py:379-387 | all roles assemble, in order, exactly when each one does; otherwise the error is the first failing role's |
| CurrentState.AssignmentsAreGroupPairs | reconcile/test/test_acs_rbac.py:231-289 | a pair is among a role's assignments exactly when some listed group bound to that role carries it |
| CurrentState.CurrentAssignmentsAreGroups | reconcile/test/test_acs_rbac.py:370-387 | in the current state, every role's assignments are exactly the pairs of the listed groups bound to it |
| Gateway.AcsGateway.constructor | reconcile/test/test_acs_rbac.py:402-408 | a gateway over fixed listings and a scope-id source starts with an empty log and no scope created |
| Gateway.AcsGateway.ListAccessScopes | reconcile/test/test_acs_rbac.py:404-404 | returns the listed scopes and records one read |
| Gateway.AcsGateway.ListPermissionSets | reconcile/test/test_acs_rbac.py:405-405 | returns the listed permission sets and records one read |
| Gateway.AcsGateway.ListGroups | reconcile/test/test_acs_rbac.py:498-498 | returns the listed groups and records one read |
| Gateway.AcsGateway.NewAccessScope | reconcile/test/test_acs_rbac.py:439-441 | the created scope gets the next id from the scope-id source; the call is recorded and the count goes up by one |
| Gateway.AcsGateway.Issue | reconcile/test/test_acs_rbac.py:442-443 | records one mutation and changes nothing else |
| ReconcilePlan.Keyed | reconcile/test/test_acs_rbac.py:430-432 | roles keyed by name as a dictionary keys them: distinct names, the same name set, only roles from the input, and the last role of each name is the one kept |
| ReconcilePlan.ScopeIdIndex | reconcile/test/test_acs_rbac.py:292-334 | the name-to-id map holds exactly the listed scope names, each mapped to the id of a listed scope of that name |
| ReconcilePlan.PermissionSetIdIndex | reconcile/test/test_acs_rbac.py:337-357 | the name-to-id map holds exactly the listed permission-set names, each mapped to the id of a listed set of that name |
| ReconcilePlan.ScopeIdIndexLastWins | reconcile/test/test_acs_rbac.py:292-334 | when a listed scope name occurs more than once, the map holds the id of the last scope of that name |
| ReconcilePlan.PermissionSetIdIndexLastWins | reconcile/test/test_acs_rbac.py:337-357 | when a listed permission-set name occurs more than once, the map holds the id of the last set of that name |
| ReconcilePlan.RolesToAdd | reconcile/test/test_acs_rbac.py:423-484 | the names to create are exactly the desired names missing from the current roles, once each, taken from the desired roles |
| ReconcilePlan.RolesToDelete | reconcile/test/test_acs_rbac.py:514-543 | the names to delete are exactly the current names no longer desired, once each, taken from the current roles |
| ReconcilePlan.RolesToUpdate | reconcile/test/test_acs_rbac.py:546-595 | every pair to update is a desired and a current role of the same name that differ, and every keyed desired role whose current namesake differs is paired with it |
| ReconcilePlan.GroupAdds | reconcile/test/test_acs_rbac.py:470-484 | one group addition per assignment, in order, bound to the role name and the auth provider |
| ReconcilePlan.StaleGroups | reconcile/test/test_acs_rbac.py:578-592 | the groups to remove are exactly the role's groups whose pair is no longer wanted |
| ReconcilePlan.MissingAssignments | reconcile/test/test_acs_rbac.py:578-592 | the pairs to add are exactly the wanted pairs not yet held |
| Reconciler.AddOneRole | reconcile/test/test_acs_rbac.py:450-484 | the calls recorded, the scope count and the error are those of `AddStep` for the role |
| Reconciler.AddRoles | reconcile/test/test_acs_rbac.py:423-484 | the loop over the roles to add records exactly the calls of `AddPhase` and stops at its first error |
| Reconciler.DeleteOneRole | reconcile/test/test_acs_rbac.py:537-543 | the calls recorded and the error are those of `DeleteStep` for the role |
| Reconciler.DeleteRoles | reconcile/test/test_acs_rbac.py:514-543 | the loop over the roles to delete records exactly the calls of `DeletePhase` |
| Reconciler.UpdateOneRole | reconcile/test/test_acs_rbac.py:686-708 | the calls recorded and the error are those of `UpdateStep` for the pair |
| Reconciler.UpdateRoles | reconcile/test/test_acs_rbac.py:546-595 | the loop over the pairs to update records exactly the calls of `UpdatePhase` |
| Reconciler.RunAdditions | reconcile/test/test_acs_rbac.py:448-449 | the add phase reads scopes and permission sets only when there is a role to add, then adds as `AddPart` says |
| Reconciler.RunRemovals | reconcile/test/test_acs_rbac.py:535-536 | the delete phase reads scopes and groups only when there is a role to delete, then deletes as `DeletePart` says |
| Reconciler.RunUpdates | reconcile/test/test_acs_rbac.py:574-576 | the update phase reads scopes, permission sets and groups only when there is a pair to update, then updates as `UpdatePart` says |
| Reconciler.Reconcile | reconcile/test/test_acs_rbac.py:598-714 | the gateway's log grows by exactly the calls of `Plan` (adds, then deletes, then updates, stopping at the first error); its scope count and the returned error match `Plan` |
| ReconcileProperties.Reads | reconcile/test/test_acs_rbac.py:415-420 | picks out exactly the listing reads of a call sequence |
| ReconcileProperties.ReadsAppend | reconcile/test/test_acs_rbac.py:415-420 | the reads of two call sequences joined are the reads of each, joined |
| ReconcileProperties.AddPhaseFacts | reconcile/test/test_acs_rbac.py:390-420 | the add phase stops at the first unknown permission set; a dry run issues nothing and keeps the scope map and the count; a live run issues only writes |
| ReconcileProperties.DeletePhaseFacts | reconcile/test/test_acs_rbac.py:487-511 | the delete phase stops at the first unknown scope name; a dry run issues nothing; a live run issues only writes |
| ReconcileProperties.UpdatePhaseFacts | reconcile/test/test_acs_rbac.py:546-595 | the update phase stops at the first pair whose rewrite cannot be resolved; a dry run issues nothing; a live run issues only writes |
| ReconcileProperties.UpdateStepFacts | reconcile/test/test_acs_rbac.py:686-708 | one update fails exactly on an unresolvable rewrite; a failed or dry update issues nothing; a live one issues only writes |
| ReconcileProperties.AddPartDryRun | reconcile/test/test_acs_rbac.py:390-420 | a dry add phase makes exactly the live phase's reads (scopes, permission sets), with the same error and no scope created |
| ReconcileProperties.DeletePartDryRun | reconcile/test/test_acs_rbac.py:487-511 | a dry delete phase makes exactly the live phase's reads (scopes, groups), with the same error |
| ReconcileProperties.UpdatePartDryRun | reconcile/test/test_acs_rbac.py:546-595 | a dry update phase makes exactly the live phase's reads (scopes, permission sets, groups), with the same error |
| ReconcileProperties.DryRunReadsOnly | reconcile/test/test_acs_rbac.py:390-420 | a dry pass makes exactly the reads of the live pass, in order, and nothing else; it stops with the same error and creates no scope |
| ReconcileProperties.NothingChanged | reconcile/test/test_acs_rbac.py:546-595 | when every desired role is already current, nothing is to be updated |
| ReconcileProperties.ConvergedPassIsSilent | reconcile/test/test_acs_rbac.py:598-714 | reconciling a state against itself issues no call, live or dry |
| ReconcileProperties.CreatedScopeNames | reconcile/test/test_acs_rbac.py:450-459 | lists exactly the names of the scopes a call sequence creates |
| ReconcileProperties.AddStepScopes | reconcile/test/test_acs_rbac.py:439-459 | adding one role creates at most its own scope, only under a name not yet known, remembers its id and counts it |
| ReconcileProperties.AddStepCreation | reconcile/test/test_acs_rbac.py:439-459 | a role that creates a scope creates its own scope with its name, description, clusters and namespaces, and remembers it under the id of this creation; it creates no other scope |
| ReconcileProperties.AddPhaseScopes | reconcile/test/test_acs_rbac.py:712-713 | the add phase creates each scope at most once, never one already listed or created, keeps the listed ids and counts exactly what it creates |
| ReconcileProperties.AddPhaseCreatedIds | reconcile/test/test_acs_rbac.py:439-441 | the k-th scope the add phase creates is remembered under the k-th id the platform hands out, counted from the scopes created before the phase |
| ReconcileProperties.AddPhaseCreationFields | reconcile/test/test_acs_rbac.py:450-459 | every scope the add phase creates carries the name, description, clusters and namespaces of the scope of a role being added |
| ReconcileProperties.WritesFollowTheDiff | reconcile/test/test_acs_rbac.py:598-714 | every write of a pass creates only names missing from the platform, deletes only names no longer desired, and rewrites only names on both sides |
| ReconcileProperties.AddPhaseWrites | reconcile/test/test_acs_rbac.py:460-484 | a live add phase that ends without error issues create_role for every role it was given, with its permission set's id and its scope's final id, and that role's group batch |
| ReconcileProperties.AddPartWrites | reconcile/test/test_acs_rbac.py:450-484 | after a live add phase without error, every added role's scope is listed or among the scopes created; each scope is created once and none already listed |
| ReconcileProperties.AddPartCreations | reconcile/test/test_acs_rbac.py:435-459 | the add phase keeps every listed scope id, remembers the k-th created scope under the k-th new id, and creates only added roles' own scopes with their fields |
| ReconcileProperties.DeletePhaseWrites | reconcile/test/test_acs_rbac.py:537-543 | a live delete phase that ends without error deletes every role it was given, with its group batch and its scope's id, and creates no scope |
| ReconcileProperties.UpdatePhaseWrites | reconcile/test/test_acs_rbac.py:686-708 | a live update phase that ends without error rewrites every pair: the scope when it differs, the role when its fields differ, and the group batch the members need; it creates no scope |
| ReconcileProperties.DiffIsWritten | reconcile/test/test_acs_rbac.py:598-714 | a live pass without error creates every role to add (on a listed scope of its name or one it created, each created scope once), deletes every role to delete, and rewrites every differing pair; roles are created with the listed scope ids and, for the k-th created scope, the k-th new id, and every created scope is an added role's own with its fields |
| ReconcileProperties.DiffNamesWritten | reconcile/test/test_acs_rbac.py:652-684 | a live pass without error issues create_role for every desired name the platform lacks and delete_role for every current name no longer desired |
| ReconcileProperties.GroupBatchConverges | reconcile/test/test_acs_rbac.py:578-592 | after the update's group batch, the role's groups carry exactly the desired assignment pairs |
| ReconcileProperties.GroupUpdateSilent | reconcile/test/test_acs_rbac.py:714-714 | an update issues no group call exactly when the desired and current assignment sets are equal |
| ReconcileProperties.UpdateStepIssues | reconcile/test/test_acs_rbac.py:594-595 | a live update rewrites the scope exactly when it differs, the role exactly when its fields differ, issues a group batch exactly when the assignment sets differ, and nothing else |
| ReconcileProperties.UpdateStepRewrites | reconcile/test/test_acs_rbac.py:686-708 | the role rewrite uses the desired permission set's id and the existing scope's id; the scope rewrite targets the existing scope's id with the desired fields |
| Fixtures.DesiredStateOfUsers | reconcile/test/test_acs_rbac.py:360-367 | the query fixture's desired state is exactly the three modelled roles |
| Fixtures.CurrentStateOfListings | reconcile/test/test_acs_rbac.py:370-387 | the API fixtures assemble into exactly the three modelled roles |
| Fixtures.AddDryRunScenario | reconcile/test/test_acs_rbac.py:390-420 | the dry add pass reads scopes and permission sets once each and writes nothing |
| Fixtures.AddScenario | reconcile/test/test_acs_rbac.py:423-484 | the add pass reads once each, creates the vuln-admin scope, then the role with ids "3" and "3", then its group batch |
| Fixtures.DeleteDryRunScenario | reconcile/test/test_acs_rbac.py:487-511 | the dry delete pass reads scopes and groups once each and writes nothing |
| Fixtures.DeleteScenario | reconcile/test/test_acs_rbac.py:514-543 | the delete pass removes groups 3 and 4, the cluster-analyst role and scope "2" |
| Fixtures.GroupsOnlyScenario | reconcile/test/test_acs_rbac.py:546-595 | the groups-only pass issues one group batch, removing the "lasagna" group and adding foo's e-mail, and no role or scope rewrite |
| Fixtures.FullScenario | reconcile/test/test_acs_rbac.py:598-714 | the full pass creates new-role on the listed Unrestricted scope with its group batch, deletes service-vuln-admin, rewrites cluster-analyst's scope and role with the listed ids, and creates no scope and no group update |
| Fixtures.AddReconcileRun | reconcile/test/test_acs_rbac.py:423-484 | the reconciler, given the add fixture, leaves exactly the asserted calls in the log and one scope created |
| Fixtures.FullReconcileRun | reconcile/test/test_acs_rbac.py:598-714 | the reconciler, given the full fixture, leaves exactly the asserted calls in the log, three scope reads, two permission-set reads and two group reads |

## Left out

- The implementation module `reconcile/acs_rbac.py` is not part of this model. The reconciler is modelled from the behaviour its tests assert; the choices below fill the cases they leave open.
- Phase order is a modelling choice: additions, then removals, then updates. Each test checks one mock at a time, so none fixes the order.
- Updating only what differs is a modelling choice beyond the fixtures: the scope is rewritten only when it differs, the role only when its fields differ, and the group batch only when the members differ. The groups-only and full tests assert this for their cases (lines 594-595 and 714).
- API errors on writes are not modelled: every `Issue` and `NewAccessScope` on the gateway succeeds.
- Group updates take the members to remove from the groups listing and the members to add from the current role's assignments. The two agree when the current assignments are exactly the listed groups of the role (`HeldAsGroups`), and the lemmas about update batches assume that.
- The listings are fixed for the pass. Each phase reads them, but they are the platform's state at the start, so a later phase does not see the scopes an earlier phase created or deleted.
- `reconcile/openshift_saas_deploy_trigger_moving_commits.py` is process plumbing unrelated to ACS RBAC and is not modelled.
- The GraphQL query, the pydantic models and the `acs_api` HTTP client are not modelled. Their data arrive as values: the users, and the `Platform` listings behind `AcsGateway`.
- Protecting system-default access scopes from deletion is not modelled. No test exercises it.
- Current groups are not filtered by auth provider. Every listed group is taken, as in the fixtures, where all groups share one provider.
- The `service` field of an OIDC permission is not used as a filter. Every permission in the query is taken as an ACS permission.
- A permission-set label is an enumeration, so there is no error for an unknown label.
- The errors `UnknownPermissionSet` and `UnknownAccessScope` are a modelling choice: a name the listings do not resolve stops the pass before that role's writes. No test exercises these paths.
- Mock call order is not modelled. `assert_has_calls` and `call_count` are stated as the exact call log. The mocked `create_access_scope` result is the gateway's `newScopeId` function of the number of scopes created so far.
- `get_access_scope_by_id` and `get_permission_set_by_id` are mocked with side effects that answer in list order. The model looks the scope and the permission set up by id, which agrees on these fixtures.
- Desired roles all have `systemDefault` false, also for the Unrestricted scope, as the modelled roles of the fixture say (line 160).
- Assignments of a desired role are deduplicated. Each user appears once per role, in query order.
