# A verified model of db-operator

db-operator is three Kubernetes controllers (DbInstance, Database, DbUser) that share one
versioned object store, the Kubernetes API, and one SQL server. Their hard properties are
about runs: reconciles interleave, any API or SQL call can fail, reads may come from a stale
cache, and writes are compare-and-swap on `resourceVersion`. This project models that
behaviour in Dafny and proves what holds in every reachable state, over every run and for
every input. `dafny verify dfyconfig.toml` checks all of it.

| file | what it holds |
|---|---|
| `Store.dfy` | the API server: versions, finalizers, deletion marks, stale reads |
| `Finalizers.dfy` | the finalizer list helpers and the drop guard |
| `Operator.dfy` | the three controllers as one step system over the store and the SQL server |
| `OperatorInvariants.dfy`, `OperatorGuards.dfy` | its inductive invariants that hold of every run |
| `OperatorNesting.dfy`, `OperatorSafety.dfy` | those that need `databaseRef` to stay fixed, or session reads |
| `OperatorTheorems.dfy`, `OperatorRuns.dfy` | what follows for every reachable state; concrete runs that show why each assumption is needed |
| `OperatorProgress.dfy`, `OperatorUndisturbed.dfy` | when SQL work is skipped and when it is due again; what each controller brings about when nothing comes in between |
| `OperatorCompletion.dfy` | when an interrupted creation of a DbUser can still be completed |
| `OperatorNames.dfy` | the step system with the names the operator generates on each engine |
| `Acl.dfy`, `Postgres.dfy` | statements with a meaning on an access control state; user management as sequences of calls that may fail |
| `PostgresTheorems.dfy`, `PostgresCoverage.dfy`, `PostgresOwned.dfy` | convergence of granting, coverage of tables, sequences and schemas, grant/revoke round trip, users that own tables |
| `ExtraGrants.dfy` | the extra-grant diff of `createDatabase` and its convergence |
| `Labels.dfy`, `Ownership.dfy` | KubeHelper: used-by labels as a lock between any number of callers |
| `Teardown.dfy`, `TeardownTheorems.dfy` | `handleDbUserDelete` and its retry safety |
| `DatabaseDeletion.dfy` | `handleDbDelete` and what becomes of the Secret |
| `InstanceInputs.dfy`, `DbInstance.dfy`, `DbInstanceTheorems.dfy` | DbInstance inputs, checksums, backend and phases, beside the other controllers |
| `Credentials.dfy` | sanitizing, generating, parsing and finding credentials again |
| `Templates.dfy` | `secretsTemplates` and templates |
| `Options.dfy` | small types shared by several modules |

Protocols that interleave (finalizers, checksums, ownership, DbInstance passes) are step
systems in which one step is one call. Operations that run on their own are methods that
change a class's fields, each proved equal to a function on values; `faults` lists decide
which calls fail, so a statement "for all `faults`" covers a stop after any call.

## What the claims rest on

- The store refuses a write whose version is not the current one; a write that changes
  nothing issues no version; a mark is never cleared; a marked object takes no new finalizer
  and goes when its list is empty. Each controller has one worker.
- `sessionReads`: a worker that has read one incarnation of an object is not handed an older
  incarnation of the same name; copies of one incarnation may be arbitrarily old.
  `OperatorRuns.StaleLifeBreaksTheLink` and `OperatorRuns.FormerDatabaseIsDropped` show what
  happens without it. What does not need it is stated without it.
- `fixedRef`: `databaseRef` is not edited while the DbUser carries its finalizer. No webhook
  enforces that (internal/webhook/v1beta1/dbuser_webhook.go:76-102);
  `OperatorRuns.MovedReferenceOrphansTheFinalizer` shows what happens without it.
- Names on the server: the SQL database and the role of an object go by generated names, which are
  parameters of the step system (`dbName`, `roleName`). What is said of SQL databases holds while no
  Database that can be dropped shares its name with another one that was ever stored;
  `OperatorRuns.NoneIsLostIff` shows that this is needed.
- Checksums are collision free, and the probes for an existing role tell the truth.
- Used-by labels come in pairs or not at all, and labels configured by users do not touch
  them; `Labels.ClaimTakesIff` says what a lone name label does.

## Where the code falls short of the property

Each of these keeps the code as it is, gives inputs or a run on which the property fails, and
an exact condition, for all inputs or all reachable states, under which it holds.

- A Database whose own name contains `dbuser.` blocks its own deletion for good, and so does a
  foreign finalizer that contains it (`Finalizers.GuardMistakesOwnFinalizer`,
  `Finalizers.GuardMistakesForeignFinalizer`, `Finalizers.GuardIsExact`,
  `OperatorTheorems.HeldBackIff`, `OperatorTheorems.DroppedNamesArePlain`).
- Databases may come to the same name on the server: on MySQL `a.b` and `a-b` of one namespace do,
  on Postgres a dash can do it across namespaces. Deleting one then takes the SQL database away from
  the other, which may be ready and have created DbUsers (`OperatorRuns.SharedNameLosesTheDatabase`,
  `OperatorRuns.NoneIsLostIff`, `OperatorNames.MysqlLosesSome`, `OperatorNames.PostgresLosesNone`,
  `Credentials.SanitizedAgreeIff`, `Credentials.PostgresNamesAgreeIff`).
- An edit of `databaseRef` while the Database carries the DbUser's finalizer leaves that finalizer
  behind (`OperatorRuns.MovedReferenceOrphansTheFinalizer`, `OperatorNesting.EditKeepsNestedIff`).
- A broadcast that finds the spec checksum missing or already empty issues no new version, so a
  reconcile already in flight records its checksum afterwards
  (`OperatorRuns.FirstReconcileSlipsThrough`, `OperatorTheorems.InFlightReconcileIsDefeatedIff`).
- A broadcast lists Databases from the cache. A listed copy from before the first checksum write
  is passed over, although the stored Database is ready and has a checksum
  (`OperatorRuns.StaleListIsPassedOver`, `OperatorTheorems.BroadcastInvalidatesIff`).
- A reconcile that stops, or conflicts, anywhere between CREATE USER and the report that the
  DbUser is created leaves the DbUser waiting for good, because CREATE USER refuses an existing
  role (`OperatorCompletion.InterruptedCreationsAreBlocked`,
  `OperatorCompletion.CreationCompletesIff`). A DbUser called like a Database of its namespace finds
  the role of that Database's main user there and is never created
  (`OperatorCompletion.NamesakeOfADatabaseIsBlocked`).
- Without session reads, the drop guard can be passed on a copy from a former life of the
  Database (`OperatorRuns.FormerDatabaseIsDropped`, `OperatorTheorems.LiveDatabaseIsDroppedIff`).
- A DbUser is its own `MainUser`, so it has no rights on tables others create later
  (`PostgresCoverage.DbUsersMissLaterTables`).
- Extra grants are recorded as given even when the instance does not allow them, and are never
  looked at again (`ExtraGrants.RecordIsTrueIff`, `ExtraGrants.RecordedIsNotRevisited`). When the
  spec is changed after a failed pass, pieces of grants may stay or stay missing
  (`ExtraGrants.HalfAGrant`, `ExtraGrants.HalfARevoke`,
  `ExtraGrants.AbandonedSpecsAreRepairedIff`).
- Revoking an extra grant, or changing its access type, drops everything the user owns in the
  database (`ExtraGrants.RevokedUsersLoseTheirTables`).
- A user changed from readWrite to readOnly keeps its rights to write
  (`PostgresCoverage.ReadWriteSurvivesReadOnly`, `PostgresCoverage.ReadOnlyIsExactIff`).
- Teardown cannot be retried when the ConfigMap is missing and the Secret was already released
  (`TeardownTheorems.RetrySafeIff`).
- A Database's finalizer comes off before its Secret is released, so a failure in between leaves the
  Secret labelled for a Database that is gone (`DatabaseDeletion.SecretIsOrphaned`,
  `DatabaseDeletion.SecretIsOrphanedIff`).
- The force annotation comes off before the forced work is done. A pass that stops in between without
  its status write leaves a Database that still looks up to date, and the next pass skips the work
  (`OperatorProgress.ForcedWorkIsLostIff`, `OperatorProgress.FailedPassIsRetried`).
- A DbInstance whose broadcast or proxy failed is ready and is not retried until its inputs
  change (`DbInstanceTheorems.FailedBroadcastIsReached`,
  `DbInstanceTheorems.ReadyInstanceStartsOverIff`).
- `create` reads the objects behind From references once more after the checksums' inputs were
  fetched, so an edit in between that is taken back goes unnoticed
  (`DbInstanceTheorems.EditDuringCreateGoesUnnoticed`,
  `DbInstanceTheorems.UnchangedMeansSameBackendIff`).
- A `secretsTemplates` key named like a credential deletes that credential
  (`Templates.CredentialsSurviveIff`, `Templates.LostCredentialIsFatal`).

## Model

| member | source | states |
|---|---|---|
| `ObjectStore.AcceptedCopyIsCurrent` | internal/controller/database_controller.go:666-676 | compare-and-swap is sound: if a write computed from a copy is accepted, the copy is the stored object, however old it might have been |
| `Finalizers.AppendIfMissing` | pkg/utils/kci/helper.go:26-37 | the list with the item on it exactly once more if it was missing, unchanged otherwise |
| `Finalizers.RemoveItem` | pkg/utils/kci/helper.go:39-49 | every occurrence gone, everything else in order |
| `Finalizers.RemoveUndoesAppend` | pkg/utils/kci/finalizer.go:24-34 | adding a missing finalizer and removing it restores the list, order included |
| `Finalizers.ObjectMeta.AddFinalizer` | pkg/utils/kci/finalizer.go:24-28 | the object's list becomes the old one with the item |
| `Finalizers.ObjectMeta.RemoveFinalizer` | pkg/utils/kci/finalizer.go:30-34 | the object's list becomes the old one without the item |
| `Finalizers.SliceContainsSubString` | internal/helpers/common/common.go:175-182 | true exactly if the string occurs inside some element |
| `Finalizers.GuardIsExact` | internal/controller/database_controller.go:429-432 | for every list, the drop guard refuses exactly if it holds a DbUser finalizer, the finalizer of a Database whose name contains `dbuser.`, or a foreign finalizer that contains it |
| `Finalizers.GuardMistakesOwnFinalizer` | internal/controller/database_controller.go:429-432 | the own finalizer of a Database called `dbuser.x` trips the guard |
| `Finalizers.GuardMistakesForeignFinalizer` | internal/helpers/common/common.go:175-182 | a foreign finalizer with `dbuser.` inside trips the guard with no DbUser present |
| `OperatorTheorems.StepKeepsInv` | internal/controller/dbuser_controller.go:61-303 | every step of every controller and of the outside world keeps the invariant: copies, checksums, nesting, links |
| `OperatorTheorems.FinalizersAreNested` | internal/controller/dbuser_controller.go:554-569 | while references are fixed as long as the finalizer is on, in every reachable state a Database carrying `dbuser.N` implies that DbUser N exists, carries `dbuser.N` and refers to that Database |
| `OperatorNesting.EditKeepsNestedIff` | internal/webhook/v1beta1/dbuser_webhook.go:76-102 | an edit of a DbUser keeps the finalizers nested exactly if the reference stays or the Database it pointed to does not carry the DbUser's finalizer |
| `OperatorTheorems.CreatedUserIsGuarded` | internal/controller/dbuser_controller.go:198-223 | in every reachable state, with no rule on reads or references, a created, unmarked DbUser carries its own finalizer |
| `OperatorTheorems.CreatedUserKeepsItsDatabase` | internal/controller/dbuser_controller.go:198-223 | under session reads and fixed references, a created, unmarked DbUser has its finalizer on both objects and its Database object exists; so does the SQL database, while names on the server are apart |
| `OperatorUndisturbed.UndisturbedCreation` | internal/controller/dbuser_controller.go:198-223 | from every state, a pass on a new DbUser whose role is not there, or on one with an existing role, of a ready Database ends with the role made, the finalizer added to both objects and the DbUser reported created |
| `OperatorUndisturbed.UndisturbedTeardown` | internal/controller/dbuser_controller.go:235-303 | from every state, a pass on a marked DbUser takes its role off the server unless it existed before, and its finalizer and no other off both objects, each of which goes exactly if it was marked and carried no other |
| `OperatorProgress.TeardownStartsIff` | internal/controller/dbuser_controller.go:235-239 | a DbUser is torn down exactly if it is marked and carries its own finalizer, and reconciled exactly if it is not marked |
| `OperatorProgress.UserSqlIff` | internal/controller/dbuser_controller.go:198-217 | exactly when the server side of a DbUser goes ahead: its Database is ready and its role is there if it was reported created, not there if it was not, either way with `existingUser` |
| `OperatorProgress.UserStepsOnRoles` | internal/controller/dbuser_controller.go:198-217 | which steps of the DbUser controller change the roles on the server, and to what; a role that existed before is neither made nor dropped |
| `OperatorProgress.CreatedIsKept` | internal/controller/dbuser_controller.go:198-223 | in every run a DbUser reported created stays so as long as it lives |
| `OperatorGuards.DropIsSafe` | internal/controller/database_controller.go:429-447 | when the worker is about to drop, a stored Database of the copy's incarnation is marked and carries no DbUser finalizer, however old the copy that passed the guard |
| `OperatorTheorems.DropsSpareTheirOwn` | internal/controller/database_controller.go:420-447 | the same of every reachable state, with no rule on reads or references |
| `OperatorTheorems.DropsHurtNobody` | internal/controller/database_controller.go:420-447 | under session reads, a drop about to happen concerns no Database, of whatever incarnation, that carries a DbUser finalizer or is in service, nor, with fixed references, one that a created, unmarked DbUser refers to |
| `OperatorTheorems.LiveDatabaseIsDroppedIff` | internal/controller/database_controller.go:429-447 | an idle worker can be led to take away the SQL database of an unmarked Database exactly if it can be handed a marked, unguarded and unprotected copy from a former life |
| `OperatorTheorems.DropTakesAwayIff` | internal/controller/database_controller.go:688-737 | a drop takes away the SQL database of exactly those Databases that share the name on the server, unless the copy is protected |
| `OperatorTheorems.HeldBackIff` | internal/controller/database_controller.go:429-432 | in every reachable state, exactly what holds a stored Database back: a DbUser finalizer, its own name, or a foreign look-alike |
| `OperatorTheorems.DroppedNamesArePlain` | internal/controller/database_controller.go:429-434 | in every reachable state, a Database about to be dropped has no `dbuser.` in its name |
| `OperatorTheorems.ReadyDatabaseIsGuarded` | internal/controller/database_controller.go:662-679 | in every reachable state, with no rule on reads or references, a stored ready, unmarked Database carries its own `db.` finalizer |
| `OperatorTheorems.DatabaseInUseExists` | internal/controller/database_controller.go:420-447 | under session reads and with names apart, a ready, unmarked Database and one that carries a DbUser finalizer exist on the server |
| `OperatorTheorems.SkipsAreSound` | internal/controller/database_controller.go:253-293 | SQL work is skipped only if an earlier reconcile carried it through to its checksum write on the same spec and credentials, from a copy read after every broadcast the skipping copy has been through |
| `OperatorProgress.SkipsIff` | internal/controller/database_controller.go:253-293 | without the force annotation, SQL work is skipped exactly if changes are checked, the Database is ready and healthy, its Secret is there and both checksums are those of the present spec and credentials |
| `OperatorProgress.ForceIsObeyed` | internal/controller/database_controller.go:253-268 | in every reachable state, a forced pass on the stored copy takes the annotation off and goes on to the SQL work; on any other copy it conflicts |
| `OperatorProgress.FailedPassIsNotReady` | internal/controller/database_controller.go:1071-1094 | in every reachable state, a pass that failed, or found the Database unhealthy, and gets its status written leaves the stored Database not ready and otherwise as it was |
| `OperatorProgress.FailedPassIsRetried` | internal/controller/database_controller.go:277-279 | from every reachable state and over any continuation, every pass that reads the version such a failure left behind goes on to the SQL work |
| `OperatorProgress.ForcedWorkIsLostIff` | internal/controller/database_controller.go:257-268 | when a forced pass stops after the annotation is off, the next pass skips the work exactly if the status write did not get through and the Database otherwise looks up to date |
| `OperatorUndisturbed.UndisturbedPass` | internal/controller/database_controller.go:302-418 | from every state, a pass on a stored Database that is forced or not up to date, with nothing in between, ends with the database on the server and the Database ready, unforced, with its finalizer and with the checksums of its spec and of the credentials used |
| `OperatorUndisturbed.NextPassSkips` | internal/controller/database_controller.go:253-293 | and the pass after it, on the same Secret, skips the SQL work |
| `OperatorUndisturbed.UndisturbedDeletion` | internal/controller/database_controller.go:420-447 | from every state, a pass on a marked Database that nothing holds back takes its database and user off the server unless it is protected, then its finalizer and nothing else off the object, which goes exactly if it carried no other |
| `OperatorProgress.DropStartsIff` | internal/controller/database_controller.go:429-447 | a marked Database is held back exactly if a finalizer contains `dbuser.`, and otherwise is dropped exactly if it carries its own |
| `OperatorProgress.DbStepsOnServer` | internal/controller/database_controller.go:688-737 | which steps of the Database controller change the databases and roles on the server, and to what; a protected Database is never dropped |
| `OperatorTheorems.InvalidationIsNotLost` | internal/controller/dbinstance_controller.go:362-384 | after a complete broadcast, over any continuation, each Database listed with a non-empty checksum looks changed until a reconcile that started from a later copy records a checksum |
| `OperatorTheorems.BroadcastInvalidatesIff` | internal/controller/dbinstance_controller.go:362-384 | a Database stored with a non-empty checksum when the list was taken has been invalidated by a complete broadcast, over any continuation, exactly if the list holds a copy of it with that instance and the annotation |
| `OperatorTheorems.InFlightReconcileIsDefeatedIff` | internal/controller/dbinstance_controller.go:370-379 | a reconcile in flight on the current copy conflicts after the broadcast exactly if the stored checksum was not already empty or missing |
| `OperatorSafety.TeardownKeepsLinksIff` | internal/controller/dbuser_controller.go:293-300 | without session reads, the teardown's write to the Database keeps all links exactly if the copy is not from a former life of a DbUser created anew on the same Database |
| `OperatorRuns.FirstReconcileSlipsThrough` | internal/controller/dbinstance_controller.go:362-384 | a reachable state from which a reconcile older than a complete broadcast ends with a ready, unchanged Database |
| `OperatorRuns.StaleListIsPassedOver` | internal/controller/dbinstance_controller.go:364-372 | a reachable state after a complete broadcast in which a ready Database of the instance, with no reconcile in flight, still has its checksum and looks unchanged |
| `OperatorRuns.StaleLifeBreaksTheLink` | internal/controller/dbuser_controller.go:293-300 | without session reads, a reachable state in which a created, unmarked DbUser's finalizer is missing from its Database |
| `OperatorRuns.FormerDatabaseIsDropped` | internal/controller/database_controller.go:429-435 | without session reads, a reachable state in which the worker is about to drop the SQL database of a ready Database that carries a created DbUser's finalizer |
| `OperatorRuns.SharedNameLosesTheDatabase` | pkg/utils/database/mysql.go:242-275 | for any two Databases of one server name, a reachable state in which one is ready, has a created DbUser and has lost its SQL database to the deletion of the other |
| `OperatorRuns.NoneIsLostIff` | internal/helpers/database/database.go:178-215 | under session reads, every Database in use exists on the server in every run exactly if no Database that can be dropped shares its server name with another |
| `OperatorNames.PostgresLosesNone` | internal/helpers/database/database.go:196-202 | with the names generated on Postgres for one namespace, none is ever lost |
| `OperatorNames.MysqlLosesSome` | internal/helpers/database/database.go:203-209 | with those generated on MySQL, one can be |
| `OperatorRuns.MovedReferenceOrphansTheFinalizer` | internal/webhook/v1beta1/dbuser_webhook.go:76-102 | with `databaseRef` editable, a reachable state in which a Database carries the finalizer of a DbUser that is gone |
| `OperatorRuns.InterruptedCreationIsNeverCompleted` | pkg/utils/database/postgres.go:464-484 | a reachable state, the role made and no finalizer stored, from which in every continuation without `existingUser`, deletion included, and unless another object gives up a role of that name, the role stays and the DbUser is never reported created |
| `OperatorCompletion.CreationCompletesIff` | internal/controller/dbuser_controller.go:198-217 | from every reachable state with a waiting DbUser and its Database in service, some continuation without deletion, without `existingUser` and without another object giving up that role reports it created exactly if the role is not there or a copy from a former life can still be handed out on which the worker drops it |
| `OperatorCompletion.ReadUserCompletesIff` | internal/controller/dbuser_controller.go:198-217 | under session reads, once the DbUser has been read, exactly if the role is not there |
| `OperatorCompletion.InterruptedCreationsAreBlocked` | internal/controller/dbuser_controller.go:554-569 | reachable states interrupted before the first and between the two writes of addFinalizers, which no such continuation completes |
| `OperatorCompletion.NamesakeOfADatabaseIsBlocked` | internal/helpers/database/database.go:211-227 | a DbUser called like a Database with a user of its own is never created |
| `Acl.GrantsOnlyAdd` | pkg/utils/database/postgres.go:507-676 | a run of grants cut short anywhere adds only what the whole run would add and loses nothing |
| `Postgres.PgServer.SetUserPermission` | pkg/utils/database/postgres.go:507-676 | the server and the outcome, for every access type, schema list, role list and pattern of failing calls |
| `Postgres.PgServer.GrantOnSchemas` | pkg/utils/database/postgres.go:544-662 | the loop over schemas stops at the first failing call, with everything before it done |
| `Postgres.PgServer.GrantRoles` | pkg/utils/database/postgres.go:668-673 | the loop over extra privileges, likewise |
| `Postgres.PgServer.RevokePermissions` | pkg/utils/database/postgres.go:678-724 | the server and the outcome of revoking; nothing for the main user or a missing role |
| `Postgres.PgServer.Drop` | pkg/utils/database/postgres.go:726-743 | the role is dropped; a refusal because of dependents is passed over |
| `Postgres.PgServer.Delete` | pkg/utils/database/handler.go:84-95 | revoke, then drop only if that succeeded |
| `Postgres.PgServer.Create` | pkg/utils/database/postgres.go:464-484 | refuses an existing role; otherwise creates it and sets its permissions |
| `Postgres.PgServer.Update` | pkg/utils/database/postgres.go:486-505 | refuses a missing role; otherwise alters it and sets its permissions |
| `Postgres.PgServer.CreateOrUpdate` | pkg/utils/database/postgres.go:444-462 | one of the two, then the permissions once more |
| `PostgresTheorems.InterruptedGrantingConverges` | pkg/utils/database/postgres.go:507-676 | any number of interrupted passes followed by a complete one leave exactly what one complete pass leaves |
| `PostgresTheorems.GrantingTwiceIsOnce` | pkg/utils/database/postgres.go:507-676 | two complete passes are one |
| `PostgresTheorems.CreateOrUpdateGrantsOnce` | pkg/utils/database/postgres.go:444-462 | both branches of createOrUpdateUser equal a single application of the permissions |
| `PostgresTheorems.FullGain` | pkg/utils/database/postgres.go:552-662 | exactly which entries a readOnly or readWrite user gains, over every schema list |
| `PostgresTheorems.MainGain` | pkg/utils/database/postgres.go:530-551 | exactly which entries the main user and the admin gain, over every schema and role list |
| `PostgresTheorems.UsersAreGated` | pkg/utils/database/postgres.go:464-505 | creating an existing role and altering a missing one are refused without a call; which roles there are afterwards |
| `PostgresTheorems.AccessIsGated` | pkg/utils/database/postgres.go:519-676 | an unknown access type is refused, with nothing done but the optional grant to the admin |
| `PostgresTheorems.RevokingIsGated` | pkg/utils/database/postgres.go:678-680 | revoking from the main user, and revoking from or dropping a missing role, succeed without a call |
| `PostgresTheorems.DroppingIsExact` | pkg/utils/database/postgres.go:726-743 | a role stays exactly if the call fails or something on the server depends on it, in which case nothing changes; otherwise it goes with its memberships and nothing else; only a failing call is an error |
| `PostgresTheorems.DefaultsActAs` | pkg/utils/database/postgres.go:575-600 | on RDS every default privilege is set right after a SET ROLE to the admin if it is a member of the user, else to the user; elsewhere no role is set |
| `PostgresCoverage.CoverageOfTables` | pkg/utils/database/postgres.go:552-662 | from a clean start a readOnly user holds exactly SELECT and a readWrite user exactly SELECT, INSERT, DELETE, UPDATE, TRUNCATE on every table of every configured schema, and of `public` unless that is dropped, nothing elsewhere; later tables get the same exactly if `MainUser` creates them |
| `PostgresCoverage.CoverageOfSequences` | pkg/utils/database/postgres.go:552-662 | the same of sequences, present and later, with USAGE and SELECT for a readOnly user and UPDATE besides for a readWrite user |
| `PostgresCoverage.CoverageOfSchemas` | pkg/utils/database/postgres.go:552-662 | and of schemas: USAGE on every listed one, nothing on any other |
| `PostgresCoverage.DbUsersMissLaterTables` | internal/helpers/database/database.go:50-56 | where `MainUser` is the user itself, it has nothing on a table somebody else creates later |
| `PostgresCoverage.GrantingAddsToTables` | pkg/utils/database/postgres.go:552-662 | whatever the user held on a table before, it holds exactly that and the privileges of its access type after |
| `PostgresCoverage.ReadOnlyIsExactIff` | pkg/utils/database/postgres.go:610-662 | a user made readOnly holds exactly SELECT on a listed table exactly if it held no more than SELECT before |
| `PostgresCoverage.ReadWriteSurvivesReadOnly` | pkg/utils/database/postgres.go:507-676 | a change from readWrite to readOnly leaves all five privileges in place |
| `PostgresCoverage.RevokeEffect` | pkg/utils/database/postgres.go:678-724 | however far revoking gets it touches only the user's privileges, listed roles and the admin's membership; complete, it leaves exactly the rest |
| `PostgresCoverage.RevokeUndoesGrant` | pkg/utils/database/postgres.go:678-724 | revoking after a grant, complete or cut short, restores the server exactly, except for the admin's membership in the user |
| `PostgresCoverage.OthersAreUntouched` | pkg/utils/database/postgres.go:507-724 | neither operation, however far it gets, changes another role's entries |
| `PostgresOwned.RevokeTrims` | pkg/utils/database/postgres.go:678-724 | seen without what any given users own, revoking is the same as if they had never owned it, for every pattern of failing calls |
| `PostgresOwned.SetTrims` | pkg/utils/database/postgres.go:507-676 | so is granting |
| `PostgresOwned.RevokeLeavesNothing` | pkg/utils/database/postgres.go:714-719 | a complete revocation leaves the user without tables, sequences and default privileges of its own |
| `PostgresOwned.RevokeKeepsOthers` | pkg/utils/database/postgres.go:714-719 | and takes tables away from nobody else |
| `ExtraGrants.IsExtraGrant` | api/v1beta1/database_types.go:154-162 | membership by user and access type |
| `ExtraGrants.DatabaseGrants.RevokeObsolete` | internal/controller/database_controller.go:626-643 | revokes, in order, each recorded grant missing from the spec, up to the first failure |
| `ExtraGrants.DatabaseGrants.SetMissing` | internal/controller/database_controller.go:645-662 | sets, in order, each grant of the spec missing from the record, up to the first failure |
| `ExtraGrants.DatabaseGrants.Reconcile` | internal/controller/database_controller.go:621-668 | the server and the recorded grants after a whole pass |
| `ExtraGrants.ExtraGrantsConverge` | internal/controller/database_controller.go:621-668 | from a server that matches the record, passes failing at any call and retried on the same spec end, once one gets through, with server and record both equal to the spec and without what users with a revoked or changed grant owned; until then the record is unchanged and the server holds nothing but what was there or is due, and all that is not to be revoked |
| `ExtraGrants.RevokedUsersLoseTheirTables` | internal/controller/database_controller.go:626-643 | after a successful pass exactly the tables of users with a revoked or changed grant are gone |
| `ExtraGrants.RecordIsTrueIff` | internal/controller/database_controller.go:621-668 | a successful pass leaves the server as recorded exactly if grants are allowed or there is nothing to grant |
| `ExtraGrants.NotAllowed` | internal/controller/database_controller.go:621-668 | without permission the server is left alone, and the pass succeeds and records the spec exactly if nothing is recorded yet |
| `ExtraGrants.AdminJoins` | internal/controller/database_controller.go:626-662 | an undisturbed grant makes the admin a member of the user exactly if the instance grants roles to the admin, a revocation exactly if it does so only on deletion |
| `ExtraGrants.RecordedIsNotRevisited` | internal/controller/database_controller.go:625-665 | once the spec is recorded no later pass on it changes the server |
| `ExtraGrants.RepairedIff` | internal/controller/database_controller.go:621-668 | from any pieces of any grants on the server, passes on a spec that get through leave server and record equal to the spec exactly if, before, whoever is not to be stripped had no more than the spec gives and whoever is recorded already had all of it |
| `ExtraGrants.AbandonedSpecsAreRepairedIff` | internal/controller/database_controller.go:621-668 | the same after any history of failed passes on any other specs, apart from what recorded users own |
| `ExtraGrants.AbandonedGrantStays` | internal/controller/database_controller.go:621-668 | whatever a user has who is in neither the record nor the spec stays through any number of passes, failing or not, except on objects of users being revoked |
| `ExtraGrants.HalfAGrant` | internal/controller/database_controller.go:645-662 | a failing pass that leaves a schema privilege behind which dropping the grant from the spec does not repair |
| `ExtraGrants.HalfARevoke` | internal/controller/database_controller.go:626-643 | a failing pass that takes a schema privilege away which putting the grant back into the spec does not repair |
| `Labels.SetOwnerReference` | internal/helpers/kube/kube.go:159-175 | the references of others in order, then the caller's own exactly if cleanup is on |
| `Labels.OwnershipFollowsCleanup` | internal/helpers/kube/kube.go:159-214 | setting it again is a no-op, and turning cleanup off restores the references of others |
| `Labels.ReleaseUndoesClaim` | internal/helpers/kube/kube.go:185-198 | claiming makes the object the caller's, releasing restores its labels |
| `Labels.ClaimTakesIff` | internal/helpers/kube/kube.go:144-191 | a claim takes effect for the caller exactly if no foreign name label is present; otherwise it goes to that name |
| `Labels.UseIsExclusive` | internal/helpers/kube/kube.go:151-157 | at most one caller has an object, and an unlabelled object is nobody's |
| `Ownership.WritesAreOwned` | internal/helpers/kube/kube.go:70-142 | every accepted Update carries the stored version; claims go to free objects, edits and releases to the caller's own, with the labels each leaves behind |
| `Ownership.OwnershipIsExclusive` | internal/helpers/kube/kube.go:60-157 | over every run of any number of callers, an object labelled for one caller stays that caller's and is written by no other until its own release or the object's removal |
| `Ownership.HolderIsAlone` | internal/helpers/kube/kube.go:60-157 | the same at any point of any run from a start without operations and with paired labels |
| `Ownership.RivalClaimsConflict` | internal/helpers/kube/kube.go:121-129 | of two pending claims on a free object at most one gets through |
| `Ownership.UndisturbedUpdate` | internal/helpers/kube/kube.go:90-142 | an update with nothing in between: an object that is free or the caller's ends up labelled for the caller with the data asked for, the owner references of others and its own exactly if it wants cleanup; an object of somebody else stays as it is |
| `Ownership.UndisturbedCreation` | internal/helpers/kube/kube.go:103-142 | the same of an object that is not there yet |
| `Ownership.UndisturbedRelease` | internal/helpers/kube/kube.go:70-88 | a deleted caller takes exactly the two used-by labels off its own object and leaves any other alone |
| `Teardown.DbUserDeletion.HandleDbUserDelete` | internal/controller/dbuser_controller.go:235-303 | the whole state and the outcome of one attempt, for every pattern of failing calls |
| `Teardown.DbUserDeletion.HandleTemplatedCredentials` | internal/controller/dbuser_controller.go:487-538 | the Secret is claimed and put in order; a missing ConfigMap is passed over, an unreadable Secret is not |
| `Teardown.DbUserDeletion.UpdateSecret` | internal/helpers/kube/kube.go:121-142 | claim if free, refuse if another's, then the owner reference |
| `Teardown.DbUserDeletion.HandleDelete` | internal/helpers/kube/kube.go:70-88 | releases the caller's own Secret, refuses any other |
| `Teardown.DbUserDeletion.RemoveFinalizers` | internal/controller/dbuser_controller.go:293-300 | off the Database first, off the DbUser only if that succeeded |
| `TeardownTheorems.TeardownIsRetrySafe` | internal/controller/dbuser_controller.go:235-303 | for any user but the main one, tables of its own included: after any number of attempts stopped anywhere, an undisturbed one succeeds and ends as if it were the only one, with the role, its rights and everything it owned gone, the Secret released and the finalizer off both objects |
| `TeardownTheorems.RetrySafeIff` | internal/controller/dbuser_controller.go:271-291 | every history of interrupted attempts can be finished exactly if there is no Secret, or the ConfigMap is there and the Secret parses and is nobody else's |
| `TeardownTheorems.AttemptSucceedsIff` | internal/controller/dbuser_controller.go:235-303 | one undisturbed attempt succeeds exactly if there is nothing to do, no Secret, or the Secret is the DbUser's or, with the ConfigMap there, readable and free or its own; the finalizer is off then |
| `TeardownTheorems.IrrecoverableForGood` | internal/controller/dbuser_controller.go:271-291 | when the Secret cannot be taken back, no attempt ever succeeds or takes a finalizer off |
| `DatabaseDeletion.Deletion.HandleDbDelete` | internal/controller/database_controller.go:420-486 | the finalizers, the Secret, the ConfigMap and the database on the server after one attempt, for every pattern of failing calls; while a finalizer contains `dbuser.` it fails and changes nothing |
| `DatabaseDeletion.HeldBackIsUntouched` | internal/controller/database_controller.go:429-432 | over any number of attempts, while a finalizer contains `dbuser.`, nothing changes: no finalizer, Secret, ConfigMap or database |
| `DatabaseDeletion.NamedIsUntouched` | internal/controller/database_controller.go:429-432 | so it is with the finalizer of any DbUser on the list |
| `DatabaseDeletion.FinalizerOutlivesSql` | internal/controller/database_controller.go:434-447 | over any attempts, a Database that is not protected has its finalizer taken off only after its database is dropped |
| `DatabaseDeletion.UndisturbedDeletion` | internal/controller/database_controller.go:434-486 | one undisturbed attempt on a Database that nothing holds back: exactly when it succeeds, and then what becomes of database, finalizers, Secret and ConfigMap |
| `DatabaseDeletion.SecretIsOrphanedIff` | internal/controller/database_controller.go:434-486 | with no other finalizer on the Database, over any attempts its Secret stays labelled for it exactly if none went through to the end |
| `DatabaseDeletion.SecretIsOrphaned` | internal/controller/database_controller.go:434-486 | a failure right after the finalizer is off leaves the object gone and the Secret labelled through all later attempts |
| `InstanceInputs.GenerateChecksums` | internal/helpers/common/common.go:97-136 | one checksum for the spec, the admin Secret and every object the backend type refers to |
| `InstanceInputs.ChecksumsAgreeIff` | internal/helpers/common/common.go:90-148 | two snapshots have equal checksums exactly if the specs and everything fetched for them are equal |
| `InstanceInputs.ChecksumsCoverBuild` | internal/controller/dbinstance_controller.go:198-338 | equal checksums mean that `create` builds the same backend, or fails alike, when it reads what was fetched; in general two successful builds agree exactly if they read the same host, port and address |
| `InstanceInputs.FetchSucceedsIff` | internal/controller/dbinstance_controller.go:198-267 | fetching succeeds exactly if the admin Secret and every object the backend type refers to are there, of a kind that can be referred to |
| `InstanceInputs.FetchedFields` | internal/controller/dbinstance_controller.go:198-267 | and then each field of the snapshot is the object its own reference names |
| `InstanceInputs.BuiltGeneric` | internal/controller/dbinstance_controller.go:283-338 | field by field, what a generic backend is built from: host, port and address the spec's own or the value under the referenced key, user and password from the admin Secret, engine and SSL settings from the spec |
| `InstanceInputs.BuiltGoogle` | internal/controller/dbinstance_controller.go:269-283 | the same of a Google backend |
| `InstanceInputs.BuildSucceedsIff` | internal/controller/dbinstance_controller.go:269-338 | exactly when `create` gets as far as a backend |
| `InstanceInputs.ParsedAdmin` | pkg/utils/database/postgres.go:300-335 | user and password of the admin are those under the keys the engine allows, in their order of precedence, and parsing fails exactly if there is none |
| `InstanceInputs.DecimalReads` | internal/controller/dbinstance_controller.go:300-310 | every number is read back from its decimal digits |
| `DbInstance.Reconciler.Broadcast` | internal/controller/dbinstance_controller.go:362-384 | the loop is a run of the broadcast steps of the common step system, ending at the first conflict or failure; success exactly if the whole list was gone through |
| `DbInstance.Reconciler.Reconcile` | internal/controller/dbinstance_controller.go:117-164 | the status a pass ends with and what it did to the Databases, for every outcome of its calls |
| `DbInstanceTheorems.PhasesTellTheTruth` | internal/controller/dbinstance_controller.go:117-164 | over all runs: not ready means no phase, Validating or Creating; ready means Broadcasting, ProxyCreating or Running; Running means create, broadcast and proxy succeeded in the pass that recorded the stored checksums, and each Database that pass had listed with a checksum has been invalidated since |
| `DbInstanceTheorems.UnchangedMeansSameBackendIff` | internal/controller/dbinstance_controller.go:117-123 | over all runs: a pass that finds a ready instance unchanged would build the backend created in the pass that recorded the checksums, exactly if no referenced value was edited between that pass's fetch and its create |
| `DbInstanceTheorems.EditDuringCreateGoesUnnoticed` | internal/controller/dbinstance_controller.go:285-319 | a reachable Running instance whose unchanged inputs would build another backend than the one created |
| `DbInstanceTheorems.ReadyStatusChangesIff` | internal/controller/dbinstance_controller.go:117-161 | the status of a ready instance changes in exactly those steps that are passes on the stored copy which fetch and label everything, find other checksums and get their status written |
| `DbInstanceTheorems.FailedBroadcastIsNotRetried` | internal/controller/dbinstance_controller.go:130-161 | over every run without such a step the status of a ready instance stays, in whatever phase it stopped |
| `DbInstanceTheorems.ReadyInstanceStartsOverIff` | internal/controller/dbinstance_controller.go:117-161 | a pass on the stored copy of a ready instance starts over exactly if everything is fetched and labelled, the spec is valid and the checksums differ; a broadcast that then succeeds has emptied everything listed with a checksum |
| `DbInstanceTheorems.UnreadyInstanceStartsOverIff` | internal/controller/dbinstance_controller.go:117-161 | a pass on a copy of an instance that is not ready starts over exactly if everything is fetched and labelled and the spec is valid, whether or not the checksums differ |
| `DbInstanceTheorems.GoodPassEndsRunning` | internal/controller/dbinstance_controller.go:117-164 | from every reachable state, so after whatever failures, a pass on the stored copy all of whose calls succeed leaves the instance stored as ready and Running with the checksums of its inputs, unless it was ready on these checksums already and is left as it is |
| `DbInstanceTheorems.PassStopsAtFirstFailure` | internal/controller/dbinstance_controller.go:130-161 | the phase and the readiness a pass that starts over ends with, by the first of its calls that fails |
| `DbInstanceTheorems.InvalidSpecIsNotReady` | internal/controller/dbinstance_controller.go:119-135 | with an invalid spec a pass on changed inputs ends not ready in phase Validating, and any other changes nothing |
| `DbInstanceTheorems.ValidSpecIff` | api/v1beta1/dbinstance_types.go:162-217 | a spec is valid exactly if it names one of the two backends and not both, and the engine is mysql or postgres |
| `DbInstanceTheorems.FailedBroadcastIsReached` | internal/controller/dbinstance_controller.go:146-160 | reachable ready instances in phase Broadcasting and in phase ProxyCreating |
| `Credentials.SanitizeFits` | pkg/utils/kci/database.go:28-49 | for every string and limit: at most the limit, exactly the limit when truncated, only lower-case letters, digits, `$` and `_`, and short plain names unchanged |
| `Credentials.SanitizeIsPointwise` | pkg/utils/kci/database.go:28-49 | the identifier, from the name with each character replaced: digits, lower-case letters, `$` and `_` stay, upper-case letters become lower-case, everything else becomes `_`; too long a name keeps its start before eight digits of the hash, or is the start of the hash |
| `Credentials.SanitizedCharacters` | pkg/utils/kci/database.go:28-49 | so each character of a short name, and of the start of a long one, becomes the one at its place |
| `Credentials.TruncatedNamesAgreeIff` | pkg/utils/kci/database.go:38-49 | a truncated name keeps the start of the original, and two long names collide exactly if they share that start and eight digits of the hash |
| `Credentials.SanitizedAgreeIff` | pkg/utils/kci/database.go:28-49 | exactly when any two names, short, long or one of each, come to the same identifier |
| `Credentials.QualifiedAgreeIff` | internal/helpers/database/database.go:183-185 | two objects have the same qualified name exactly if they are the same or a dash is read as part of the other's namespace |
| `Credentials.PostgresNamesAgreeIff` | internal/helpers/database/database.go:196-202 | on Postgres Databases share a server name exactly in those cases, so never within one namespace |
| `Credentials.MysqlNamesCollide` | internal/helpers/database/database.go:203-209 | on MySQL Databases `a.b` and `a-b` of any namespace do |
| `Credentials.ServerNameIsGenerated` | internal/helpers/database/database.go:178-209 | the server name is the one in the generated credentials |
| `Credentials.CaseDoesNotMatter` | pkg/utils/kci/database.go:28-32 | names that differ only in case give the same identifier |
| `Credentials.SanitizeIsStable` | pkg/utils/kci/database.go:28-49 | sanitizing again to the same or a larger limit changes nothing |
| `Credentials.ParseUndoesGenerate` | internal/helpers/database/database.go:122-227 | parsing undoes generating on both engines, other engines are refused, MySQL names fit 63 and users 32 |
| `Credentials.GeneratedEntries` | internal/helpers/database/database.go:178-209 | exactly which entries are generated on each engine, under which names, from which values |
| `Credentials.ParsedEntries` | internal/helpers/database/database.go:122-170 | exactly which entries each credential is read from, and when reading fails |
| `Credentials.DatabaseNamesAgree` | internal/controller/dbuser_controller.go:99-108 | a DbUser and its Database come to the same database name |
| `Credentials.DeletionFindsTheUser` | internal/controller/dbuser_controller.go:305-334 | over every history the name resolved at deletion is the one used on the server, from status, Secret or regeneration; resolution fails exactly if neither the Database's status nor a Secret tells the database name |
| `Credentials.DeleteCredsPrecedence` | internal/controller/dbuser_controller.go:305-334 | which of status, Secret and regeneration the name and the user at deletion come from, in that order |
| `Templates.SecretObject.ParseTemplated` | pkg/utils/templates/secrets.go:57-76 | takes every templated entry out of the data, in any map order |
| `Templates.GenerateTemplated` | pkg/utils/templates/secrets.go:78-131 | renders every template not named like a credential, fails exactly if one does not render |
| `Templates.SecretObject.Append` | pkg/utils/templates/secrets.go:133-149 | adds the new entries except under credential names |
| `Templates.SecretObject.RemoveObsolete` | pkg/utils/templates/secrets.go:151-167 | removes what is neither new nor a credential |
| `Templates.SecretObject.CreateTemplated` | internal/controller/database_controller.go:919-957 | the four steps on the shared data amount to one simple map |
| `Templates.PipelineIsExact` | pkg/utils/templates/secrets.go:57-166 | with no template named like a credential: exactly the original credentials plus one rendered value per template, and the credentials still parse |
| `Templates.PipelineIsIdempotent` | pkg/utils/templates/secrets.go:57-166 | running the pipeline on its own result changes nothing |
| `Templates.CredentialsSurviveIff` | pkg/utils/templates/secrets.go:57-76 | the credential entries, and so the Secret's checksum, survive exactly if no template carries the name of one that is there |
| `Templates.LostCredentialIsFatal` | internal/controller/database_controller.go:925-938 | after a template deleted a credential of the engine, every later run with templates fails, whatever runs come in between |
| `Templates.ChecksumInput` | internal/helpers/common/common.go:59-78 | exactly the credential entries go into the Secret's checksum |
| `Templates.TemplateDataSources.RenderTemplates` | internal/utils/templates/templates.go:48-75 | the Secret and ConfigMap data after rendering a list, stopping at the first failure |
| `Templates.RenderingIsConfined` | internal/utils/templates/templates.go:48-75 | even when it fails midway, rendering leaves the credential entries alone, removes nothing and changes only entries its templates name |
| `Templates.RenderingSucceedsIff` | internal/utils/templates/templates.go:48-75 | rendering succeeds exactly if no template is named like a credential and each executes on what the ones before it have made |
| `Templates.RenderedValue` | internal/utils/templates/templates.go:48-75 | and then every entry holds what its last template gave, executed on what the ones before it had made |
| `Templates.BlockedNames` | internal/utils/templates/templates.go:36-46 | the names no template may take are the six credential names |

## Left out

- SQL drivers, connection strings, SSL modes, health checks: each statement is replaced by its effect on roles, objects and access control entries.
- Google Cloud SQL, the cloud proxy and proxy manifests: external API calls; that they succeed or fail is a parameter.
- Backup CronJobs, info ConfigMaps, the instance access Secret, monitoring extensions: object construction with no behaviour of interest.
- Webhook checks and Go template evaluation: executing a template is a function parameter.
- Password generation, SHA-256 (section 6.2 of FIPS 180-4) and JSON encoding: function parameters with the length, alphabet and injectivity the code relies on.
- MySQL permission management: revocation is deliberately a no-op there, so the grant properties are about Postgres.
- The Google backend's access Secret and the backup job during the deletion of a Database: released in the same way as its ConfigMap.
- `kci.Retry`, metrics, events, logging, configuration, generated code: nothing to add to the claims.
- Eventual completion of deletion: some failure orders leave an object waiting for good, so safety and conditional retry convergence are proved instead.
- Strings that are not valid UTF-8: `Credentials.Sanitize` works on sequences of characters.
- The stored data after `HandleCreateOrUpdate` on an unversioned object that already exists: the code goes on with the re-read object, and only ownership and metadata are claimed.
- The controllers' step systems are functions on values, not classes: they capture the order of calls, conflicts and stale copies, but not aliasing between the objects inside one reconcile.
- `DbInstance.Apply`: a pass of the DbInstance controller, its broadcast included, is one step there; a Database written to while the list is being gone through shows as a stale listed copy, and the item-by-item interleaving is in `Operator.InstApply`.
- Spec and status fields the claims do not depend on are one opaque field each, and all Databases and DbUsers live in one namespace.
