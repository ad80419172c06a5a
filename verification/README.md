# Verification of the Pulse operator

A Dafny 4.11 model of the operator that runs OpenShift Pulse, with proofs of what its comments, README
and release workflow promise. `dafny verify dfyconfig.toml` checks everything.

## What is modelled

- **Upgrades and automatic rollback.** `PulseStatus` has the CR as a class with the status fields and the
  methods of `status.go` on them, each proved against a function of the old status. `UpgradeRuns` puts
  these into a closed loop: users edit the spec, the operator's default images change, Deployments change
  in any way, passes end early, are rejected or lose their status write, and a pass may read any past
  state of a Deployment. Its invariants hold over every such run. `UpgradeOutcomes` draws the
  conclusions a user sees, and `ReconcilePass` shows why passes get to the status sync at all, and what
  they do to the agent's Deployment.
  `PassLaws` says in plain terms what one pass makes of every field.
- **Many CRs.** `Admission` decides which CR the operator acts on; `ClusterScoped` and `FinalizerRuns`
  follow cluster-scoped objects with their owner stamps through any order of creations, rejections,
  finalizations and failing calls; `FeatureToggles` follows the objects of the optional features through
  any sequence of settings.
- **PostgreSQL.** `PgCredentials` (the password, and the URL that carries it), `PgPairRuns` (the password and the
  data it belongs to, over runs in which passes and users interleave call by call), `SecretHash` (the bytes that
  are hashed), `PgStatefulSet` (immutable fields, drift, major version, volume size), `PgDataMajor` (the major
  version of the data, over runs in which the StatefulSet comes and goes).
- **Printers and their readers.** `Json` and `ConfigJs` for `/config.js`, `Toml` and `McpConfig` for the MCP
  server's settings. The readers follow section 7 of RFC 8259, nginx's quoting, and TOML v1.0.0.
- **Releases and acceptance.** `ReleaseChain` and `LatestRuns` (the upgrade graph and the `:latest` tags),
  `TokenRotation` (the acceptance runner's compare-and-swap, sections 4.6 and 5 of RFC 6902).

`Options`, `Sorting`, `Strings`, `Decimal` and `Hex` are shared helpers. The table below has the results and the
methods they rest on; the lemmas in between are in the files.

Methods that call the API server choose non-deterministically whether a call fails; a failed write may have
been carried out. Failed calls are counted, and a method reports an error only when one failed or an object refused.
Their contracts state the whole new state, and the lemmas about runs use the same
relations the methods are proved to satisfy.

## Where the code does less than its words

For each of these the exact condition under which the promise holds is proved; most have a concrete case beside it.

- *Each image gets five minutes.* The timer is shared by agent and UI and a new image does not restart it. It
  holds exactly when no timer was running or none older than the current second
  (`UpgradeOutcomes.NewImageGetsItsTimeIff`, with the run of `UpgradeOutcomes.NewImageMayGetNoTime`).
- *An image that does not come up is rolled back.* `AgentVersionCompatible` is refreshed only while
  `minOperatorVersion` is set; a False left behind when the field is cleared stops agent rollbacks
  (`UpgradeOutcomes.StaleGateBlocksRollback`, `UpgradeOutcomes.ClearedGateStillBlocks`; exactly when one is
  recorded: `UpgradeRuns.RecordedIff`).
- *The duration of an upgrade.* One that is given up by asking for the old images again is timed as well
  (`UpgradeOutcomes.DurationIsWrittenIff`, `UpgradeOutcomes.AbandonedUpgradeIsTimedToo`).
- *Problems show in the CR's status.* A pass that ends in an error writes none. A first install with a size that
  does not parse, or an object of another controller's in the way, never gets a status sync
  (`ReconcilePass.SyncedIff`, `ReconcilePass.RefusalLasts`).
- *A closed compatibility gate keeps the running agent.* Except one with a mismatched selector, which is
  deleted first and then not made again (`ReconcilePass.ClosedGateKeepsTheImageIff`,
  `ReconcilePass.BlockedWhileTheGateIsClosed`).
- *Data and password keep the same lifetime.* A pass acts on the annotation it read, from a cache, while users
  may change it. Once a CR with delete-data is being deleted, taking the annotation back parts them if a pass
  that read it has yet to delete the Secret, or if the teardown has got half way; so does a later pass that
  goes by an old version. These are exactly the steps after which the password can be lost
  (`PgPairRuns.PairCanBreakIff`, with three concrete runs beside it). The pair matters for images that set the
  password only when they initialise an empty directory, as the comment on reconcilePGSecret has it; another
  comment says that the UBI image applies `POSTGRESQL_PASSWORD` at every start
  (internal/controller/postgresql_reconciler.go:491-494), and then a lost password is replaced.
- *With delete-data, deletion is a full teardown.* Of a CR that held the finalizer; a rejected one, or one deleted
  before its first pass, tears nothing down (`PgPairRuns.TeardownIsComplete`).
- *The agent connects with the stored password.* The URL does not escape it, so a migrated password with a slash,
  `?`, `#`, `@` or percent sign does not come back (`PgCredentials.UrlReadsBackIff`). The reader there follows
  sections 2.1 and 3.2 of RFC 3986; libpq looks for the `@` by a rule of its own.
- *The PostgreSQL major version is guarded.* Only while the StatefulSet lives, between recognised images, and
  when the read before CreateOrUpdate's own succeeds (`PgStatefulSet.PassMayChangeMajorIff`). Over whole runs a
  server of another major version is put on the data exactly when a write goes through that was asked for one
  and follows a failed read, involves an unrecognised image, or makes a new StatefulSet over a volume that
  survived the old one (`PgDataMajor.DataMajorIsKeptIff`); a StatefulSet taken over from Helm is removed before the
  guard is reached (`PgDataMajor.MigrationStartsAnotherMajor`).
- *Only drift restarts the database.* An unreadable credentials Secret counts as drift
  (`PgStatefulSet.UnreadableSecretRestartsTheDatabase`).
- *Namespace-qualified names keep CRs apart.* The separator is not escaped, so two namespace/name pairs can
  share every name (`FinalizerRuns.NamesCollide`, `FinalizerRuns.NamesAgree`).
- *Turning a feature off never removes something the operator did not make.* True of the removal itself;
  but creation takes over what it finds, and then removal takes it for its own: all but the render token and
  the MCP Service, and for a colliding name even another CR's ClusterRole
  (`FeatureToggles.OnThenOffDeletesIff`, `FeatureToggles.AnothersClusterRoleIsDeleted`).
- *The original token is restored.* Not when the first patch is carried out but reported failed
  (`TokenRotation.LostAnswerLeavesTheToken`; exactly when its token stays: `TokenRotation.LeavesItsToken`
  in the contract of `TokenRotation.Cluster.Rotate`).
- *`:latest` moves only to the newest release.* Not when `git fetch` fails, which is not fatal
  (`LatestRuns.FailedFetchLowersLatest`; exactly which lists are safe: `LatestRuns.ListIsSafeIff`). A tag with
  leading zeros shares its key with the canonical one (`ReleaseChain.ChainEndsAtVersionIff`).
- *The MCP settings are TOML.* Go's quoting has escapes TOML lacks, so a bell or another such control
  character inside a name makes the file unreadable (`McpConfig.ConfigRoundTrip`).

## Model

| member | source | states |
|---|---|---|
| `PulseStatus.OpenShiftPulse.SyncPhase` | internal/controller/status.go:106-155 | the phase after a sync, Degraded only after Running or Upgrading, and the duration of an upgrade that just completed |
| `PulseStatus.OpenShiftPulse.SyncPhaseAndConditions` | internal/controller/status.go:57-200 | the whole status after one sync, and what it returns |
| `PulseStatus.OpenShiftPulse.ReconcileAutoRollback` | internal/controller/status.go:244-289 | records, timer and answer after the rollback check; the spec is not in its frame |
| `PulseStatus.OpenShiftPulse.ReportPodProblems` | internal/controller/status.go:296-325 | a not-ready component's condition takes its pods' reason; a ready one's, one without a reason, or one whose pods cannot be listed keeps what it has |
| `PulseStatus.OpenShiftPulse.SetAgentVersionCompatibleCondition` | internal/controller/agent_reconciler.go:894-897 | the condition is written only while minOperatorVersion is set |
| `PulseStatus.OpenShiftPulse.FlushInstallingStatus` | internal/controller/openshiftpulse_controller.go:298-303 | an early return overwrites the phase and keeps timer and records |
| `PulseStatus.OpenShiftPulse.FinishPass` | internal/controller/openshiftpulse_controller.go:233-278 | the status a pass writes at its end is the sync, the pod problems and the rollback check in turn |
| `PassLaws.RolledOutIsRemembered` | internal/controller/status.go:85-94 | what the pass saw rolled out becomes the last healthy image, and nothing else does |
| `PassLaws.LastHealthyIsLastSeen` | internal/controller/status.go:85-94 | in every reachable status it is the image of the last persisted sync that saw the component rolled out |
| `PassLaws.RecordDecides` | internal/controller/agent_reconciler.go:143-151 | only a record of this very request changes which image runs |
| `PassLaws.FieldsAre` | internal/controller/agent_reconciler.go:128-151 | which fields of the CR the statements about it speak of |
| `PassLaws.SpecBeatsTheRelease` | internal/controller/agent_reconciler.go:128-135 | the spec's image stands whatever the release pins |
| `PassLaws.RollsBackExactlyWhen` | internal/controller/status.go:249-288 | exactly when a pass rolls back: not rolled out, another image than the last healthy one, 300 seconds on the timer, agent not held back; the record says from what, to what and when |
| `PassLaws.TimerIs` | internal/controller/status.go:96-104 | the stored timer from what was seen: first upgrading second, until nobody upgrades or a rollback ends it |
| `PassLaws.PhaseIs` | internal/controller/status.go:106-155 | all four phases from what was seen and the phase before, Degraded against Installing included |
| `PassLaws.ConditionsAre` | internal/controller/status.go:157-197 | status and reason of the five conditions |
| `PassLaws.OtherConditionsStay` | internal/controller/compat.go:89-109 | no other condition changes but the compatibility one, while the CR asks for it |
| `PassLaws.EarlyReturnLeaves` | internal/controller/openshiftpulse_controller.go:284-303 | an early return says Installing and leaves the rest |
| `PassLaws.RoundsToNearest` | internal/controller/status.go:124-127 | durations round to the nearest second, half a second away from zero |
| `UpgradeRuns.RolledOutMeansEveryPodRuns` | internal/controller/openshiftpulse_controller.go:489-505 | from the status counters alone: a Deployment counts as rolled out exactly when its status has caught up, every pod is made from the current template and runs the image, and every desired replica (one at least) is ready |
| `UpgradeRuns.RecordedIff` | internal/controller/status.go:249-278 | exactly when a pass records a rollback of a component: upgrading, five minutes on the timer, gate not in the way |
| `UpgradeRuns.NoUpgradeUnderRecord` | internal/controller/status.go:236-241 | under a record that applies the component is not upgrading and no second rollback is recorded |
| `UpgradeRuns.InvAfterStep` | internal/controller/status.go:57-289 | every step of users, cluster and operator keeps the invariants |
| `UpgradeRuns.OneRollbackAtATime` | internal/controller/status.go:236-241 | in every reachable status a record points to the last healthy image and away from the bad one, and blocks a second rollback |
| `UpgradeRuns.SecondRollbackNeedsAnotherRequest` | internal/controller/status.go:262-278 | two rollbacks of one image have a sync between them that saw another image asked for |
| `UpgradeRuns.HealthyImagesReallyRan` | internal/controller/status.go:85-94 | every last healthy image and every rollback target was at some past moment what every pod ran, all wanted ones ready, however stale the reads |
| `UpgradeRuns.RollbackWaitedOutTheTimer` | internal/controller/status.go:249-254 | each persisted rollback ends an unbroken run of upgrading syncs at least five minutes long |
| `UpgradeRuns.RollbacksAreFarApart` | internal/controller/status.go:280-288 | two passes that persist a rollback are at least five minutes apart |
| `UpgradeOutcomes.SyncTellsOneStory` | internal/controller/status.go:78-197 | Upgrading iff a component is upgrading iff the timer is set; Ready iff Running iff everything serves and nothing upgrades |
| `UpgradeOutcomes.PassTellsOneStory` | internal/controller/openshiftpulse_controller.go:256-278 | the same of what is stored, where a recorded rollback has cleared the timer |
| `UpgradeOutcomes.StaleRecordsDoNotMatter` | internal/controller/status.go:63-74 | dropping a stale record never changes the resolved image |
| `UpgradeOutcomes.DurationIsWrittenIff` | internal/controller/status.go:117-127 | the upgrade duration changes exactly on Upgrading to Running with a live timer |
| `UpgradeOutcomes.AbandonedUpgradeIsTimedToo` | internal/controller/status.go:124-127 | an upgrade given up by asking for the old images again is timed as well |
| `UpgradeOutcomes.RollbackLeavesNoDuration` | internal/controller/status.go:280-288 | an upgrade ended by rollback never shows up as a duration |
| `UpgradeOutcomes.RollbackConverges` | internal/controller/status.go:249-288 | an agent or UI image that never rolls out is rolled back no later than the first sync five minutes after the first one that saw it |
| `UpgradeOutcomes.RollbackIsDeployed` | internal/controller/agent_reconciler.go:937-959 | the first pass after a recorded rollback that reaches the agent with the gate open deploys the last healthy image, and until another image is asked for the agent runs nothing else while others leave the image alone |
| `UpgradeOutcomes.DeploysWhatThePassWrites` | internal/controller/agent_reconciler.go:937-979 | the deploying step of the runs allows exactly the image that reconcileDeployment writes |
| `UpgradeOutcomes.RollbackStaysDeployed` | internal/controller/agent_reconciler.go:139-151 | the same from any Deployment that runs it, gate open or closed; one the operator deletes for its selector comes back with that image or not at all |
| `UpgradeOutcomes.StaleGateBlocksRollback` | internal/controller/status.go:259-262 | a False compatibility condition left behind blocks every later agent rollback |
| `UpgradeOutcomes.ClearedGateStillBlocks` | internal/controller/agent_reconciler.go:894-897 | a concrete run into that state |
| `UpgradeOutcomes.NewImageGetsItsTimeIff` | internal/controller/status.go:96-104 | exactly when a new image gets five minutes from the moment it is asked for: no timer was running, or none older than the current second; else some continuation rolls this very image back sooner |
| `UpgradeOutcomes.NewImageMayGetNoTime` | internal/controller/status.go:96-104 | a concrete run in which a new UI image is rolled back by the first sync that sees it |
| `ReconcilePass.Installation.ReconcileStatefulSet` | internal/controller/postgresql_reconciler.go:301-471 | carries out the plan of PgStatefulSet.PlanOf: waits, deletes, refuses (unusable size, another's StatefulSet), keeps or stores |
| `ReconcilePass.StatefulSetStepIsReconciled` | internal/controller/postgresql_reconciler.go:261-482 | which is the errorless case of the relation PgStatefulSet proves of passes with failing calls |
| `ReconcilePass.Installation.ReconcileDeployment` | internal/controller/agent_reconciler.go:886-980 | deletes an agent Deployment with another selector, refuses another controller's, pins the image behind a closed gate and creates nothing then, keeps selector and restart annotation |
| `ReconcilePass.AgentRunsWhatItShould` | internal/controller/agent_reconciler.go:937-979 | a pass past the agent leaves it running the resolved image, behind a closed gate the one it ran; whose it is, its selector and its restart annotation |
| `ReconcilePass.MismatchedIff` | internal/controller/agent_reconciler.go:917-926 | exactly which selectors are another |
| `ReconcilePass.Installation.ReconcileRoute` | internal/controller/ui_reconciler.go:1107-1227 | creates the Route, corrects drift, waits for admission |
| `ReconcilePass.RouteIsCorrected` | internal/controller/ui_reconciler.go:1170-1224 | a pass that reaches the Route leaves one without drift |
| `ReconcilePass.Installation.Reconcile` | internal/controller/openshiftpulse_controller.go:84-278 | outcome and new state of a whole pass in which no API call fails, refusals included |
| `ReconcilePass.UnreachedStays` | internal/controller/openshiftpulse_controller.go:84-97 | what a pass does not reach stays as it was; a rejected CR altogether |
| `ReconcilePass.WhatItWritesMatches` | internal/controller/postgresql_reconciler.go:345-349 | what the operator creates, or updates and keeps, answers to its own selectors |
| `ReconcilePass.MeasureFalls` | internal/controller/openshiftpulse_controller.go:94-97 | each early return the operator causes lowers the measure by one and no pass raises it |
| `ReconcilePass.SyncedIff` | internal/controller/openshiftpulse_controller.go:112-234 | exactly when a pass gets to the status sync: nothing left to do, to wait for, or in the way |
| `ReconcilePass.RefusalLasts` | internal/controller/postgresql_reconciler.go:334-344 | no status is ever synced while the first StatefulSet has an unusable size, or the StatefulSet or agent Deployment is another controller's |
| `ReconcilePass.SelfCausedIsPaidFor` | internal/controller/openshiftpulse_controller.go:112-231 | over any run with others interfering, self-caused early returns are bounded by the starting measure and what others added |
| `ReconcilePass.SyncWithinFivePasses` | internal/controller/openshiftpulse_controller.go:45-278 | at most four passes that neither wait, nor are refused, nor are set back come before a status sync |
| `ReconcilePass.ClosedGateKeepsTheImageIff` | internal/controller/agent_reconciler.go:917-960 | exactly when a closed gate does not keep the running image: another selector, and a Deployment that goes as soon as it is deleted |
| `ReconcilePass.BlockedWhileTheGateIsClosed` | internal/controller/agent_reconciler.go:962-970 | a missing agent is not created while the gate is closed, and no pass syncs |
| `ReconcilePass.RestartSurvives` | internal/controller/deployment_selfheal.go:123-137 | a rollout restart's annotation survives every pass |
| `Admission.DecideAdmission` | internal/controller/admission.go:62-95 | the sorting decision is the one of the oldest live CR |
| `Admission.VerdictIs` | internal/controller/admission.go:66-95 | for an asker of any namespace, from the list alone: turned away for its namespace, accepted as the one all others come after, or turned away for that one by its name |
| `Admission.WinnerIsOldest` | internal/controller/admission.go:84-90 | that one is the oldest, and of its second the one with the smallest name |
| `Sorting.StringLessIff` | internal/controller/admission.go:89-89 | what the order of names is, seen from outside |
| `Admission.ExactlyOneIsAccepted` | internal/controller/admission.go:73-95 | of the live CRs exactly one is accepted, the oldest, ties going to the smaller name |
| `Admission.ListOrderDoesNotMatter` | internal/controller/admission.go:69-92 | the answer does not depend on list order |
| `Admission.NewcomerWinsOnlyByAge` | internal/controller/admission.go:82-88 | a newcomer wins exactly when it comes first in (time, name) order, so never with a later second |
| `Admission.NextInOrderTakesOver` | internal/controller/admission.go:82-94 | when the winner goes the next in order takes over and nobody else |
| `ClusterScoped.OthersAreLeftAlone` | internal/controller/openshiftpulse_controller.go:324-330 | no removal takes an object stamped with another CR's UID |
| `ClusterScoped.RepeatingIsANoOp` | internal/controller/openshiftpulse_controller.go:309-392 | after a removal without errors a second one changes nothing |
| `ClusterScoped.ApiServer.Del` | internal/controller/openshiftpulse_controller.go:316-334 | removes the object only if it carries this CR's stamp or none; silence means gone |
| `ClusterScoped.ApiServer.DeleteOwnedClusterScoped` | internal/controller/remove_helpers.go:38-53 | removes the object only with this CR's stamp; silence means gone |
| `ClusterScoped.ApiServer.DeleteClusterScopedResources` | internal/controller/openshiftpulse_controller.go:309-392 | attempts all sixteen removals in order whatever the others return; reports an error exactly when a call failed; else nothing of its own is left |
| `ClusterScoped.CleanupLeavesExactly` | internal/controller/openshiftpulse_controller.go:309-392 | object by object: what carries the stamp under one of the names goes, and what carries none under one that is not strict |
| `FinalizerRuns.CreatorsAreTargets` | internal/controller/openshiftpulse_controller.go:336-389 | everything a pass creates cluster-wide is on the finalizer's list |
| `FinalizerRuns.TargetsAreCreated` | internal/controller/openshiftpulse_controller.go:336-389 | and whatever is removed without a stamp is something a pass creates |
| `FinalizerRuns.NothingStampedIsLeft` | internal/controller/openshiftpulse_controller.go:57-66 | once every removal succeeded nothing carries the CR's stamp |
| `FinalizerRuns.InvAfterStep` | internal/controller/openshiftpulse_controller.go:57-97 | every step keeps: a stamp is backed by a living CR that holds the finalizer |
| `FinalizerRuns.NoOrphans` | internal/controller/openshiftpulse_controller.go:57-97 | in every interleaving a stamped object's CR still exists and holds the finalizer |
| `FinalizerRuns.DeletedCrGoes` | internal/controller/openshiftpulse_controller.go:57-83 | a CR being deleted goes in one pass without failures, with all it stamped |
| `FinalizerRuns.RejectedCrLosesItsGrants` | internal/controller/admission.go:97-102 | a rejected CR loses all it stamped and stays |
| `FinalizerRuns.AcceptedCrIsHeldFirst` | internal/controller/openshiftpulse_controller.go:94-97 | an accepted CR is given the finalizer before anything is created |
| `FinalizerRuns.CreatedIsStamped` | internal/controller/agent_reconciler.go:208-214 | what is created bears the stamp |
| `FinalizerRuns.StepsSpareOthers` | internal/controller/agent_reconciler.go:231-246 | no step of one CR deletes an object stamped with another's UID |
| `FinalizerRuns.NamesCollide` | internal/controller/agent_reconciler.go:107-118 | exactly when two CRs share an agent ClusterRole name |
| `FinalizerRuns.AllNamesCollide` | internal/controller/ui_reconciler.go:185-192 | and exactly then every other cluster-scoped name |
| `FinalizerRuns.CollisionSplitsOwnership` | internal/controller/ui_reconciler.go:453-479 | on a collision some objects change owner and the auth-delegator binding and OAuthClient do not |
| `FeatureToggles.Cluster.Ensure` | internal/controller/mcp_reconciler.go:125-133 | creates, adopts or refreshes one object, refusing another controller's |
| `FeatureToggles.Cluster.DeleteOwned` | internal/controller/remove_helpers.go:18-33 | deletes one object only if this CR owns it |
| `FeatureToggles.WantedBySwitch` | internal/controller/temporal_reconciler.go:77-100 | which objects hang on which switches |
| `FeatureToggles.RefusedIff` | internal/controller/mcp_reconciler.go:125-133 | exactly which objects are refused as another controller's |
| `FeatureToggles.Cluster.ReconcileMCP` | internal/controller/mcp_reconciler.go:81-118 | all seven objects, permissions and ConfigMap before the Deployment; an error only after a failed call or a refusal |
| `FeatureToggles.Cluster.ReconcileFeatures` | internal/controller/openshiftpulse_controller.go:128-217 | one pass over all features, complete or broken off at any call, and only by a failed call or a refusal |
| `FeatureToggles.CompletedPassLeavesExactly` | internal/controller/mcp_reconciler.go:467-489 | in any cluster a completed pass leaves what is wanted and what was not this CR's to delete, nothing else |
| `FeatureToggles.NothingForeignIsDeleted` | internal/controller/remove_helpers.go:15-33 | no pass, broken off or not, deletes what this CR does not control |
| `FeatureToggles.SecondPassChangesNothing` | internal/controller/render_reconciler.go:119-138 | after a completed pass another changes nothing |
| `FeatureToggles.FeaturesConverge` | internal/controller/temporal_reconciler.go:361-390 | after any settings and broken passes, a completed pass leaves exactly what its settings ask for |
| `FeatureToggles.OnThenOffDeletesIff` | internal/controller/remove_helpers.go:15-53 | exactly which foreign objects switching on and off deletes: all but the render token and the MCP Service |
| `FeatureToggles.ForeignObjectEndsGoneIff` | internal/controller/mcp_reconciler.go:186-192 | the same over whole runs of completed passes |
| `FeatureToggles.AnothersClusterRoleIsDeleted` | internal/controller/mcp_reconciler.go:186-192 | an MCP ClusterRole stamped with another CR's UID is taken over, then deleted; nothing refuses |
| `PgCredentials.MigrationKeepsThePassword` | internal/controller/postgresql_reconciler.go:185-198 | renaming the legacy keys keeps the password and every other key |
| `PgCredentials.ReadsUpToFirstDelimiter` | internal/controller/postgresql_reconciler.go:117-117 | what a URL reader gets of any password |
| `PgCredentials.UrlReadsBackIff` | internal/controller/postgresql_reconciler.go:117-117 | exactly which passwords come back: those without a slash, ?, #, @ or percent sign |
| `PgCredentials.UrlNamesTheServer` | internal/controller/postgresql_reconciler.go:117-117 | for such a password the URL also names the user and database of a generated Secret, and the Service |
| `PgCredentials.Namespace.ReconcilePGSecret` | internal/controller/postgresql_reconciler.go:170-225 | an existing Secret is kept or migrated, a missing one created; the password returned is the stored one |
| `PgCredentials.Namespace.ReconcilePostgres` | internal/controller/postgresql_reconciler.go:65-151 | when it completes the connection Secret's URL carries the stored password; other keys are kept |
| `PgCredentials.Namespace.DeletePGDataOnRequest` | internal/controller/postgresql_reconciler.go:664-685 | at most Secret and volume go, and only with the annotation; success means both are gone |
| `PgPairRuns.PasswordNeverChanges` | internal/controller/postgresql_reconciler.go:153-169 | over any run in which no pass reads delete-data the password never changes, CR deletion and recreation included |
| `PgPairRuns.StepKeepsPair` | internal/controller/openshiftpulse_controller.go:57-83 | exactly which of the interleaved steps part data and password or set out to: a revocation under a pass that read delete-data, one half way through the teardown, a pass that goes by an old version |
| `PgPairRuns.PairCanBreakIff` | internal/controller/postgresql_reconciler.go:651-685 | and exactly after those, some continuation ends with a living CR whose Secret has another password than its data |
| `PgPairRuns.PairSurvives` | internal/controller/postgresql_reconciler.go:651-685 | over any run without such a step they stay a pair |
| `PgPairRuns.TeardownIsComplete` | internal/controller/openshiftpulse_controller.go:57-83 | a CR with delete-data that held the finalizer goes only after Secret and volume; one that never held it tears nothing down |
| `PgPairRuns.TeardownIsAlwaysComplete` | internal/controller/openshiftpulse_controller.go:57-83 | the former over every run, whatever versions passes read and however they break off |
| `PgPairRuns.RevokedTeardownLosesThePassword` | internal/controller/postgresql_reconciler.go:664-685 | delete-data taken back between two passes, the Secret already deleted |
| `PgPairRuns.RevokedUnderAPassLosesThePassword` | internal/controller/openshiftpulse_controller.go:48-74 | taken back with Secret and volume whole, under a pass that read it |
| `PgPairRuns.OldVersionLosesThePassword` | internal/controller/openshiftpulse_controller.go:48-74 | taken back before a pass that still reads the old version |
| `SecretHash.HashSecretData` | internal/controller/postgresql_reconciler.go:510-524 | the bytes hashed are the stream of the data in key order |
| `SecretHash.StreamIsUnique` | internal/controller/postgresql_reconciler.go:509-524 | the stream does not depend on map order |
| `SecretHash.StreamDeterminesData` | internal/controller/postgresql_reconciler.go:509-524 | without NULs in the data the stream determines it |
| `SecretHash.NulCanImitateAKey` | internal/controller/postgresql_reconciler.go:518-521 | with one it does not |
| `PgStatefulSet.GuardKeepsMajorIff` | internal/controller/postgresql_reconciler.go:542-556 | exactly when the guard keeps the major version, and that guarding twice changes nothing |
| `PgStatefulSet.MajorVersionIs` | internal/controller/postgresql_reconciler.go:526-540 | the major version is the number in the first place where postgres, ql or not, a dash or colon and digits stand |
| `PgStatefulSet.NoneIsUnrecognised` | internal/controller/postgresql_reconciler.go:530-534 | and 0 where they stand nowhere |
| `PgStatefulSet.Database.CreateOrUpdate` | internal/controller/postgresql_reconciler.go:332-471 | creates everything, updates only labels, owner and a drifted template, refuses another controller's, writes only a change |
| `PgStatefulSet.Database.ReconcilePGStatefulSet` | internal/controller/postgresql_reconciler.go:261-482 | StatefulSet, volume, outcome and number of writes of a pass, with failing calls and, exactly, without |
| `PgStatefulSet.RemovedIff` | internal/controller/postgresql_reconciler.go:305-326 | exactly which StatefulSets a pass removes |
| `PgStatefulSet.CreatedAsAsked` | internal/controller/postgresql_reconciler.go:345-370 | a new one has one replica, the size and class asked for, and the headless Service |
| `PgStatefulSet.UpdateLeaves` | internal/controller/postgresql_reconciler.go:335-407 | what a written update has in every field |
| `PgStatefulSet.LabelsTellCrsApart` | internal/controller/postgresql_reconciler.go:641-649 | the labels agree only for one CR |
| `PgStatefulSet.TemplateRewrittenIffDrifted` | internal/controller/postgresql_reconciler.go:387-407 | the pod template is rewritten exactly when image, template version or credential hash drifted |
| `PgStatefulSet.SecondPassWritesNothing` | internal/controller/postgresql_reconciler.go:377-392 | after a completed pass the same pass has nothing to write to the StatefulSet, and nothing to the volume claim exactly when the resize was accepted |
| `PgStatefulSet.UnreadableSecretRestartsTheDatabase` | internal/controller/postgresql_reconciler.go:499-507 | a settled template is rewritten when the Secret cannot be read |
| `PgStatefulSet.PassMayChangeMajorIff` | internal/controller/postgresql_reconciler.go:296-336 | for a StatefulSet that lives through the pass: exactly when some way the pass can end leaves another major version |
| `PgStatefulSet.ImmutablesNeverChange` | internal/controller/postgresql_reconciler.go:340-370 | selector, service name and claim templates stay while the StatefulSet lives |
| `PgStatefulSet.VolumeNeverShrinks` | internal/controller/postgresql_reconciler.go:558-588 | the volume request never decreases while the volume lives |
| `PgStatefulSet.MajorNeverChanges` | internal/controller/postgresql_reconciler.go:542-556 | with recognised images and successful reads the major version never changes |
| `PgStatefulSet.UnrecognisedImageLetsTheMajorChange` | internal/controller/postgresql_reconciler.go:547-551 | by way of an unrecognised image two passes change it, from any version to any other |
| `PgStatefulSet.FailedReadLetsTheMajorChange` | internal/controller/postgresql_reconciler.go:296-330 | so does one pass whose first read fails |
| `PgDataMajor.PassMisfitsIff` | internal/controller/postgresql_reconciler.go:296-345 | exactly which passes put a server of another major version than the data's on the volume |
| `PgDataMajor.MayMisfitDoes` | internal/controller/postgresql_reconciler.go:547-556 | every pass that may do so can |
| `PgDataMajor.DataMajorIsKeptIff` | internal/controller/postgresql_reconciler.go:542-556 | over whole runs, StatefulSets lost and made again, exactly when the server always fits the data |
| `PgDataMajor.MigrationStartsAnotherMajor` | internal/controller/postgresql_reconciler.go:318-331 | two passes with recognised images and successful reads that end in a misfit |
| `Json.StringRoundTrip` | internal/controller/helm_runner.go:121-131 | every string json.Marshal writes is read back exactly |
| `Json.ValueRoundTrip` | internal/controller/helm_runner.go:103-131 | every object it writes is read back exactly, at any depth |
| `ConfigJs.ServedIff` | internal/controller/helm_runner.go:132-143 | exactly the images served: those without a character JSON escapes, quote or dollar sign |
| `ConfigJs.ServableIff` | internal/controller/helm_runner.go:139-141 | those characters, listed |
| `ConfigJs.BodyIsAlwaysSafe` | internal/controller/helm_runner.go:115-140 | no body has a single quote, a backslash or a dollar sign |
| `ConfigJs.ImageRoundTrip` | internal/controller/helm_runner.go:121-137 | for every image nginx and the browser get exactly that image or the empty config |
| `ConfigJs.PinnedIsServable` | internal/controller/helm_runner.go:39-46 | every image the pattern accepts is served |
| `ConfigJs.PinnedIff` | internal/controller/helm_runner.go:39-46 | the pattern: repository, @sha256: and 64 digits |
| `ConfigJs.UiRunsTheChosenImageOrNone` | internal/controller/helm_runner.go:57-90 | the UI gets the CR's image, else the release's, or none; a refused CR value is not replaced |
| `Toml.StringRoundTrip` | internal/controller/mcp_reconciler.go:398-401 | each quoted string is read back exactly, or refused exactly when it has such a character |
| `Toml.ItemsRoundTrip` | internal/controller/mcp_reconciler.go:402-403 | the joined array is read back item by item |
| `Strings.SplitThenJoin` | internal/controller/mcp_reconciler.go:397-397 | the pieces are comma-free and join to the string |
| `Strings.JoinThenSplit` | internal/controller/mcp_reconciler.go:397-397 | which determines them |
| `McpConfig.TrimSpaceTakesTheEnds` | internal/controller/mcp_reconciler.go:398-398 | only spaces are trimmed, from both ends, until neither end is one |
| `McpConfig.BuildMCPConfigTOML` | internal/controller/mcp_reconciler.go:391-404 | the file, and that reading it gives port and toolsets |
| `McpConfig.PieceByPiece` | internal/controller/mcp_reconciler.go:397-401 | each piece gives its trimmed text or, of spaces only, nothing; none is dropped, repeated or moved |
| `McpConfig.ToolsetsOfPieces` | internal/controller/mcp_reconciler.go:392-401 | a setting joined from pieces stands for those; an empty one for the default |
| `McpConfig.ConfigRoundTrip` | internal/controller/mcp_reconciler.go:381-404 | for every list of names the file is read back exactly, or is unreadable exactly when a name has a control character TOML has no such escape for |
| `McpConfig.PrintableAsciiComesBack` | internal/controller/mcp_reconciler.go:391-404 | printable ASCII always comes back |
| `McpConfig.BellSpoilsTheFile` | internal/controller/mcp_reconciler.go:398-401 | a name with a bell does not |
| `ReleaseChain.KeyDetermines` | scripts/bump-bundle-version.py:80-81 | a canonical version is the only canonical one with its key |
| `ReleaseChain.KeyOfText` | scripts/bump-bundle-version.py:80-81 | the key of X.Y.Z is those numbers in that order |
| `ReleaseChain.CanonicalIsText` | scripts/bump-bundle-version.py:73-81 | every canonical version is such a text |
| `ReleaseChain.OrderOfTexts` | scripts/bump-bundle-version.py:80-92 | a higher major beats any minor and patch, a higher minor any patch |
| `Decimal.PrintedReadsBack` | scripts/bump-bundle-version.py:81-81 | a printed number reads back as itself |
| `ReleaseChain.ReleasedIff` | scripts/bump-bundle-version.py:60-77 | the released versions are exactly the tags of that form |
| `ReleaseChain.ReleasedMeansTagged` | scripts/bump-bundle-version.py:70-77 | a version is released exactly when a tag is it with any number of v's before it |
| `ReleaseChain.PreviousRelease` | scripts/bump-bundle-version.py:84-93 | a highest release strictly below, or none |
| `ReleaseChain.PreviousOnNumbers` | scripts/bump-bundle-version.py:84-93 | on numbers: of the releases before, the one none of them comes after |
| `ReleaseChain.PrintChain` | scripts/bump-bundle-version.py:160-167 | every release up to the version, and the version, in key order |
| `ReleaseChain.ChainIsStrict` | scripts/bump-bundle-version.py:160-167 | canonical tags give a strictly increasing chain that ends at the version |
| `ReleaseChain.EachReplacesTheOneBefore` | scripts/bump-bundle-version.py:84-93 | along the chain each release replaces exactly the one before it |
| `ReleaseChain.HighestIffChainHasAll` | scripts/bump-bundle-version.py:155-158 | is-highest exactly when the chain leaves no released version out |
| `ReleaseChain.HighestOnNumbers` | scripts/bump-bundle-version.py:155-158 | on numbers: true exactly when no release comes after |
| `ReleaseChain.ChainEndsAtVersionIff` | scripts/bump-bundle-version.py:160-167 | exactly when every order of ties leaves the version last |
| `ReleaseChain.LeadingZeroKeepsTheKey` | scripts/bump-bundle-version.py:73-81 | every version has another spelling the script accepts |
| `LatestRuns.LatestNeverGoesDown` | README.md:835-837 | over runs and tags in any order :latest never goes down while every list read reaches up to it |
| `LatestRuns.ListIsSafeIff` | scripts/bump-bundle-version.py:155-158 | exactly which lists of tags never let :latest go down, whichever published version's run reads them: those that reach up to it |
| `LatestRuns.FailedFetchLowersLatest` | scripts/bump-bundle-version.py:67-69 | one failed fetch is enough |
| `TokenRotation.Cluster.Patch` | scripts/cluster-acceptance.py:389-400 | all or nothing, and what a lost request or answer leaves |
| `TokenRotation.Cluster.Rotate` | scripts/cluster-acceptance.py:402-470 | it replaces only the token it read or its own; exactly when it rotates, restores, reports, and leaves its token |
| `TokenRotation.Wait` | scripts/cluster-acceptance.py:78-86 | found exactly when some look says yes with the deadline not passed before it; the time spent is that of the looks and sleeps it took; at most timeout over poll looks, and one |

## Left out

- Events, metrics and logs, and the messages, transition times and observed generations of conditions.
- The Kubernetes client, watches and caches; a read is a step that may fail or, for Deployments, return any past state. Passes for the operator's CRs run one at a time and read their own writes to other objects.
- One clock reading per pass stands for the several `time.Now()` calls of a sync; times are whole nanoseconds, stored as whole seconds.
- Semver comparison (the compatibility gate is a boolean input) and `resource.Quantity` parsing (a size is an integer or unparsable).
- SHA-256 and randomness: `SecretHash` stops at the bytes hashed; passwords and tokens are inputs.
- Invalid UTF-8: strings are sequences of Unicode characters, as everything read from the API server is.
- `unicode.IsPrint` outside ASCII is an arbitrary predicate in `Toml` and `McpConfig`.
- The literal parts of objects (RBAC rules, container specs, probes, nginx text outside `/config.js`); a body is one value.
- Immutable fields of adopted objects, such as a Deployment's selector: the API server's refusal is one more failing call.
- Fields others set on a Deployment or Service that CreateOrUpdate leaves alone, and RoleRefs, which are set on creation only.
- Finalizers of other controllers on single objects, such as the protection of a volume claim in use; `PgPairRuns` counts a deletion as done when the API server accepted it.
- ReconcilePass.Installation.Reconcile: of the objects besides the StatefulSet, the agent's Deployment, the Route and the features' only the controllers count, stage by stage; a failing API call is not among its outcomes.
- The StatefulSet's status, its pods, and the deletion of a stale Pending pod-0.
- Route fields besides drift, admission and presence; the OAuthClient's contents; cookie secrets.
- A StatefulSet that changes between the two reads of one pass.
- `toggle`, `probe` and the other checks of the acceptance runner; only the rotation and the wait are modelled. A predicate that raises ends a wait early.
- `--replaces`, the CSV text substitutions, and `git` itself; a run's list of tags is an input.
- One image stands for the three whose `:latest` tag a release moves.
- White space between JSON tokens, which the operator writes none of, and TOML beyond comments, bare keys, basic strings and one-line arrays of them.
- The switch that turns admission off, and a failing list of CRs, which only ends the pass.
- `diagnosePod`, version skew, image defaults from the environment, pod disruption budgets, network policies, monitoring, resource metrics and cluster detection: short lookups or fixed tables. Disabling monitoring removes nothing.
- TokenRotation.Cluster.Rotate: what the two waits and readiness checks find is an input, since only whether they raise matters here.
- PulseStatus.OpenShiftPulse.ReportPodProblems: what is wrong with the pods, or that they cannot be listed, is an input.
- A pass that still reads a CR that is already gone: it can only repeat the deletions of that CR's last version, which have all been made.
