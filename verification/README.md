# Resource Portal: verified model of the API core

The Resource Portal API lets tenants edit a draft of an App Group (apps, variables, configs,
secrets, volumes, HTTP endpoints, domains), deploy it as an immutable configuration, roll it back
or discard it. Around that sit a session refresh protocol, a reconcile lane, quota admission,
a manifest import, minute billing and one-time proofs for federated logins. This project models
that core and proves what it keeps.

The services keep no state of their own: every request works on database tables inside a
transaction. A transaction is therefore a local copy of the tables that replaces them when it
commits and is dropped when it throws. Code that the source writes as loops and statements is
written as methods here and proved equal to a specification function; the results are lemmas about
those functions and about all runs built from them. A request reads some rows before its
transaction starts; the draft model keeps these reads apart (`seen`) from the tables that the
transaction finds (`db`).

| files | subject |
|---|---|
| `Prelude` | results and options |
| `Tables` | the rows of all groups, the database constraints, the deployed configuration, the content that a deployment would run |
| `RestorePlan`, `Discard` | the restore plan and the discard transaction |
| `RoundTrip`, `DiscardTheorems` | discard restores the deployed configuration |
| `OtherGroups`, `DiscardSound`, `DiscardExample` | what discard does to other groups |
| `Drafts`, `AppGroups` | the 22 requests that change a draft or the rows it is built from, as functions, and the larger ones also as methods |
| `DraftSteps`, `DraftStamp`, `DraftRequests`, `DraftContent`, `DraftRuns`, `DraftMarker`, `DraftNames`, `DraftExamples`, `MarkerExample` | the draft revision as a version stamp, without and with the names of resources |
| `Deployments`, `Restarts` | deploy, rollback and the operations that exclude them, statement by statement; restart requests |
| `BrowserSessions` | refreshing one browser session from many replicas |
| `Lane` | the reconcile lane |
| `Manifest`, `ManifestRules`, `ManifestText`, `ManifestTheorems` | parsing manifests |
| `ManifestImport`, `ImportSound` | importing manifests, and imports as steps of the runs |
| `Quota` | quota admission under the tenant lock |
| `Billing` | periods, charges and the cost preflight |
| `GpuDiscard` | the GPU part of the base discard |
| `FederationProof` | login proofs |
| `RuntimeDrift` | the drift status |

## Main results

- Discard is a round trip from every draft that descends from the deployed state
  (`DiscardIsARoundTrip`), it keeps the tables sound (`DiscardStaysSound`), and what any other group
  would deploy stays as it was exactly when that group holds none of the domains of the discarded
  configuration (`DiscardKeepsOtherContent`). `DiscardTakesADomain` exhibits tables that meet the
  requirements of all three.
- A request keeps the draft revision a faithful stamp exactly if it is fresh
  (`StampKeptExactlyIfFresh`), and in every run of fresh requests equal revisions mean equal
  contents and the deployed configuration is a function of its source revision, all up to names; with
  names, the exact condition is in `NamedStampKeptExactly`.
- In a run of fresh requests an unmarked draft is always the deployed one, up to names, exactly if every
  committed discard restores what is deployed when it commits (`UnmarkedDraftIsDeployed`).
- Over every interleaving of replicas the stored refresh token has been rotated exactly if a successor
  was lost, a rotated token is presented exactly after a loss or by a replica that outlived its
  transaction and was overtaken, and revocation needs evidence.
- In every reachable state deployments are numbered 1..n, at most one is active and a key names one.
- The lane is late by at most the sum of the other tasks' limits plus one poll interval.
- A manifest is returned exactly if it has no issue, parsing is a fixpoint and loses nothing but an
  environment entry called `__proto__`; the import commits exactly if the tenant admits the
  manifest and it applies, and is closed. Imports are steps of the runs, so all results on runs cover them.
- The import quota check passes exactly if creating the apps one by one, in any order, would.
- Every minute is billed once, without gap, and never in the future; the cost preflight is sound, and right
  about what it stops exactly if a resource grows, per replica or in total.

## Where the code does less than one might expect

Each of these is a lemma here; beside it stands the condition under which the code is right.

- An update of a variable, config or secret, and a change or removal of a domain, decides what to
  mark by rows read before its transaction. If the row was attached or moved in between, the content
  changes and the revision does not (`DraftExamples.StaleUpdateBreaksTheStamp`). Fresh reads suffice
  (`DraftExamples.UpToDateIsFresh`).
- A rename of a variable changes the configuration that would be stored, but not the revision
  (`DraftExamples.RenameChangesTheConfiguration`). `DraftNames.NamedStampKeptExactly` says which
  updates keep the stored configuration, names included, at its revision.
- Discard gives a domain back to its endpoint even if another group holds it by now, without
  marking that group (`DiscardExample.DiscardTakesADomain`).
- Discard restores the configuration that was deployed when it read the group, before its transaction.
  If a deployment of the group ends in between, the draft is the old version and the new one is
  deployed, but the draft counts as unchanged (`MarkerExample.StaleDiscardIsUnmarked`). It is right
  exactly if both configurations are the same or the draft stays marked because the version of a secret
  has changed (`DraftMarker.DiscardTxMarker`).
- A refresh token is lost if the transaction ends between exchange and commit, if it has ended before
  the exchange, or if the response does not arrive (`BrowserSessions.ThreeLossesShown`); nothing
  else loses one (`BrowserSessions.StoredTokenIsTheHonouredOne`).
- An operation on an App Group checks for an active deployment once, and can commit beside one that
  was created after the check (`Deployments.OperationBesideDeployment`), and exactly then
  (`Deployments.OperationCommitsBesideExactly`).
- Changing quota limits does not take the tenant lock, so a limit lowered between check and write is
  exceeded (`Quota.LoweredLimitIsExceeded`); `Quota.CurrentLimitKeptExactly` says when the limit in
  force is kept. An import without apps is refused when a limit is already exceeded.
- A manifest that attaches one source to an app twice is well-formed but never applies: the rows
  collide (`ManifestImport.WellFormedButNeverApplies`). `ManifestImport.ApplyManifest` says exactly
  which manifests apply.
- An environment entry called `__proto__` is dropped without an issue
  (`ManifestTheorems.ProtoEntryIsDropped`).
- The cost preflight can stop an update that costs no more (`Billing.PreflightIsCautious`). It is right
  about an update exactly unless it stops one that takes no more of any resource, per replica and in
  total (`Billing.StoppedIsDearerExactly`), hence always if replicas remain and no more are asked for.
- The base discard releases the device of a deployed GPU app that has a second entry without a GPU in the
  stored configuration (`GpuDiscard.TwoEntriesOfOneApp`), and exactly then
  (`GpuDiscard.HoldersAreDeployedGpuApps`); built configurations list each app once.
- A service that should not run goes unnoticed if another one is expected twice
  (`RuntimeDrift.DuplicateHidesDrift`). A comparison that passes is right exactly if each service is
  expected once (`RuntimeDrift.RightExactlyIfExpectedOnce`); names of apps are unique within a group.

## Model

| member | source | states |
|---|---|---|
| RestorePlan.BuildDiscardRestorePlan | packages/resourceportal-api/src/app-groups/discard-restore.ts:36-144 | The nested loops build, for apps in order, every attachment, endpoint and domain row once, and for each variable or config id the row of its last entry. |
| RestorePlan.CollectAttachments | packages/resourceportal-api/src/app-groups/discard-restore.ts:45-110 | One inner loop: entries of one app add their attachment rows in order, and overwrite the row of their variable or config. |
| RestorePlan.CollectedFromEntries | packages/resourceportal-api/src/app-groups/discard-restore.ts:36-144 | No row of the plan is invented: each is the row of some entry of the snapshot. |
| RestorePlan.EveryIdCollected | packages/resourceportal-api/src/app-groups/discard-restore.ts:36-144 | Every id mentioned by an entry has a row in the plan. |
| RestorePlan.PlanLosesNothing | packages/resourceportal-api/src/app-groups/discard-restore.ts:36-144 | If entries of one id agree, last-write-wins keeps for every id the row that all its entries show, and only one. |
| RoundTrip.PlannedResources | packages/resourceportal-api/src/app-groups/app-groups.service.ts:2482-2583 | Built configurations are coherent: entries of one variable or config id agree, so the plan's rows are exactly the attached rows of the tables. |
| RoundTrip.PlannedEndpoints | packages/resourceportal-api/src/app-groups/app-groups.service.ts:2482-2583 | The planned endpoints are exactly the endpoints of live apps, with their ids and owners. |
| RoundTrip.PlannedDomains | packages/resourceportal-api/src/app-groups/app-groups.service.ts:2482-2583 | Every domain is assigned at most once, to the endpoint that held it when the configuration was built. |
| RoundTrip.UpsertAllFacts | packages/resourceportal-api/src/app-groups/stage3-app-groups.service.ts:361-407 | Upserting the planned rows puts every planned id back with its planned row and leaves every other row. |
| Discard.RestoreResources | packages/resourceportal-api/src/app-groups/stage3-app-groups.service.ts:361-457 | Delete namesakes, upsert rows one by one, re-create attachments: the same outcome as the specified stage, including the first failure. |
| Discard.RestoreHttpEndpoints | packages/resourceportal-api/src/app-groups/stage3-app-groups.service.ts:489-538 | Clear, delete and re-create endpoints, then reassign domains one by one, stopping at the first failure. |
| Discard.UpdateEach | packages/resourceportal-api/src/app-groups/stage3-app-groups.service.ts:196-230 | The loop over the snapshot's apps writes each app's row back, or fails at the first one that is gone. |
| Discard.DiscardDraftChanges | packages/resourceportal-api/src/app-groups/stage3-app-groups.service.ts:196-285 | The body of the transaction, stage after stage, commits or throws as specified by `DiscardTx`. |
| DiscardTheorems.NamesakesFacts | packages/resourceportal-api/src/app-groups/stage3-app-groups.service.ts:361-380 | Only rows of that kind and group go, and none whose id is to be restored. |
| DiscardTheorems.ResourcesHalf | packages/resourceportal-api/src/app-groups/stage3-app-groups.service.ts:361-457 | After both resource stages every attachment of the deployed state is back with its value, and there are no others. |
| DiscardTheorems.DraftRebuilt | packages/resourceportal-api/src/app-groups/stage3-app-groups.service.ts:196-271 | All stages together rebuild the apps, attachments, contents, endpoints and domains of the state the configuration was built from. |
| DiscardTheorems.DriftIsSecretDrift | packages/resourceportal-api/src/app-groups/stage3-app-groups.service.ts:566-599 | The marker left on the draft is true exactly when some deployed secret has another version now. |
| DiscardTheorems.DiscardIsARoundTrip | packages/resourceportal-api/src/app-groups/stage3-app-groups.service.ts:170-304 | If discard commits, the configuration built from the draft is the deployed one up to secret versions, the revision grows by one, no other group row changes, and the draft counts as unchanged exactly when the two configurations are equal. |
| OtherGroups.RowsOutside | packages/resourceportal-api/src/app-groups/stage3-app-groups.service.ts:196-271 | Apps, resources, attachments and endpoints of other groups survive a discard, because restored ids were issued for this group. |
| OtherGroups.DomainsOutside | packages/resourceportal-api/src/app-groups/stage3-app-groups.service.ts:525-538 | Another group holds afterwards exactly the domains it held, except those the configuration had. |
| OtherGroups.DiscardKeepsOtherContent | packages/resourceportal-api/src/app-groups/stage3-app-groups.service.ts:525-538 | What another group would deploy is unchanged exactly when it holds none of the configuration's domains; its revision never changes. |
| DiscardSound.DiscardStaysSound | packages/resourceportal-api/src/app-groups/stage3-app-groups.service.ts:170-304 | A committed discard keeps all constraints and owners, and every id stays with the group or app it was issued for. |
| DiscardExample.DiscardTakesADomain | packages/resourceportal-api/src/app-groups/stage3-app-groups.service.ts:525-538 | Group 1 is deployed, its domain moves to group 2, the draft of group 1 is discarded: what group 2 would deploy changes, its revision does not. |
| DiscardExample.DeployedBefore | packages/resourceportal-api/src/app-groups/stage3-app-groups.service.ts:525-538 | Accepting and finishing that deployment and moving the domain lead from the first tables to those of the discard. |
| AppGroups.Store.UpdateResource | packages/resourceportal-api/src/app-groups/app-groups.service.ts:797-832 | On success only that row differs, with the given name, content or next version, and every stamp is kept exactly if the update is fresh; refused, nothing differs. The tables stay sound. |
| AppGroups.Store.Attach | packages/resourceportal-api/src/app-groups/app-groups.service.ts:1018-1061 | On success there is one new attachment, the revision of the group is one higher and it counts as changed, and every other group keeps its row and content; refused, nothing differs. The tables stay sound. |
| AppGroups.Store.Detach | packages/resourceportal-api/src/app-groups/app-groups.service.ts:1063-1098 | On success exactly that attachment of that app is gone; group, other groups and refusal as for `Attach`. |
| AppGroups.Store.CreateSingleApp | packages/resourceportal-api/src/app-groups/stage11-app-groups.service.ts:43-122 | On success there is one new app under an id never issued before; group, other groups and refusal as for `Attach`. |
| AppGroups.Store.UpdateSingleApp | packages/resourceportal-api/src/app-groups/stage11-app-groups.service.ts:124-233 | On success the app was live and stays live with its specification changed, and no other app differs; group, other groups and refusal as for `Attach`. |
| AppGroups.Store.MarkSingleAppPendingDeletion | packages/resourceportal-api/src/app-groups/app-groups.service.ts:1597-1628 | On success a deployment no longer sees the app and still sees every other; an app already marked is left alone without a change; group, other groups and refusal as for `Attach`. |
| AppGroups.Store.DeleteHttpEndpoint | packages/resourceportal-api/src/app-groups/app-groups.service.ts:1775-1812 | On success the endpoint is gone, no domain points to it, and no other domain differs; group, other groups and refusal as for `Attach`. |
| AppGroups.MarkGroups | packages/resourceportal-api/src/domains/domains.service.ts:673-688 | Marks the listed groups one after the other and throws at the first that is gone. |
| AppGroups.Store.UpdateDomain | packages/resourceportal-api/src/domains/domains.service.ts:334-400 | The loop over the changed groups marks the left and the joined one once; every stamp is kept exactly if the move is fresh; refused, nothing differs. |
| AppGroups.Store.DeleteAppGroup | packages/resourceportal-api/src/app-groups/app-groups.service.ts:392-467 | Succeeds only without an active deployment; then no app of the group is live and the group is stopped; other groups and refusal as for `Attach`. |
| AppGroups.Store.EndDeployment | packages/resourceportal-api/src/internal/deployment-execution.service.ts:1701-1760 | No revision or content changes; the given configuration is deployed, the draft counts as changed exactly after a rollback or an edit since, and apps pending deletion are gone unless the deployment fell back. |
| AppGroups.Store.DiscardDraft | packages/resourceportal-api/src/app-groups/stage3-app-groups.service.ts:170-304 | On success the configuration of the draft is the deployed one up to secret versions, with a truthful marker, and every stamp is kept exactly if no domain was taken; an unchanged draft is left alone; refused, nothing differs. |
| DraftSteps.MarkTouches | packages/resourceportal-api/src/app-groups/app-groups.service.ts:2673-2688 | A change of rows of one group that ends with the mark raises its revision and leaves row and content of every other group. |
| DraftSteps.AttachTouches | packages/resourceportal-api/src/app-groups/app-groups.service.ts:1018-1061 | An attach that commits raises the revision of its group and leaves content, revision and marker of all others. |
| DraftSteps.DetachTouches | packages/resourceportal-api/src/app-groups/app-groups.service.ts:1063-1098 | The same for a detach. |
| DraftSteps.CreateAppTouches | packages/resourceportal-api/src/app-groups/stage11-app-groups.service.ts:43-122 | The same for a new app. |
| DraftSteps.UpdateAppTouches | packages/resourceportal-api/src/app-groups/stage11-app-groups.service.ts:124-233 | The same for a changed app. |
| DraftSteps.MarkForDeletionTouches | packages/resourceportal-api/src/app-groups/app-groups.service.ts:1597-1628 | The same for marking an app for deletion. |
| DraftSteps.SetEnvironmentTouches | packages/resourceportal-api/src/app-groups/app-groups.service.ts:1814-1897 | The same for a new environment of an app. |
| DraftSteps.CreateEndpointTouches | packages/resourceportal-api/src/app-groups/app-groups.service.ts:1685-1724 | The same for a new endpoint. |
| DraftSteps.UpdateEndpointTouches | packages/resourceportal-api/src/app-groups/app-groups.service.ts:1726-1773 | The same for a changed endpoint. |
| DraftSteps.DeleteEndpointTouches | packages/resourceportal-api/src/app-groups/app-groups.service.ts:1775-1812 | The same for a deleted endpoint. |
| DraftSteps.DeleteGroupTouches | packages/resourceportal-api/src/app-groups/app-groups.service.ts:392-467 | The same for deleting a group. |
| DraftSteps.CreateResourceQuiet | packages/resourceportal-api/src/app-groups/app-groups.service.ts:769-795 | A new variable, config or secret changes no content, revision or marker. |
| DraftSteps.DeleteResourceQuiet | packages/resourceportal-api/src/app-groups/app-groups.service.ts:834-846 | Deleting one that nothing uses changes none either. |
| DraftSteps.AcceptQuiet | packages/resourceportal-api/src/app-groups/app-groups.service.ts:527-623 | Accepting a deployment changes no content, revision or marker. |
| DraftSteps.SetAppStateQuiet | packages/resourceportal-api/src/app-groups/app-group-runtime-operations.service.ts:288-365 | Starting or stopping an app changes no content, revision or marker. |
| DraftSteps.ResourceContent | packages/resourceportal-api/src/app-groups/app-groups.service.ts:2482-2583 | A change of one resource changes a group's content exactly if a live app of it uses the resource and it shows something else. |
| DraftStamp.UpdateResourceKeeps | packages/resourceportal-api/src/app-groups/app-groups.service.ts:797-832 | An update keeps every stamp if it marks the group or no deployment sees a difference, and breaks a stamp otherwise. |
| DraftStamp.CreateDomainKeeps | packages/resourceportal-api/src/domains/domains.service.ts:245-332 | Creating a domain at an endpoint always marks the group that gets it. |
| DraftStamp.MoveDomainKeeps | packages/resourceportal-api/src/domains/domains.service.ts:334-400 | Moving a domain keeps every stamp exactly if the group that holds it at that moment is among the marked ones or nothing changes. |
| DraftStamp.DeleteDomainKeeps | packages/resourceportal-api/src/domains/domains.service.ts:402-458 | The same for deleting a domain. |
| DraftStamp.EndKeeps | packages/resourceportal-api/src/internal/deployment-execution.service.ts:1701-1760 | The end of a deployment, successful, rolled back or fallen back, changes no content or revision, and sets the marker exactly for a rollback of either kind or a draft edited meanwhile. |
| DraftStamp.DiscardKeeps | packages/resourceportal-api/src/app-groups/stage3-app-groups.service.ts:170-304 | A discard keeps every stamp exactly if it takes no domain from another group. |
| DraftRequests.StampKeptExactlyIfFresh | packages/resourceportal-api/src/app-groups/app-groups.service.ts:805-822 | For all 22 requests and all earlier reads: every group's stamp is kept exactly if the request is fresh. |
| DraftContent.SameContentSameStack | packages/resourceportal-api/src/app-groups/app-groups.service.ts:2482-2583 | Equal contents give equal configurations, up to runtime states and names of resources. |
| DraftRuns.RevisionIsAVersionStamp | packages/resourceportal-api/src/app-groups/app-groups.service.ts:2673-2688 | In runs of fresh requests and imports a revision never decreases, and equal revisions mean equal contents. |
| DraftRuns.ConfigurationIsAFunctionOfRevision | packages/resourceportal-api/src/app-groups/app-groups.service.ts:536-576 | Two states with the same source revision give the same configuration, up to runtime states and names. |
| DraftNames.SameConfigurationExactly | packages/resourceportal-api/src/app-groups/app-groups.service.ts:2482-2583 | Two states give a group the same stored configuration, up to runtime states, exactly if its content and the names it shows are the same. |
| DraftNames.NamedStampKeptExactly | packages/resourceportal-api/src/app-groups/app-groups.service.ts:805-822 | For all 22 requests and all earlier reads: equal revisions keep meaning equal stored configurations, names included, exactly if the request is fresh and, when it renames, marks the group, is for a secret, is not shown by a live app, or leaves the name. |
| DraftNames.NamedVersionStamp | packages/resourceportal-api/src/app-groups/app-groups.service.ts:2673-2688 | In runs of such requests equal revisions mean equal stored configurations, names included. |
| DraftNames.StoredConfigurationIsAFunctionOfRevision | packages/resourceportal-api/src/app-groups/app-groups.service.ts:536-576 | Then two states with the same source revision give the same stored configuration, up to runtime states only. |
| DraftRuns.AllReachable | packages/resourceportal-api/src/app-groups/app-groups.service.ts:2673-2688 | Every state of a run of any requests and imports, with reads of any age, keeps the constraints, the owners of ids, and a past state for every deployed configuration. |
| DraftRuns.EveryDiscardIsARoundTrip | packages/resourceportal-api/src/app-groups/stage3-app-groups.service.ts:170-304 | In every run, with reads of any age, a discard that commits rebuilds the configuration that was deployed when it read the group, up to secret versions. |
| DraftMarker.UnmarkedDraftIsDeployed | packages/resourceportal-api/src/app-groups/app-groups.service.ts:2673-2688 | In runs of fresh requests and imports: a group that is not marked as changed has the deployed configuration as its draft in every state, up to runtime states and names, exactly if every committed discard of the group restores what is deployed when it commits, or leaves the draft marked. |
| DraftMarker.DiscardTxMarker | packages/resourceportal-api/src/app-groups/stage3-app-groups.service.ts:175-271 | After a committed discard the group is marked or its draft is what is deployed exactly if nothing is deployed, or the configuration it read is the one that is deployed when it commits up to names, or a secret of it has another version. |
| DraftMarker.MarkedByDrift | packages/resourceportal-api/src/app-groups/stage3-app-groups.service.ts:256-271 | The draft stays marked exactly if a secret of the restored configuration had another version already when the transaction began: the discard itself touches no secret. |
| MarkerExample.StaleDiscardIsUnmarked | packages/resourceportal-api/src/app-groups/stage3-app-groups.service.ts:175-271 | A run of six fresh requests in which a discard reads the group while its second version is being deployed, and commits after that ended: the draft is the first version, the second is deployed, and the group counts as unchanged. |
| DraftExamples.UpToDateIsFresh | packages/resourceportal-api/src/app-groups/app-groups.service.ts:797-832 | If what was read before the transaction still holds, every request but a discard is fresh. |
| DraftExamples.StaleUpdateBreaksTheStamp | packages/resourceportal-api/src/app-groups/app-groups.service.ts:797-832 | After a read and an attach that raises the revision, the update by the old read changes the content and not the revision. |
| DraftExamples.RenameChangesTheConfiguration | packages/resourceportal-api/src/app-groups/app-groups.service.ts:797-832 | A rename changes the built configuration and not the revision. |
| Deployments.ReachableDeployments | packages/resourceportal-api/src/app-groups/app-groups.service.ts:541-746 | Versions are 1..n, at most one deployment is active, a key names at most one, a rollback runs what a succeeded deployment ran, any other what the draft was at its revision. |
| Deployments.OneDeploymentPerKey | packages/resourceportal-api/src/app-groups/app-groups.service.ts:2082-2099 | Two calls with one key are never answered with different deployments. |
| Deployments.ReplayChangesNothing | packages/resourceportal-api/src/app-groups/app-groups.service.ts:541-555 | A key that is found is answered with its deployment and changes nothing else. |
| Deployments.OperationMeetsNoDeployment | packages/resourceportal-api/src/app-groups/app-group-runtime-operations.service.ts:388-402 | With check and commit next to each other an operation commits exactly if no deployment is active. |
| Deployments.OperationCommitsBesideExactly | packages/resourceportal-api/src/app-groups/app-group-runtime-operations.service.ts:216-286 | An operation whose check passed commits beside an active deployment exactly if one that was inserted after the check is still active. |
| Deployments.OperationBesideDeployment | packages/resourceportal-api/src/app-groups/app-group-runtime-operations.service.ts:216-286 | With other statements in between it can commit beside an active deployment. |
| Restarts.NoSecondRestart | packages/resourceportal-api/src/app-groups/app-group-runtime-operations.service.ts:138-214 | In every run at most one restart of an app is outstanding. |
| Restarts.RepeatedRestartIsTheSame | packages/resourceportal-api/src/app-groups/app-group-runtime-operations.service.ts:138-214 | A repeated request gets the operation of the first until that is settled, and queues nothing. |
| BrowserSessions.StoredTokenIsTheHonouredOne | packages/resourceportal-api/src/auth/auth-session.service.ts:357-410 | In every run: one replica in the transaction at a time; while none holds a successor the stored token has been rotated exactly if a successor was lost, and otherwise is the honoured one. |
| BrowserSessions.StaleExactly | packages/resourceportal-api/src/auth/auth-session.service.ts:389-391 | A presented token has been rotated before exactly if a successor was lost, or the replica outlived its transaction and another holds or has stored a successor. |
| BrowserSessions.StaleShownExactly | packages/resourceportal-api/src/auth/auth-session.service.ts:371-410 | A run presents a rotated token exactly if some token was presented in one of those two situations. |
| BrowserSessions.LostTokenIsPresentedAgain | packages/resourceportal-api/src/auth/auth-session.service.ts:373-410 | Once a successor was lost, three events of any idle replica present the rotated token. |
| BrowserSessions.ThreeLossesShown | packages/resourceportal-api/src/auth/auth-session.service.ts:373-410 | From a concrete session, each way to lose a successor (transaction ends after the grant, or before the token is presented, or the response is lost) leads there. |
| BrowserSessions.OvertakenShowsStale | packages/resourceportal-api/src/auth/auth-session.service.ts:373-410 | From the same session a replica that outlives its transaction presents a rotated token although no successor was lost. |
| BrowserSessions.RefreshRevokesOnlyOnEvidence | packages/resourceportal-api/src/auth/auth-session.service.ts:422-465 | In every run: a revocation by the refresh path means the row read under the lock was unusable, had no token, or its token, still stored, got `invalid_grant`; transient failures never revoke. |
| BrowserSessions.RotationDisarmsRevocation | packages/resourceportal-api/src/auth/auth-session.service.ts:422-456 | A rotation committed since a replica's first read makes its compare-and-set change nothing. |
| BrowserSessions.CommitStoresNewCipher | packages/resourceportal-api/src/auth/auth-session.service.ts:391-409 | A commit stores a text never stored before that decrypts to the successor, with the new expiry. |
| BrowserSessions.RevocationIsPermanent | packages/resourceportal-api/src/auth/auth-session.service.ts:357-466 | In every run a revocation time and the end of the session never change. |
| BrowserSessions.DeadSessionsStayDead | packages/resourceportal-api/src/auth/auth-session.service.ts:342-351 | A revoked or expired session is unusable in every later state. |
| BrowserSessions.EncodingsAgreeAfterPrune | packages/resourceportal-api/src/auth/auth-session.service.ts:263-301 | After a prune the unrevoked rows are those listed, those that authenticate (for active users), and among federated ones those that block the cut-over. |
| Lane.Check | packages/resourceportal-api/src/worker-reconcile-lane.ts:34-49 | Accepts exactly the lists whose tasks have non-empty, distinct keys and positive intervals. |
| Lane.Turn | packages/resourceportal-api/src/worker-reconcile-lane.ts:51-79 | One task: skipped, or run when due and scheduled anew from when it settled; a stop during the run starts nothing more. |
| Lane.RunReconcileLane | packages/resourceportal-api/src/worker-reconcile-lane.ts:34-83 | Every run was due, runs follow the schedule one at a time, each delay is at most the poll interval plus the other tasks' limits, nothing starts after the stop, and no task is left waiting longer. |
| Lane.RunsAreSpaced | packages/resourceportal-api/src/worker-reconcile-lane.ts:50-83 | Runs do not overlap, and a task starts no sooner than its interval after its last run settled. |
| Lane.MetricsAreExact | packages/resourceportal-api/src/worker-reconcile-lane.ts:56-78 | Missed cycles are the whole intervals in the delay; an overrun is reported exactly for runs of at least an interval. |
| Manifest.RejectUnknown | packages/resourceportal-api/src/app-groups/app-group-manifest.ts:572-579 | One issue for each unknown field, in the order of the fields. |
| Manifest.UniqueBy | packages/resourceportal-api/src/app-groups/app-group-manifest.ts:561-570 | One issue for every item whose key occurred before. |
| Manifest.CheckReferences | packages/resourceportal-api/src/app-groups/app-group-manifest.ts:143-174 | One issue for every attachment to an undeclared source, app by app. |
| Manifest.StringMapLoop | packages/resourceportal-api/src/app-groups/app-group-manifest.ts:546-559 | Keeps the texts under their keys in order, but for the key `__proto__`, which assignment drops without an issue; reports every other value. |
| ManifestText.OnlyCanonicalSurvives | packages/resourceportal-api/src/app-groups/app-group-manifest.ts:586-590 | Decoding and encoding returns exactly the canonical digit strings, so the check accepts canonical base64 only. |
| ManifestText.DecodeEncode | packages/resourceportal-api/src/app-groups/app-group-manifest.ts:586-590 | Bytes of any length come back from their encoding, so no bytes are excluded. |
| ManifestTheorems.ReturnedExactlyWithoutIssues | packages/resourceportal-api/src/app-groups/app-group-manifest.ts:107-198 | A manifest is returned exactly if the issue list is empty, and it satisfies every rule. |
| ManifestTheorems.ValidManifestParses | packages/resourceportal-api/src/app-groups/app-group-manifest.ts:107-198 | Every manifest that satisfies the rules, written as a raw tree, parses to itself without issue. |
| ManifestTheorems.ParsingIsAFixpoint | packages/resourceportal-api/src/app-groups/app-group-manifest.ts:107-198 | A returned manifest, taken as raw input, parses to itself with no issue. |
| ManifestTheorems.NothingIsLost | packages/resourceportal-api/src/app-groups/app-group-manifest.ts:107-198 | Without issues every item of every list, also of command lines and hostnames, is in the manifest in its place, there are no unknown fields, and every environment entry is kept, all of them exactly if none is called `__proto__`. |
| ManifestTheorems.KeptExactly | packages/resourceportal-api/src/app-groups/app-group-manifest.ts:546-559 | The names of the environment are all kept exactly if `__proto__` is not among them; no other is ever dropped. |
| ManifestTheorems.ProtoEntryIsDropped | packages/resourceportal-api/src/app-groups/app-group-manifest.ts:546-559 | An environment with that one entry is read as empty, with no issue. |
| ManifestTheorems.SecretSound | packages/resourceportal-api/src/app-groups/app-group-manifest.ts:230-265 | A secret read without issue satisfies every rule on secrets. |
| ManifestTheorems.AppSound | packages/resourceportal-api/src/app-groups/app-group-manifest.ts:283-364 | An app read without issue satisfies every rule on apps. |
| ManifestTheorems.AppComplete | packages/resourceportal-api/src/app-groups/app-group-manifest.ts:283-364 | Every app that satisfies the rules, written as a raw row, is read back exactly and without issues. |
| ManifestTheorems.ReferencesExact | packages/resourceportal-api/src/app-groups/app-group-manifest.ts:143-174 | The reference pass reports nothing exactly if every link names a declared source. |
| ManifestImport.CreateResources | packages/resourceportal-api/src/app-groups/app-group-manifest.service.ts:182-260 | One new row for each text under a new id, known by its name; all other rows stay. |
| ManifestImport.AttachLinks | packages/resourceportal-api/src/app-groups/app-group-manifest.service.ts:292-324 | The links of one kind are attached exactly if their sources are known and no source repeats. |
| ManifestImport.AttachVolumes | packages/resourceportal-api/src/app-groups/app-group-manifest.service.ts:325-336 | The mounts succeed exactly if every volume exists and none repeats for the app. |
| ManifestImport.TakeDomains | packages/resourceportal-api/src/app-groups/app-group-manifest.service.ts:346-363 | The hosts of an endpoint are taken exactly if they are distinct and all free; only listed domains change. |
| ManifestImport.CreateApp | packages/resourceportal-api/src/app-groups/app-group-manifest.service.ts:261-363 | One app with its attachments, endpoints and hosts, created exactly if all of them fit. |
| ManifestImport.ApplyManifest | packages/resourceportal-api/src/app-groups/app-group-manifest.service.ts:135-408 | The import commits exactly if the quota admits its apps, no group of the tenant has its name, and it applies; then the tables hold everything it lists and the usage has grown by its apps; otherwise nothing changes. |
| ManifestImport.ImportIsClosed | packages/resourceportal-api/src/app-groups/app-group-manifest.service.ts:181-363 | Every new variable, secret or config attachment joins an app and a resource of the same import. |
| ManifestImport.HostsGoWhereNamed | packages/resourceportal-api/src/app-groups/app-group-manifest.service.ts:337-363 | Each listed host was free and goes to exactly the endpoint that names it. |
| ManifestImport.OtherDomainsStay | packages/resourceportal-api/src/app-groups/app-group-manifest.service.ts:337-363 | No unlisted domain changes. |
| ManifestImport.ImportKeepsOtherContent | packages/resourceportal-api/src/app-groups/app-group-manifest.service.ts:135-408 | What any other group would deploy, and its row, stay the same. |
| ManifestImport.WellFormedButNeverApplies | packages/resourceportal-api/src/app-groups/app-group-manifest.service.ts:292-324 | A well-formed manifest that gives an app one variable under two names applies to no tables. |
| ImportSound.ImportStaysSound | packages/resourceportal-api/src/app-groups/app-group-manifest.service.ts:135-408 | A committed import keeps all constraints and owners, and every id stays with what it was issued for. |
| ImportSound.ImportIsAStep | packages/resourceportal-api/src/app-groups/app-group-manifest.service.ts:135-408 | Every committed import adds a group beside the others and marks and changes none of them, as the import steps of the runs do. |
| Quota.UpdatePassesExactly | packages/resourceportal-api/src/app-groups/stage11-app-groups.service.ts:265-327 | An update passes exactly if each resource stays within its limit or does not grow, so shrinking passes when over the limit. |
| Quota.ImportIsOneByOne | packages/resourceportal-api/src/app-groups/app-group-manifest.service.ts:518-568 | The import check passes exactly if creating its apps one by one in any order would; the import without apps is settled separately, both ways. |
| Quota.AdmittedWriteIsSafe | packages/resourceportal-api/src/app-groups/stage11-app-groups.service.ts:57-115 | In every interleaving of requests, an admitted write leaves each resource within the limit read under the lock, or no higher than before. |
| Quota.CurrentLimitKeptExactly | packages/resourceportal-api/src/app-groups/stage11-app-groups.service.ts:235-327 | In every run the write of an admitted request keeps to the limits in force exactly if its check, asked again of them and the rows at the write, still passes; of new apps only the resources they ask for count. |
| Quota.RaisedLimitsAreKept | packages/resourceportal-api/src/app-groups/stage11-app-groups.service.ts:235-265 | In particular it does if the limits in force are no lower than those read under the lock. |
| Quota.LoweredLimitIsExceeded | packages/resourceportal-api/src/app-groups/stage11-app-groups.service.ts:235-265 | A limit lowered between check and write is exceeded: changing limits takes no lock. |
| Billing.ReconciliationPeriods | packages/resourceportal-api/src/billing/billing-worker.logic.ts:26-54 | The loop returns the specified periods: from the last billed end, oldest first, at most the limit, never past the closed minute. |
| Billing.BilledWithoutGap | packages/resourceportal-api/src/billing/billing-worker.logic.ts:26-54 | After any sequence of runs, at any moments and with any limits, the billed periods are consecutive minutes from the start. |
| Billing.NothingInTheFuture | packages/resourceportal-api/src/billing/billing-math.ts:79-84 | No run bills a period that ends after the closed minute. |
| Billing.NothingBilledAhead | packages/resourceportal-api/src/billing/billing-worker.logic.ts:26-54 | Nothing that any number of runs has billed ends after the latest of them. |
| Billing.FirstRun | packages/resourceportal-api/src/billing/billing-worker.logic.ts:34-40 | The very first run bills the closed minute, whatever the limit. |
| Billing.RepeatedRuns | packages/resourceportal-api/src/billing/billing-worker.service.ts:67-100 | After `count` runs at one moment exactly the smaller of `count` times the limit and all whole minutes are billed. |
| Billing.CaughtUpExactly | packages/resourceportal-api/src/billing/billing-worker.logic.ts:42-53 | All is billed exactly when the runs times the limit cover the gap, and then the result does not depend on the limit. |
| Billing.EachMinuteOnce | packages/resourceportal-api/src/billing/billing-usage.service.ts:35-68 | Billing a resource and minute again, by another replica or after an interruption, changes neither ledger nor balance. |
| Billing.LeftAfterCharges | packages/resourceportal-api/src/billing/billing-math.ts:71-77 | Charging any costs leaves the balance minus the sum of the positive ones, or zero; never less. |
| Billing.OrderDoesNotMatter | packages/resourceportal-api/src/billing/billing-math.ts:71-77 | Any order of the same costs leaves the same balance. |
| Billing.PreflightIsSound | packages/resourceportal-api/src/billing/billing-preflight.ts:17-43 | An update that passes never makes a minute dearer, for all prices, replica counts and run flags. |
| Billing.NeverDearerExactly | packages/resourceportal-api/src/billing/billing-preflight.ts:17-43 | Over all prices, running replicas and run flags a change of shape never costs more exactly if no replica takes more of any resource and all together do not either, or no replica is wanted any more. |
| Billing.StoppedIsDearerExactly | packages/resourceportal-api/src/billing/billing-preflight.ts:17-43 | The preflight stops an update exactly if it is dearer somewhere, except exactly those that it stops although they take no more in that sense. |
| Billing.ExactUnlessReplicasGrow | packages/resourceportal-api/src/billing/billing-preflight.ts:17-43 | As long as replicas remain and no more are asked for, an update is stopped exactly if it is dearer somewhere. |
| Billing.PreflightIsCautious | packages/resourceportal-api/src/billing/billing-preflight.ts:17-43 | With twice the replicas, each half as large, it stops an update that never costs more. |
| Billing.VolumePreflightIsExact | packages/resourceportal-api/src/billing/billing-preflight.ts:45-50 | For positive prices a resize costs more exactly if the check says so. |
| GpuDiscard.AssertNoDeploymentHistory | packages/resourceportal-api/src/app-groups/nvidia-gpu-draft-discard.ts:9-46 | Passes exactly if every stored configuration is readable and mentions none of the apps. |
| GpuDiscard.AssertNeverAttemptedGpu | packages/resourceportal-api/src/app-groups/nvidia-gpu-draft-discard.ts:48-87 | Passes exactly if each app occurs in the history, all of which is readable, and never with a GPU. |
| GpuDiscard.Observe | packages/resourceportal-api/src/app-groups/nvidia-gpu-draft-discard.ts:57-80 | One configuration adds exactly the claimed apps it mentions to those observed. |
| GpuDiscard.ReleaseGpus | packages/resourceportal-api/src/app-groups/app-groups.service.ts:239-281 | The GPU part commits exactly if the deployed apps still hold their devices and the history justifies every release; it frees exactly those. |
| GpuDiscard.HoldersAreDeployedGpuApps | packages/resourceportal-api/src/app-groups/app-groups.service.ts:239-281 | Afterwards the group's apps that hold a device are those that all their entries give a GPU: exactly the deployed ones with a GPU if and only if no app has an entry with one and an entry without. No other group's device changed. |
| GpuDiscard.ReleasedOnEvidence | packages/resourceportal-api/src/app-groups/app-groups.service.ts:239-281 | A released draft-only app is in no stored deployment; a released deployed app is in some and never with a GPU. |
| GpuDiscard.TwoEntriesOfOneApp | packages/resourceportal-api/src/app-groups/app-groups.service.ts:239-281 | An app with an entry with a GPU and an entry without loses its device. |
| FederationProof.ConsumedAtMostOnce | packages/resourceportal-api/src/auth/federation-proof.service.ts:84-96 | In every interleaving a nonce is consumed at most once, by the provider first recorded, within 600 s. |
| FederationProof.FirstRecordStays | packages/resourceportal-api/src/auth/federation-proof.service.ts:46-64 | The first record of a nonce is never replaced; only its consumption is added. |
| FederationProof.AcceptedMeansUsable | packages/resourceportal-api/src/auth/federation-proof.service.ts:46-64 | A record is accepted exactly if a login of that provider could consume it at that moment. |
| FederationProof.ProviderHasProvenance | packages/resourceportal-api/src/auth/oidc-auth.service.ts:68-107 | A login with a selected provider returns that provider only from the signed claim or a proof it just consumed. |
| FederationProof.NonceServesOneLogin | packages/resourceportal-api/src/auth/oidc-auth.service.ts:85-101 | Of two logins that need one nonce, the second is refused. |
| RuntimeDrift.DeriveStatus | packages/resourceportal-api/src/app-groups/runtime-drift.ts:16-48 | Unknown exactly without observation; InSync exactly if the comparison passes. |
| RuntimeDrift.InSyncMeansTheSameServices | packages/resourceportal-api/src/app-groups/runtime-drift.ts:16-48 | If each service is expected once, whatever is observed, InSync means that every expected service runs as it should, nothing else runs, and no name is observed twice. |
| RuntimeDrift.RightExactlyIfExpectedOnce | packages/resourceportal-api/src/app-groups/runtime-drift.ts:16-48 | For any lists: one that passes really agrees exactly if each service is expected once, and one that agrees passes exactly then. |
| RuntimeDrift.DuplicateHidesDrift | packages/resourceportal-api/src/app-groups/runtime-drift.ts:16-48 | With a name twice among the expected a service that should not run is missed. |
| RuntimeDrift.DigestIsIgnored | packages/resourceportal-api/src/app-groups/runtime-drift.ts:50-52 | A pinned digest makes no difference to the comparison. |

## Left out

- Network attachments, legacy per-app secrets, descriptions, and the TLS and DNS attributes of domains: discard and the stamp do not depend on them.
- Creation, resizing and removal of volumes, group names, and the worker's removal of a deleted group.
- Refusal of sensitive names and of malformed mount targets when something is attached: one-branch checks before the transaction.
- Registry, capacity and quota checks inside the draft requests: quota is modelled on its own in `Quota`, the others are calls into other services.
- Tenants and permissions in the draft model: the tables are those of one tenant.
- All reads that a request makes before its transaction happen at one earlier moment; how much earlier is arbitrary.
- The order of lists sorted by name or creation time: `Tables.Ordered` fixes some order of the unique ids, and nothing depends on which.
- CPU amounts and prices are exact reals; floating point and the 20-digit rounding of decimals are not modelled.
- DraftRuns.ConfigurationIsAFunctionOfRevision: leaves out the names of variables and configs, because a rename does not mark a group; with names the condition and the result are in `DraftNames`.
- DraftMarker.UnmarkedDraftIsDeployed: leaves out the names of variables and configs for the same reason.
- DiscardTheorems.DiscardIsARoundTrip: leaves out secret versions, which discard does not restore; the marker on the draft says exactly whether they differ.
- DiscardTheorems.DiscardIsARoundTrip covers discards that commit; renames that collide on the way make the transaction fail and leave the draft.
- Requests of the App Group service without a method of their own (creating groups, variables, configs and secrets, editing endpoints and environments, setting states, accepting a deployment) are functions in `Drafts` only: their bodies write one or two rows.
- `AppGroups` methods run one transaction each; the interleaving of transactions is in `DraftRuns`, and that of single statements in `Deployments`, `BrowserSessions` and `Quota`.
- Deployments: the worker is an environment that moves a deployment between statuses; its leases, artifacts and rollout are not modelled.
- BrowserSessions: the tokens other than the refresh token, the session cookie and the audit log; encryption is a fresh, invertible sealing.
- Lane.RunReconcileLane: a throwing task is a flag on its run, `onMetric` and `onError` do not throw, and time passes only in task runs and sleeps; steps of the clock, the time spent between statements and late timers are not modelled.
- FederationProof: all replicas and the database read one clock that never goes back; the signed attestation of a record request is not modelled.
- Manifest parsing starts from the decoded tree of values; YAML text, its size limit, and the wording of issues are not modelled.
- ManifestImport: previews, permissions, and a registry that is removed while the import runs.
- Quota: restoring quota by a discard, which takes no quota check.
- Billing: storage charges, which may drive a balance below zero; the choice of the price list in force.
- Billing.PreflightIsSound: covers the compute cost of one app; deployed allocations, by which a running app is billed, are not modelled.
- GpuDiscard: the allocation of devices, and the fields of a stored configuration other than app ids and GPU counts (`decode` is a parameter).
- RuntimeDrift: how services are observed.
