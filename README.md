# MongoDB Atlas instance operator: a Dafny model

This project models the decision logic of the MongoDB Atlas instance
operator. Three Go files form the core:

- The inventory helpers (`pkg/controller/atlasinventory/inventory.go`). They
  turn Atlas projects and clusters into DBaaS database services, translate a
  cluster state into an instance phase, and classify failed Atlas calls.
- The `MongoDBAtlasInstance` reconciler
  (`pkg/controller/atlasinstance/atlasinstance_controller.go`). It validates
  and defaults an instance's parameters, finds or creates its AtlasProject,
  writes the owned AtlasDeployment, and copies the deployment's readiness and
  the Atlas phase into the instance status.
- The AtlasCluster resource (`pkg/api/v1/atlascluster_types.go`). This covers
  its three-armed spec, name resolution, project key, process-argument
  comparison, status update, builders and default clusters.

Kubernetes and Atlas calls are inputs, not actions:

- An `Inventory.AtlasApi` value answers the Atlas calls: the project list,
  project by name, clusters of a project, and cluster by name. Each answer is
  a value or a failed call that carries the HTTP status and the error text.
- An `InstanceController.Observations` value answers the store reads and
  writes of one reconcile pass. A pass returns the new status, a directive
  for the controller runtime and the writes it issues to other objects
  (`Effect`: create project, write child, nudge child, delete project).

One pass is the function `InstanceController.Pass`. The class
`InstanceController.MongoDBAtlasInstance` holds the status fields the Go
code updates in place. Its methods `Reconcile`,
`ReconcileAtlasDeployment` and `SetInstanceStatusWithDeploymentInfo` are
proved to leave exactly the status the functions describe.

Files:

- `wrappers.dfy`: `Option`.
- `text.dfy`: Go's `TrimSpace`, `ToUpper`, `ToLower`, `Contains` and a
  title-casing that stands in for `cases.Title` (see "Left out"). Case
  mapping is ASCII only.
- `workflow.dfy`: `workflow.Result` and its reasons.
- `conditions.dfy`: the condition list as an upsert by type.
- `inventory.dfy`, `atlascluster_types.dfy`, `instance_specs.dfy` (the pure
  constructors of the reconciler) and `instance_controller.dfy` (the status
  machine, the reconcile pass and the instance class).

## Model

| member | source | states |
|---|---|---|
| Inventory.ParsePhase | pkg/controller/atlasinventory/inventory.go:104-121 | Each of Pending, Creating, Updating, Deleting and Deleted comes from exactly its own name. Ready comes from exactly "Ready" or "Idle". Failed never comes out. Every other string gives Unknown. |
| Inventory.PhaseNameInjective | pkg/controller/atlasinventory/inventory.go:104-121 | Phase names are pairwise distinct, and a name reads back as its phase. |
| Inventory.PhaseIsCaseInsensitive | pkg/controller/atlasinventory/inventory.go:82-83 | Lower-casing then title-casing the state before parsing makes the phase depend only on the lower-cased state. So "IDLE", "idle" and "Idle" give Ready, and "CREATING" gives Creating. |
| Inventory.ReasonFromResponse | pkg/controller/atlasinventory/inventory.go:45-56 | Every response gets exactly one of three reasons. AuthenticationError comes exactly from 401. EndpointUnreachable comes exactly from 502 or 503. A nil response or any other status gives BackendError. |
| Inventory.ReportedProvider | pkg/controller/atlasinventory/inventory.go:84-87 | The backing provider is reported when it is set, otherwise the provider. The result is empty only when both are empty. |
| Inventory.GetInstance | pkg/controller/atlasinventory/inventory.go:74-102 | The service ID and name are the cluster's. The info map has exactly the seven keys, each with its source value. The phase key holds the name of the phase parsed from the state. |
| Inventory.InstanceReadyIffIdle | pkg/controller/atlasinventory/inventory.go:82-99 | The reported phase is "Ready" exactly when the lower-cased state is "ready" or "idle". |
| Inventory.FirstsFromShape | pkg/controller/atlasinventory/inventory.go:26-41 | Skipping projects whose ID is in the processed set leaves distinct IDs. The IDs left are all IDs minus the processed ones, and every project left is one of the listed projects. |
| Inventory.ListedAtMostOnce | pkg/controller/atlasinventory/inventory.go:26-41 | Each distinct project ID is listed exactly once, using projects from the list. |
| Inventory.FirstsFromIds | pkg/controller/atlasinventory/inventory.go:26-41 | The IDs left after skipping are exactly the listed IDs minus the processed ones, and every project left is a listed project. |
| Inventory.FirstsFromDistinct | pkg/controller/atlasinventory/inventory.go:26-41 | No two projects left after skipping share an ID. |
| Inventory.InstancesOf | pkg/controller/atlasinventory/inventory.go:37-39 | One service per cluster, in cluster order, each the `GetInstance` of that cluster. |
| Inventory.ListAllFound | pkg/controller/atlasinventory/inventory.go:28-41 | Listing succeeds exactly when every project's cluster list is answered. A failure is the failure of some listed project. |
| Inventory.ListAllStops | pkg/controller/atlasinventory/inventory.go:33-36 | The first failed cluster list ends the walk with that failure. No partial list is kept. |
| Inventory.TerminateFor | pkg/controller/atlasinventory/inventory.go:22-25 | A failed call gives a Terminate result whose message is the error text. |
| Inventory.Report | pkg/controller/atlasinventory/inventory.go:61-70 | The result is OK exactly when the call was answered. An answer is returned as the payload. A failure returns no payload and its Terminate result. |
| Inventory.DiscoverInstances | pkg/controller/atlasinventory/inventory.go:20-43 | A failed project list returns nothing plus a Terminate result. Otherwise the loop returns the services of the clusters of each distinct project in project order, or nothing plus the first failure. |
| Inventory.GetClusterInfo | pkg/controller/atlasinventory/inventory.go:59-71 | OK exactly when both the project lookup and the cluster lookup succeed, with the `GetInstance` of the two. Each failure returns no payload and Terminate for the call that failed. |
| Text.TrimSpace | pkg/controller/atlasinstance/atlasinstance_controller.go:439 | The result has no white space at either end. It is empty exactly when the input is all white space. A trimmed input is returned unchanged. |
| Text.TrimSpaceIdempotent | pkg/controller/atlasinstance/atlasinstance_controller.go:473-477 | Trimming a trimmed value changes nothing. |
| Text.ToUpperKeepsTrimmed | pkg/controller/atlasinstance/atlasinstance_controller.go:449 | Upper-casing a trimmed provider keeps it trimmed. |
| Text.ToUpperIdempotent | pkg/controller/atlasinstance/atlasinstance_controller.go:449 | Upper-casing twice is upper-casing once. |
| Text.LowerOfTitleFrom | pkg/controller/atlasinventory/inventory.go:82-83 | Title-casing only changes case: lower-casing undoes it. |
| Conditions.GetCondition | pkg/controller/atlasinstance/atlasinstance_controller.go:143 | The found condition has the asked type and is in the list. Nothing is found exactly when no condition has that type. |
| Conditions.SetCondition | pkg/controller/atlasinstance/atlasinstance_controller.go:143 | The upserted condition is in the result. The list grows by one exactly when its type was absent, and every condition of another type is kept. |
| Conditions.GetAfterSet | pkg/controller/atlasinstance/atlasinstance_controller.go:143 | After setting a condition, looking up its type finds it. |
| Conditions.GetOtherAfterSet | pkg/controller/atlasinstance/atlasinstance_controller.go:143 | Setting a condition leaves every other type's lookup as it was. |
| Conditions.SetPlacement | pkg/controller/atlasinstance/atlasinstance_controller.go:143 | On a list with unique types, a new type is appended at the end, and an existing type is replaced where it stands. |
| Conditions.SetKeepsUnique | pkg/controller/atlasinstance/atlasinstance_controller.go:143 | Setting a condition keeps the types unique. |
| Conditions.SetOverrides | pkg/controller/atlasinstance/atlasinstance_controller.go:507-516 | Setting two conditions of the same type is the same as setting only the second. |
| AtlasClusterTypes.IsEqual | pkg/api/v1/atlascluster_types.go:273-306 | The field walk returns true exactly when every field set in the spec is set, with the same value, on the other side. |
| AtlasClusterTypes.ArgsAgreeNotSymmetric | pkg/api/v1/atlascluster_types.go:273-306 | An unset spec field agrees with a set one, but not the other way round. |
| AtlasClusterTypes.ArgsAgreeReflexive | pkg/api/v1/atlascluster_types.go:273-306 | Every process-argument spec agrees with itself. |
| AtlasClusterTypes.ZeroArgsAgreeWithAll | pkg/api/v1/atlascluster_types.go:273-306 | A spec that sets no field agrees with every argument list of the same shape. |
| AtlasClusterTypes.AwsAdvancedSpec | pkg/api/v1/atlascluster_types.go:525-553 | A replica set with one replication spec holding one region config: TENANT over the given backing provider and region, priority 7, and electable specs of the given size only. |
| AtlasClusterTypes.LightweightRegion | pkg/api/v1/atlascluster_types.go:602-613 | AWS gives US_EAST_1, AZURE gives US_EAST_2 and GCP gives CENTRAL_US. Any other provider keeps its region. |
| AtlasClusterTypes.LightweightSettings | pkg/api/v1/atlascluster_types.go:598-619 | Size M2, provider TENANT, backing provider the old provider, region from the M2 table. Disk and volume settings are kept. |
| AtlasClusterTypes.LightweightTwiceLosesBackingProvider | pkg/api/v1/atlascluster_types.go:598-619 | A second `Lightweight` records TENANT as the backing provider, so it changes a cluster the first one produced. |
| AtlasClusterTypes.AtlasCluster.NewCluster | pkg/api/v1/atlascluster_types.go:487-500 | A plain cluster named in Atlas as given, size M10, neither advanced nor serverless, with an empty project ref. |
| AtlasClusterTypes.AtlasCluster.NewServerlessInstance | pkg/api/v1/atlascluster_types.go:502-519 | A serverless instance with no plain spec, resolving to the Atlas name, with the given backing provider and region. |
| AtlasClusterTypes.AtlasCluster.NewAwsAdvancedCluster | pkg/api/v1/atlascluster_types.go:521-553 | An advanced cluster resolving to the Atlas name, whose spec is the M5 tenant config on AWS in US_EAST_1. |
| AtlasClusterTypes.AtlasCluster.GetClusterName | pkg/api/v1/atlascluster_types.go:433-451 | The advanced spec's name wins, then the serverless spec's, then the plain spec's. |
| AtlasClusterTypes.AtlasCluster.IsServerless | pkg/api/v1/atlascluster_types.go:444-446 | True exactly when the serverless spec is set. `GetClusterName` consults it after the advanced spec. |
| AtlasClusterTypes.AtlasCluster.IsAdvancedCluster | pkg/api/v1/atlascluster_types.go:449-451 | True exactly when the advanced cluster spec is set. `GetClusterName` consults it first. |
| AtlasClusterTypes.AtlasCluster.AtlasProjectObjectKey | pkg/api/v1/atlascluster_types.go:462-468 | The key name is the project ref's name. The namespace is the ref's when set, and the cluster's own otherwise. |
| AtlasClusterTypes.AtlasCluster.UpdateStatus | pkg/api/v1/atlascluster_types.go:474-483 | The status becomes the new condition list with the object's generation, and then each option is applied in order. |
| AtlasClusterTypes.AtlasCluster.WithName | pkg/api/v1/atlascluster_types.go:555-558 | Only the plain spec's name changes, and a plain cluster then resolves to it. |
| AtlasClusterTypes.AtlasCluster.WithAtlasName | pkg/api/v1/atlascluster_types.go:560-563 | The same single change as `WithName`. |
| AtlasClusterTypes.AtlasCluster.WithProjectName | pkg/api/v1/atlascluster_types.go:565-568 | The project ref becomes the name with no namespace, so the project key falls back to the cluster's namespace. |
| AtlasClusterTypes.AtlasCluster.WithProviderName | pkg/api/v1/atlascluster_types.go:570-573 | Only the provider name changes. |
| AtlasClusterTypes.AtlasCluster.WithRegionName | pkg/api/v1/atlascluster_types.go:575-578 | Only the region changes. |
| AtlasClusterTypes.AtlasCluster.WithBackupScheduleRef | pkg/api/v1/atlascluster_types.go:580-585 | Turns provider backup on and sets the schedule ref. Nothing else changes. |
| AtlasClusterTypes.AtlasCluster.WithInstanceSize | pkg/api/v1/atlascluster_types.go:587-590 | Only the instance size changes. |
| AtlasClusterTypes.AtlasCluster.WithBackingProvider | pkg/api/v1/atlascluster_types.go:591-594 | Only the backing provider changes. |
| AtlasClusterTypes.AtlasCluster.Lightweight | pkg/api/v1/atlascluster_types.go:598-619 | The provider settings become their lightweight form. The rest of the spec is kept. |
| AtlasClusterTypes.DefaultPlainCluster | pkg/api/v1/atlascluster_types.go:621-640 | A fresh plain M10 cluster with the given provider and region, keyed to the project in the given namespace. |
| AtlasClusterTypes.DefaultGCPCluster | pkg/api/v1/atlascluster_types.go:621-626 | The GCP M10 test cluster in EASTERN_US. |
| AtlasClusterTypes.DefaultAWSCluster | pkg/api/v1/atlascluster_types.go:628-633 | The AWS M10 test cluster in US_WEST_2. |
| AtlasClusterTypes.DefaultAzureCluster | pkg/api/v1/atlascluster_types.go:635-640 | The Azure M10 test cluster in EUROPE_NORTH. |
| AtlasClusterTypes.DefaultAwsAdvancedCluster | pkg/api/v1/atlascluster_types.go:642-644 | The advanced test cluster with the M5 AWS tenant config. |
| AtlasClusterTypes.NewDefaultAWSServerlessInstance | pkg/api/v1/atlascluster_types.go:646-648 | The serverless test instance on AWS in US_EAST_1. |
| InstanceSpecs.DefaultRegion | pkg/controller/atlasinstance/atlasinstance_controller.go:455-463 | AWS gives US_EAST_1, GCE gives CENTRAL_US and AZURE gives US_WEST. Any other provider gives the empty region. |
| InstanceSpecs.ProviderOf | pkg/controller/atlasinstance/atlasinstance_controller.go:449-453 | A blank provider gives AWS, otherwise the trimmed, upper-cased provider. The result is never blank, and it is trimmed and upper case. |
| InstanceSpecs.RegionOf | pkg/controller/atlasinstance/atlasinstance_controller.go:454-465 | A blank region gives the provider's default, otherwise the trimmed region. Either way it is trimmed. |
| InstanceSpecs.SizeOf | pkg/controller/atlasinstance/atlasinstance_controller.go:466-477 | A missing or blank size gives M0, otherwise the trimmed size. |
| InstanceSpecs.GetInstanceData | pkg/controller/atlasinstance/atlasinstance_controller.go:438-479 | It fails with "missing clusterName" exactly when the name is blank. It fails with "missing projectName" exactly when the name is set but the project is absent or blank. Otherwise each field is the trimmed or defaulted value. |
| InstanceSpecs.InstanceDataIsTrimmed | pkg/controller/atlasinstance/atlasinstance_controller.go:472-478 | Every field of valid data is trimmed. The names, provider and size are never blank. |
| InstanceSpecs.DeclaredAs | pkg/controller/atlasinstance/atlasinstance_controller.go:444-470 | The spec that declares the data back carries the project and size under their keys. |
| InstanceSpecs.InstanceDataIsNormal | pkg/controller/atlasinstance/atlasinstance_controller.go:438-479 | Declaring the validated data again validates to the same data: the defaults are a normal form. |
| InstanceSpecs.RegionIsNormal | pkg/controller/atlasinstance/atlasinstance_controller.go:454-465 | Defaulting a defaulted region changes nothing. |
| InstanceSpecs.AtlasDeploymentSpec | pkg/controller/atlasinstance/atlasinstance_controller.go:386-410 | M0, M2 and M5 run on TENANT backed by the declared provider. Other sizes run on the declared provider with no backing provider. The name, size, region and project ref are always copied. |
| InstanceSpecs.DeploymentReportsDeclaredProvider | pkg/controller/atlasinstance/atlasinstance_controller.go:386-410 | Whatever the size, the inventory reports the declared provider for the resulting cluster. |
| InstanceSpecs.LightweightIsTenantM2 | pkg/controller/atlasinstance/atlasinstance_controller.go:386-402 | Making a dedicated deployment lightweight equals asking for M2 in the M2 region of its provider. |
| InstanceSpecs.OwnedAtlasDeployment | pkg/controller/atlasinstance/atlasinstance_controller.go:413-436 | The child has the instance's name and namespace, the four owner labels and one owner reference. That reference is controlling, does not block deletion, and names the instance's UID and kind. |
| InstanceSpecs.OwnedChildIsControlled | pkg/controller/atlasinstance/atlasinstance_controller.go:424-433 | The child is controlled by its instance and by no instance with another UID. |
| InstanceSpecs.ProjectForCreation | pkg/controller/atlasinstance/atlasinstance_controller.go:348-373 | A failed secret read is returned as the error. Otherwise the project has a generated name, lives in the inventory's namespace, and carries the creator and instance labels and the keep annotation. It has no owner and uses the inventory's credentials. |
| InstanceSpecs.FindProject | pkg/controller/atlasinstance/atlasinstance_controller.go:287-304 | The result is the first listed project carrying both instance labels, the `Items[0]` of the filtered list. Nothing is found exactly when no listed project carries them. |
| InstanceSpecs.FindProjectAppend | pkg/controller/atlasinstance/atlasinstance_controller.go:299-302 | Projects the query does not select do not change what it finds. |
| InstanceSpecs.CreatedProjectIsFound | pkg/controller/atlasinstance/atlasinstance_controller.go:306-326 | Once the created project is stored, the same query finds it, so no second project is created. |
| InstanceSpecs.CreatedProjectBelongsToItsInstance | pkg/controller/atlasinstance/atlasinstance_controller.go:357-361 | A created project is never selected for an instance with another name or namespace. |
| InstanceController.AfterLookup | pkg/controller/atlasinstance/atlasinstance_controller.go:489-500 | A successful lookup stores the phase from the info map, the service ID and the map without the phase key. A failed lookup gives Pending, no ID and no map. Conditions are untouched. |
| InstanceController.WalkConditions | pkg/controller/atlasinstance/atlasinstance_controller.go:501-520 | The walk over the child's conditions keeps the instance ID and info. It either keeps the phase or makes it Failed, and it raises the changed-in-Atlas flag only on a phase that is not Ready. |
| InstanceController.Decide | pkg/controller/atlasinstance/atlasinstance_controller.go:501-520 | The decision keeps the phase or makes it Failed. Any sync condition it sets has the provider-sync type, and when no DeploymentReady condition was seen before, one is always set. |
| InstanceController.DeploymentInfo | pkg/controller/atlasinstance/atlasinstance_controller.go:488-523 | An OK lookup gives an OK result, with the service ID and the info map without the phase key. A failed lookup gives a failed result, an empty ID, no info, and phase Pending or Failed. A raised flag comes with a phase that is not Ready. |
| InstanceController.WalkIsOneDecision | pkg/controller/atlasinstance/atlasinstance_controller.go:501-523 | However many DeploymentReady conditions the child has, the walk amounts to one phase decision and one upsert of the sync condition, which is always present when nothing was found before. |
| InstanceController.WalkOutcome | pkg/controller/atlasinstance/atlasinstance_controller.go:501-523 | The sync condition is always set. It is True only with phase Ready and no flag. The flag comes only with the changed-in-Atlas condition and a phase that is not Ready. The phase is kept or becomes Failed. The ID and info are untouched. |
| InstanceController.DecisionOutcome | pkg/controller/atlasinstance/atlasinstance_controller.go:501-523 | The same table for the phase decision alone. |
| InstanceController.NoDeploymentReadyMeansWaiting | pkg/controller/atlasinstance/atlasinstance_controller.go:520-522 | With no DeploymentReady condition, the instance reports Pending, "Waiting for cluster creation to start". |
| InstanceController.SkipOtherConditions | pkg/controller/atlasinstance/atlasinstance_controller.go:502-503 | Conditions of other types do not affect the walk. |
| InstanceController.DeploymentReadyTable | pkg/controller/atlasinstance/atlasinstance_controller.go:503-517 | For one DeploymentReady condition: True with Ready gives sync True with reason "Ready". True otherwise gives the changed-in-Atlas report with the flag. Anything else is copied, and a free-cluster refusal makes the phase Failed. |
| InstanceController.DeploymentInfoIdempotent | pkg/controller/atlasinstance/atlasinstance_controller.go:488-524 | With the same remote answers and child conditions, a second status update leaves the status as the first did. |
| InstanceController.InventoryKey | pkg/controller/atlasinstance/atlasinstance_controller.go:133-138 | The inventory is looked up by its declared name, in its declared namespace or else the instance's. |
| InstanceController.ReconcileAtlasProject | pkg/controller/atlasinstance/atlasinstance_controller.go:306-326 | A found project is the first listed one carrying the instance labels, and nothing is created. Otherwise the created project is the prepared one, with the declared project name and the inventory's namespace. A list failure is returned as the error. |
| InstanceController.ProjectStage | pkg/controller/atlasinstance/atlasinstance_controller.go:155-172 | An unresolved project is an error. A project with no condition, or an access-list condition, is pending. A False condition fails the instance. Anything else is ready. |
| InstanceController.ReconcilePrelude | pkg/controller/atlasinstance/atlasinstance_controller.go:132-174 | The inventory is missing exactly when its lookup says not found. A ready project has valid instance data, carries the instance labels and has a condition that is neither False nor the access list's. At most the project creation has been issued. |
| InstanceController.Pass | pkg/controller/atlasinstance/atlasinstance_controller.go:108-175 | A pass requeues exactly when the project is still pending. |
| InstanceController.PassFrom | pkg/controller/atlasinstance/atlasinstance_controller.go:132-175 | After the prelude, the pass requeues exactly on a pending project. A missing inventory or an early error adds no effects, and otherwise the project effects come first. |
| InstanceController.DeploymentPass | pkg/controller/atlasinstance/atlasinstance_controller.go:177-250 | The deployment pass never requeues. It appends at most two effects to those it is given: first the write of the owned child with the spec for the project and data, then a nudge of that child. |
| InstanceController.WalkFromDeploymentReady | pkg/controller/atlasinstance/atlasinstance_controller.go:503-517 | From the one DeploymentReady condition on, the walk takes the branch its status and the phase select, and the later non-DeploymentReady conditions change nothing. |
| InstanceController.ProjectPendingRequeues | pkg/controller/atlasinstance/atlasinstance_controller.go:160-167 | A project that is not ready yet makes the instance Pending and requeues, with no child written and no nudge. |
| InstanceController.ProjectFailureIsCopied | pkg/controller/atlasinstance/atlasinstance_controller.go:168-172 | A failed project's reason and message become the sync condition. The phase is kept, the pass is done, and no child is written. |
| InstanceController.DeploymentPassEffects | pkg/controller/atlasinstance/atlasinstance_controller.go:177-250 | The deployment pass adds to the project effects either nothing, or the write of the owned child, or that write and one nudge. |
| InstanceController.ChildWrittenOnlyWhenReady | pkg/controller/atlasinstance/atlasinstance_controller.go:160-174 | A pass writes the child only against a ready project, and only as the owned deployment with the spec its data asks for. |
| InstanceController.ConflictGuard | pkg/controller/atlasinstance/atlasinstance_controller.go:199-211 | With no child, a phase that is blank, Pending or Unknown, and the cluster known to Atlas, the instance fails with ClusterAlreadyExistsInAtlas and no child is written. |
| InstanceController.DeploymentNudgeOnlyOnFailedLookup | pkg/controller/atlasinstance/atlasinstance_controller.go:238-247 | As written, the child is nudged only when the pass fails and the sync condition reports a phase changed in Atlas. |
| InstanceController.NudgeOnlyOnFailedLookup | pkg/controller/atlasinstance/atlasinstance_controller.go:238-247 | The same, for a whole pass. |
| InstanceController.DeploymentConflictGuard | pkg/controller/atlasinstance/atlasinstance_controller.go:199-211 | A missing child, a phase in the guarded set and a cluster Atlas already knows give phase Failed, a sync condition reporting that the cluster already exists, Done, and no child write. |
| InstanceController.DeploymentPassShort | pkg/controller/atlasinstance/atlasinstance_controller.go:177-235 | A pass that does not read the child back adds no nudge: its effects are those of the project stage, or those and the child write. |
| InstanceController.DeploymentConflictGuardIsOneShot | pkg/controller/atlasinstance/atlasinstance_controller.go:203-213 | As written, the guard writes no child, and the next pass on the same observations writes it. |
| InstanceController.ConflictGuardIsOneShot | pkg/controller/atlasinstance/atlasinstance_controller.go:203-213 | The same, for whole passes. |
| InstanceController.DeploymentConflictGuardHolds | pkg/controller/atlasinstance/atlasinstance_controller.go:203-213 | With the guard kept closed, the failed status is a fixed point of the deployment pass, and no child is written. |
| InstanceController.ConflictGuardHolds | pkg/controller/atlasinstance/atlasinstance_controller.go:203-213 | The same, for whole passes. |
| InstanceController.PhaseChangedInfo | pkg/controller/atlasinstance/atlasinstance_controller.go:488-511 | A successful lookup of a phase that is not Ready, against a DeploymentReady True child, reports the change, raises the flag and returns OK. |
| InstanceController.DeploymentPhaseChange | pkg/controller/atlasinstance/atlasinstance_controller.go:238-249 | In that case the pass is Done and reports the change. Its effects are the child write, followed by a nudge exactly when the policy nudges on a successful lookup. |
| InstanceController.PhaseChangeWithoutNudge | pkg/controller/atlasinstance/atlasinstance_controller.go:238-249 | As written, in that case the change is reported but the child is not nudged. |
| InstanceController.PhaseChangeNudges | pkg/controller/atlasinstance/atlasinstance_controller.go:238-249 | With nudging on every change, the owned child is nudged and the pass is Done. |
| InstanceController.Delete | pkg/controller/atlasinstance/atlasinstance_controller.go:329-344 | A malformed event is ignored. A list error is returned. Otherwise exactly one project is deleted, the one `FindProject` returns (the first carrying the instance labels), with the delete error returned, or nothing happens when no project carries them. |
| InstanceController.CreatedProjectIsDeleted | pkg/controller/atlasinstance/atlasinstance_controller.go:304-344 | When no project carried the instance's labels and `reconcileAtlasProject` created one, a later Delete of the instance, listing the store with that project added, deletes exactly that project and returns the delete error. |
| InstanceController.MongoDBAtlasInstance.constructor | pkg/controller/atlasinstance/atlasinstance_controller.go:113-114 | The object holds the given metadata, spec and status. |
| InstanceController.MongoDBAtlasInstance.SetSyncCondition | pkg/controller/atlasinstance/atlasinstance_controller.go:143 | The provider-sync condition is upserted. Nothing else changes. |
| InstanceController.MongoDBAtlasInstance.SetInstanceStatusWithDeploymentInfo | pkg/controller/atlasinstance/atlasinstance_controller.go:488-524 | The in-place loop with its early returns leaves the status, flag and result of the lookup-then-walk functions. |
| InstanceController.MongoDBAtlasInstance.ReconcileAtlasDeployment | pkg/controller/atlasinstance/atlasinstance_controller.go:177-250 | The method leaves the status and returns the directive and effects of the deployment pass. |
| InstanceController.MongoDBAtlasInstance.Reconcile | pkg/controller/atlasinstance/atlasinstance_controller.go:132-175 | The method leaves the status and returns the directive and effects of one pass. |
| InstanceController.HandleRequest | pkg/controller/atlasinstance/atlasinstance_controller.go:108-175 | An instance deleted since the request was queued ends quietly. A failed read is returned. An existing instance is reconciled in place. |

## Left out

- Kubernetes store calls (`Get`, `List`, `Create`, `CreateOrUpdate`,
  `Delete`) and Atlas HTTP calls are not performed. Their answers are
  inputs (`Observations`, `Inventory.AtlasApi`). `CreateOrUpdate` is a
  single `WriteChild` effect whether it creates or updates.
- The deferred status write at the end of `Reconcile` is not modelled. The
  status left on the instance object is what it would write.
- `annotateAtlasDeployment` stamps the current time on the child. It is
  modelled only as the `NudgeChild` effect, and its own error is ignored,
  as in the source.
- `SetupWithManager`, the event-handler wiring and logging are not modelled.
- `atlas.ReadConnection` and `atlas.Client` are modelled only by whether they
  fail (`connectionError`, `clientError`).
- `AdvancedClusterSpec.AdvancedCluster` and `AtlasClusterSpec.Cluster` are
  JSON copies through a library that is not part of this model.
- `GetStatus` and the scheme registration in `init` have no logic to model.
- The condition helpers (`SetInstanceCondition`, `GetInstanceCondition`) are
  defined outside these files. They are modelled as an upsert by type, with
  no `lastTransitionTime`.
- Condition-type constants defined outside these files (the provider-sync,
  DeploymentReady and IPAccessListReady types) are modelled as distinct
  strings. The provider-sync value is a stand-in.
- `AtlasProject.CheckConditions` is not part of this model. A project's
  checked condition is an input, and a project created in the same pass
  has none.
- The AtlasDeployment spec types are not part of this model. The
  deployment spec reuses the shape of the AtlasCluster spec.
- Unicode case mapping and `cases.Title` are modelled on ASCII letters only.
  White space follows Go's `unicode.IsSpace`.
- Text.TitleFrom: the word breaks of `cases.Title` (the Unicode word-break
  rules) are not modelled. Here every character that is not a letter or a
  digit ends a word, so "a_b" becomes "A_B" and "don't" becomes "Don'T",
  where `cases.Title` gives "A_b" and "Don't". The phase parser does not see
  the difference: every phase name is letters only, and
  `Inventory.PhaseIsCaseInsensitive` shows the phase depends only on the
  lower-cased state name.
- InstanceController.Delete: in the Go handler the log key is built from the
  event object before the type check. For a malformed event that object is a
  nil pointer, and whether building the key panics depends on
  `kube.ObjectKeyFromObject`, which is not part of this model. The model
  ignores a malformed event without error, as the type assertion that
  follows intends.
- Region defaulting follows the code, which spells Google's provider "GCE",
  while `Lightweight` spells it "GCP".
- A Go panic on a nil spec (a cluster with no plain spec, a builder on
  missing provider settings) becomes a precondition.
- InstanceController.WalkOutcome: the flag implies the changed-in-Atlas
  report. The converse is not stated, because a child condition that is
  not True, and carries that same reason and message, is copied without the flag.
- InstanceController.DecisionOutcome: one-directional for the same reason.
- A pass takes a `Policy`. `AsWritten` is the code's behaviour.
  `Corrected` closes the two gaps under "Findings".

## Findings

| source | as written | input that shows it | evidently intended | confidence | as-written member | corrected member |
|---|---|---|---|---|---|---|
| pkg/controller/atlasinstance/atlasinstance_controller.go:203-213 | The already-exists guard fires only for a blank, Pending or Unknown phase, and it sets the phase to Failed itself. | No child, phase Pending, and the cluster already in Atlas: the first pass reports ClusterAlreadyExistsInAtlas, and a second pass on the same observations sees Failed and writes the child for the existing cluster. | Once the conflict has been reported, it stays reported, and no child is written for a cluster the operator did not create. | medium; not executed | InstanceController.ConflictGuardIsOneShot | InstanceController.ConflictGuardHolds |
| pkg/controller/atlasinstance/atlasinstance_controller.go:238-244 | The child is nudged only when the lookup result is not OK, even though the flag means the phase changed in Atlas. | The lookup succeeds with phase Creating while the child reports DeploymentReady True (the DeploymentCreatingChangedInAtlas case of atlasinstance_test.go:271-279): the pass is Done and the child is not nudged. | Nudge the child whenever the phase changed in Atlas, so that it reconciles the change. | low; not executed | InstanceController.PhaseChangeWithoutNudge | InstanceController.PhaseChangeNudges |
