# Kueue operator: a verified model

This project models the hard parts of the Kueue operator for OpenShift and proves what they promise: the
finalizer protocol around its custom resource, the ordered effects of one sync, the rollout fingerprint on the
Deployment, applying objects with and without a cache, the rewriting of Kueue's webhook configurations, the
compilation of the operator's API into Kueue's configuration, and five smaller stateful cores.
`dafny verify dfyconfig.toml` checks all of it.

Code that changes state in the repository is a class or a loop here. Each method is proved equal to a
specification function or relation, and the lemmas are about those.

| file | what it models |
|---|---|
| `FinalizerModel`, `FinalizerSafety`, `FinalizerLost`, `FinalizerRuns` | one worker, its restarts, users, a lagging informer and the API server as a step system; what every run keeps, and a run that breaks the promise; the code of adding and removing as runs of it |
| `ClusterObjects`, `Cleanup`, `CleanupNames`, `CleanupRuns` | what the five clean-up steps list and delete, also by name and against what a sync applies; their loops as runs of the step system |
| `SyncTrace`, `Fingerprint`, `Rollout` | the ordered effects of one sync in which any call may fail; the annotations on the pod template; two rollouts compared |
| `ResourceApply`, `MetadataMerge` | get, merge, update; the cached form; the merging of labels, annotations and owners |
| `Selectors`, `WebhookRewrite` | what label selectors match, merging them, filtering and scoping webhooks |
| `ConfigTranslation`, `DraGates` | device-class mappings, feature gates, names of external frameworks; the remembered DRA flags |
| `ManagerRole` | which CRDs are installed, the cluster roles, and the names written into the manager role |
| `CertWait`, `InformerFactory`, `DeepCopy` | the polling loop, the informer factory, the generated deep copy |
| `ManifestEdits`, `ManifestMirror` | the manifest script: its edits in place, and the files it writes and removes |
| `Strings`, `Options` | helpers |

## Findings

The code does not keep every promise in full. Each of these is proved, with the exact condition.

- The finalizer can be lost. `updateFinalizer` writes the patched object back through the pointer it was given,
  which is the informer's own object, and its patches carry neither uid nor resource version. With an informer
  one event behind and a CR that is deleted and created again, a sync on the old CR strips the new one, and a
  later sync trusts a cached copy and applies objects without the finalizer (`FinalizerCanBeLost`). The exact
  condition: a run in which no sync begins on a misleading copy, one with the finalizer and no deletion mark while
  the server's CR lacks the finalizer, is safe (`FinalizerGuardsCoveredObjects`), and wherever a run gets to such a
  begin it can break the promise in that very sync (`MisledBeginCanBreak`). Runs whose removals all hit the
  incarnation the sync had read never get there (`GuardedRunsAreSafe`).
- Merging selectors keeps the first requirement of each key, so a second exclusion on the same key is lost
  (`SecondExclusionIsLost`). Whether a merge loses something can be checked on the two selectors before it is made:
  `LosesNothing` looks only at the first requirement of each key, and the merge is the conjunction if and only if it
  holds (`MergedMatchesBothIff`).
- A wanted metadata map that both sets and removes a key is never at rest, so it is written on every call
  (`MergeSettlesIff`, `ConflictIsWrittenEveryTime`); nor are owner references that differ about one owner, ask for the
  removal of a readable one, or are unreadable (`MergeSettlesOwnersIff`). One write is enough from every starting
  state, and a skip by the cache is right in every run, if and only if none of this is wanted (`AtMostOneWriteIff`,
  `SkippedIsFixpointIff`). This concerns the functions; the objects the operator wants today ask for none of it.
- `ApplyPriorityLevelConfiguration`, taken as a function, dereferences nil for an annotated, drifted object when it
  or the wanted one has no `limited` block with shares (`CrashesIff`, `CanCrash`). The operator's own asset has one,
  so it takes a server object without.
- If every CRD were an alpha one, the CRD rule of the manager role would be left without names, which in RBAC means
  all names (`CrdRuleCoversInstalledIff`).
- A second run of the manifest script writes nothing if and only if documents that share a path have the same
  text once edited (`SecondRunIff`, `SecondRunOnManifestsIff`); kinds without a name in their path never settle once
  there are two of them (`TwoServiceAccountsNeverSettle`).

## Assumptions

- The API server: deletes of other objects take effect at once, a patch answers with the object it stored, a new
  finalizer is refused on an object that is being deleted, a (name, version) pair names one immutable object, and
  what is stored is what was sent. Only the operator touches its own finalizer, and there is one worker. A
  restarted operator's first list shows the server's current state. Retries inside a call are part of the call's
  outcome.
- The resource cache stores the required object itself, that is, its hash is collision free; so is the hash of
  the fingerprint.
- Go's map order is an input, or an arbitrary choice, wherever the code ranges over a map.
- API types are validated as their patterns say, and asset names are Kubernetes names. A nil map and an empty one
  are the same value. The operator namespace is the default one.
- The validating and the mutating form of the webhook code differ only in the letter of their names.
- A Go slice is a reference to its elements, so two slices that overlap in part are not modelled.

## Model

| member | source | states |
|---|---|---|
| FinalizerSafety.FinalizerGuardsCoveredObjects | pkg/operator/target_config_reconciler.go:425-460 | In every run of user, informer, object and worker steps in which no sync begins on a copy that misleads it, objects the clean-up covers exist only while the CR on the server has the finalizer |
| FinalizerSafety.MisledBeginCanBreak | pkg/operator/target_config_reconciler.go:1038-1040 | The condition is exact: wherever a run gets to such a begin, it has a continuation within that sync that breaks the promise |
| FinalizerSafety.GuardedRunsAreSafe | pkg/operator/target_config_reconciler.go:1030-1097 | If every removal hits the incarnation the sync had read, no sync is ever misled, so the promise and the invariant hold |
| FinalizerSafety.RunKeepsInv | pkg/operator/target_config_reconciler.go:1030-1097 | The invariant of those runs, on copies in the cache, in the worker's hands and on their way |
| FinalizerSafety.NothingReadyInTransit | pkg/operator/target_config_reconciler.go:1030-1089 | After an incarnation's deletion mark was delivered, nothing on its way shows that incarnation or an older one unmarked |
| FinalizerSafety.OnlyRemovalClears | pkg/operator/target_config_reconciler.go:1045-1089 | Only the removal patch takes the finalizer off the CR on the server |
| FinalizerSafety.OnlyAddingSets | pkg/operator/target_config_reconciler.go:1045-1089 | Only the add patch puts the finalizer on the server's CR, and only on one that is there and unmarked |
| FinalizerSafety.GoneMeansReleased | pkg/operator/target_config_reconciler.go:1045-1089 | A CR leaves the server exactly with the step that leaves it marked, or deletes it, with no finalizer of anybody on it |
| FinalizerSafety.RemovalEndsFullCleanup | pkg/operator/target_config_reconciler.go:434-460 | In every run at all, the finalizer goes only in a sync whose five steps succeeded, which applied nothing, and with nothing covered left |
| FinalizerSafety.SyncCanBreakIff | pkg/operator/target_config_reconciler.go:1030-1044 | From a safe state, some continuation of a sync breaks the promise if and only if the cached copy looks ready and the server's CR has no finalizer |
| FinalizerSafety.SyncStaysSafe | pkg/operator/target_config_reconciler.go:425-460 | Any sync started otherwise stays safe, in any interleaving |
| FinalizerLost.FinalizerCanBeLost | pkg/operator/target_config_reconciler.go:1065-1089 | From every initial state there is a run, built step by step, that ends with covered objects and no finalizer |
| FinalizerLost.UndisturbedCleanupFinishes | pkg/operator/target_config_reconciler.go:434-449 | A clean-up whose calls succeed, with the three named objects present, reaches the finalizer removal with nothing covered left |
| FinalizerLost.DeletionSync | pkg/operator/target_config_reconciler.go:1045-1089 | A sync on a finalized, deleted copy takes the finalizer off whatever CR the server now holds and writes that CR into the cache |
| FinalizerLost.AddingSync | pkg/operator/target_config_reconciler.go:1045-1089 | A sync on a copy without the finalizer gives it to the server's CR and writes that CR into the cache |
| FinalizerRuns.AddFinalizerIsRun | pkg/operator/target_config_reconciler.go:1030-1091 | The code of adding, with answers that tell the truth about the server, is a run of the protocol: patched exactly if the cached and the live CR lack the finalizer and the patch gets through, with the same outcome and copy in use |
| FinalizerRuns.RemoveFinalizerIsRun | pkg/operator/target_config_reconciler.go:1030-1097 | The same for removing |
| Cleanup.CleanupSucceedsIff | pkg/operator/target_config_reconciler.go:1099-1330 | No step reports an error if and only if every listing and delete works and the named objects exist; then exactly the uncovered objects are left |
| Cleanup.CleanupTouchesOnlyCovered | pkg/operator/target_config_reconciler.go:1099-1330 | Whatever fails, objects no filter covers are untouched |
| Cleanup.StepsCompose | pkg/operator/target_config_reconciler.go:438-449 | Consecutive steps have the effect and the errors of one pass over their groups |
| Cleanup.GroupFailsAnyway | pkg/operator/target_config_reconciler.go:1099-1330 | A group fails after the earlier ones exactly if it fails on the starting objects |
| Cleanup.Cluster.CleanUp | pkg/operator/target_config_reconciler.go:434-449 | The five steps in order, stopped by the first with an error: the count returned is that of the steps before it, and the objects left are exactly what the groups up to that step's last leave |
| CleanupRuns.CleanUpIsRun | pkg/operator/target_config_reconciler.go:1099-1330 | Whatever calls fail, the five steps are a run of list, delete and next-group steps of the finalizer protocol, which ends with the same objects and the same count, and before the finalizer exactly after all five |
| CleanupRuns.CleanUpRefines | pkg/operator/target_config_reconciler.go:434-449 | The loops on a cluster end where that run ends, and report success exactly when it goes on to the finalizer |
| Cleanup.Cluster.CleanUpGroup | pkg/operator/target_config_reconciler.go:1147-1214 | One group: list, filter, delete each, collect the errors |
| Cleanup.Cluster.CleanUpWebhooks | pkg/operator/target_config_reconciler.go:1147-1214 | Both webhook groups are visited even if the first fails; only webhook configurations with "kueue" in their name go |
| Cleanup.Cluster.CleanUpCertificatesAndIssuers | pkg/operator/target_config_reconciler.go:1216-1259 | The same for certificates and issuers |
| Cleanup.Cluster.CleanUpClusterRoles | pkg/operator/target_config_reconciler.go:1261-1296 | The cluster roles: only names with "kueue", without "kueue-operator" and "openshift.io", and not the two batch roles go |
| Cleanup.Cluster.CleanUpClusterRoleBindings | pkg/operator/target_config_reconciler.go:1298-1330 | The cluster role bindings: only names with "kueue" and without "kueue-operator" go |
| Cleanup.Cluster.CleanUpResources | pkg/operator/target_config_reconciler.go:1099-1145 | The ConfigMap and two Secrets by name; one that is missing counts as an error |
| CleanupNames.CoveredIff | pkg/operator/target_config_reconciler.go:1099-1330 | What the filters cover, on kinds, namespaces and the positions of "kueue", "kueue-operator" and "openshift.io" in names |
| CleanupNames.UnrelatedSurvives | pkg/operator/target_config_reconciler.go:1099-1330 | Whatever fails and wherever the clean-up stops, cluster roles, bindings and webhook configurations without "kueue" in their name, the spared names, other namespaces and all other kinds survive |
| CleanupNames.LaterStepsAreNotStarted | pkg/operator/target_config_reconciler.go:438-449 | After a failed step nothing that a later step looks for is gone |
| CleanupNames.CleanupUndoesSync | pkg/operator/target_config_reconciler.go:434-871 | A clean-up in which every call works takes away everything a sync applies before the Deployment, but for ten kinds and cluster roles that are spared by name |
| SyncTrace.Reconciler.Sync | pkg/operator/target_config_reconciler.go:425-881 | Which calls a sync makes and what each answer leads to: the finalizer is patched exactly if the cached and the live CR lack it; an object of the plan is applied exactly if all calls before its own went well, and its content is what its call returned; a certificate is ready exactly if its wait and all calls before answered ok, and a failed wait fails the sync with nothing but issuer and certificates applied; the Deployment is applied exactly after the whole plan, last and with the fingerprint of it all; with every call working the whole plan and the Deployment are applied; the result is nil exactly under a condition on the answers; a deletion applies nothing, does the five steps up to the first failure and removes the finalizer exactly under a condition on the answers |
| SyncTrace.Reconciler.Manage | pkg/operator/target_config_reconciler.go:462-471 | One call: the object is applied exactly if the call had an effect, with the content it returned; the sync goes on exactly if it answered ok and hashable, and then the annotations are those of exactly the objects applied so far |
| SyncTrace.Reconciler.AddFinalizer | pkg/operator/target_config_reconciler.go:1030-1091 | The patch is sent exactly if the cached CR and, at a second look, the server's lack the finalizer; where the second look finds it the cached copy stays in use without it |
| SyncTrace.LandedAt | pkg/operator/target_config_reconciler.go:462-871 | A list of objects applied one call each: the k-th is there exactly if the calls before went well and its own had an effect, with the content its own call returned |
| SyncTrace.Reconciler.WaitForCertificates | pkg/operator/target_config_reconciler.go:520-539 | Passing it means exactly that the three waits' own answers were ok; a certificate is noted as ready exactly if its own wait's and those before were |
| SyncTrace.Reconciler.ManagePlan | pkg/operator/target_config_reconciler.go:589-871 | The objects between certificates and Deployment are applied in this order, one call each, up to the first call that goes wrong |
| SyncTrace.Reconciler.ManageCustomResources | pkg/operator/target_config_reconciler.go:1865-1913 | The CRDs without an alpha version, in file order, up to the first failure |
| SyncTrace.Reconciler.ManageClusterRoles | pkg/operator/target_config_reconciler.go:1566-1601 | The cluster roles without an aggregation rule, in file order and with the manager role scoped, up to the first failure |
| SyncTrace.Reconciler.ManageNetworkPolicies | pkg/operator/target_config_reconciler.go:1670-1725 | Every network policy, in file order |
| SyncTrace.Reconciler.ManageDeployment | pkg/operator/target_config_reconciler.go:2042-2057 | The pod template gets the asset's annotations overridden by the fingerprint, in any map order, exactly if the call had an effect |
| SyncTrace.Reconciler.CleanUp | pkg/operator/target_config_reconciler.go:434-460 | The deletion branch: the five steps up to the first that fails, and the sync fails exactly then; the finalizer goes exactly when all five returned nil, the copy in use and the server's CR have it, and the patch reached the server |
| SyncTrace.DeploymentEnds | pkg/operator/target_config_reconciler.go:873-881 | A trace that went through the plan and then the Deployment has it last and with the fingerprint of all before |
| Fingerprint.FingerprintIsFaithful | pkg/operator/target_config_reconciler.go:430-432 | Two syncs from one asset give equal template annotations if and only if generation, set of objects and hashed contents are equal |
| Rollout.NoRolloutIffNothingChanged | pkg/operator/target_config_reconciler.go:430-871 | For two syncs' traces from the same assets: the Deployments' template annotations are equal if and only if generation, objects and hashed contents are; the uniqueness this needs is proved of the plan |
| Rollout.RolloutIffAnswersDiffer | pkg/operator/target_config_reconciler.go:430-871 | For two syncs from the same assets: the Deployments' template annotations are equal if and only if the generation, the monitoring flag and what the server returned for each object of the plan are |
| Rollout.CompareSyncs | pkg/operator/target_config_reconciler.go:425-881 | Two syncs, run end to end on their answers, differ in this way |
| Rollout.PlanIsDistinct | pkg/operator/target_config_reconciler.go:462-871 | No two objects of the plan share kind and name, whatever the monitoring flag, for assets with distinct names |
| Rollout.TemplateIsApart | pkg/operator/target_config_reconciler.go:2042-2042 | The asset's own template annotation is none of the fingerprint's |
| Fingerprint.EveryObjectIsHashed | pkg/operator/target_config_reconciler.go:135-142 | With one object per kind and name, each applied object's own hash is there |
| Fingerprint.KeyIsReversible | pkg/operator/target_config_reconciler.go:467-871 | Equal keys have equal kind and name, over all loops that fill the map |
| Fingerprint.KeyIsNotTheClusters | pkg/operator/target_config_reconciler.go:430-432 | No object's key is the generation's |
| Fingerprint.AnnotationsHold | pkg/operator/target_config_reconciler.go:430-871 | The annotations hold the generation, a key for each object and nothing else |
| Fingerprint.AnnotationsRemoveNothing | pkg/operator/target_config_reconciler.go:2042-2042 | No key reads as a removal when merged |
| Fingerprint.DecimalIsInjective | pkg/operator/target_config_reconciler.go:430-432 | Different generations render differently |
| Fingerprint.SharedNameIsLost | pkg/operator/target_config_reconciler.go:826-826 | Of two objects with one kind and name in different namespaces only the later leaves a trace: why the faithfulness needs unique names |
| ResourceApply.ReturnedIsFixpoint | pkg/util/resourceapply/flowcontrol.go:97-132 | From any object (absent, drifted, held), what a call returns is a fixpoint: no later call with the same want, in any map order, writes over it |
| ResourceApply.AtMostOneWrite | pkg/util/resourceapply/flowcontrol.go:97-132 | Any number of calls with one stable want writes at most once, under any hold rule |
| ResourceApply.AtMostOneWriteIff | pkg/util/resourceapply/flowcontrol.go:56-84 | For flow schemas and network policies: at most one write from every starting state and in every map order if and only if the wanted metadata is stable |
| ResourceApply.UnheldIsAsWanted | pkg/util/resourceapply/networking.go:46-74 | After an apply a flow schema or network policy has the wanted spec and settled metadata, whoever changed it before |
| ResourceApply.ConflictIsWrittenEveryTime | pkg/util/resourceapply/networking.go:46-74 | A want that sets and removes one key is written on every call |
| ResourceApply.OutcomeTellsEffect | pkg/util/resourceapply/networking.go:46-74 | A call that fails has changed nothing; one that returns gives what the server now has, and diff says that it overwrote an object |
| ResourceApply.SkippedIsFixpoint | pkg/operator/target_config_reconciler.go:2349-2379 | In every run of applies of whatever wants, with outside writes, failures and stale listers: when the cache says skip for a want with stable metadata, plain apply on the listed object would return it unwritten |
| ResourceApply.SkippedIsFixpointIff | pkg/operator/target_config_reconciler.go:2349-2379 | The condition is exact: every skip of a want, in every run, is right in this sense if and only if the wanted metadata is stable |
| ResourceApply.UnstableWantIsSkipped | pkg/operator/target_config_reconciler.go:2349-2379 | For every want that is not stable, one outside write and one cached apply lead to a skip where plain apply would write |
| ResourceApply.SecondApplyIsSkipped | pkg/operator/target_config_reconciler.go:2349-2379 | Once a cached apply has returned and the lister has caught up, the same apply returns that object again and no failure of the API can stop it |
| ResourceApply.ChangeIsNotSkipped | pkg/operator/target_config_reconciler.go:2349-2379 | Another want, or another version in the lister, is never skipped |
| ResourceApply.CachedRefinesPlain | pkg/operator/target_config_reconciler.go:2584-2613 | With an up-to-date lister the cached and the plain form end in the same server state with the same result, after any run and for any want that is stable or not skipped |
| ResourceApply.UsersSharesAreKept | pkg/util/resourceapply/flowcontrol.go:117-122 | Under the annotation, shares n with n = 0 or want <= n <= 5 are never written over, whatever else has drifted and in any order |
| ResourceApply.OtherDriftIsRepaired | pkg/util/resourceapply/flowcontrol.go:111-132 | Every other readable object that differs gets the wanted spec and the merged metadata, and diff is true |
| ResourceApply.SharesAfterApply | pkg/util/resourceapply/flowcontrol.go:97-132 | After an apply the shares are the wanted ones, or the annotation is set and they are 0 or in [want, 5] |
| ResourceApply.SharesAfterCachedApply | pkg/operator/target_config_reconciler.go:2584-2613 | The same for the cached form in every run of whatever wants, skips included |
| ResourceApply.CrashesIff | pkg/util/resourceapply/flowcontrol.go:111-122 | The exact condition of the nil dereference |
| ResourceApply.CanCrash | pkg/util/resourceapply/flowcontrol.go:117-122 | Such an object, for any want |
| ResourceApply.Client.Apply | pkg/util/resourceapply/networking.go:46-74 | The get, merge, update code has this server effect and outcome, including failing calls |
| ResourceApply.Client.ApplyWithCache | pkg/operator/target_config_reconciler.go:2349-2379 | The wrapper has this effect on server and cache |
| MetadataMerge.MergeMap | vendor/github.com/openshift/library-go/pkg/operator/resource/resourcemerge/object_merger.go:153-181 | The loop computes the merge in the given order and reports a modification exactly if some key was not settled when visited |
| MetadataMerge.UnmodifiedIffSettled | vendor/github.com/openshift/library-go/pkg/operator/resource/resourcemerge/object_merger.go:153-181 | No modification is reported if and only if nothing was left to do, in any order; then the map is unchanged |
| MetadataMerge.MergeSettlesIff | vendor/github.com/openshift/library-go/pkg/operator/resource/resourcemerge/object_merger.go:153-181 | One merge settles every map in every order if and only if no key is both set and removed |
| MetadataMerge.MergeOverrides | vendor/github.com/openshift/library-go/pkg/operator/resource/resourcemerge/object_merger.go:153-181 | Without removals the merge is an override, whatever the order |
| MetadataMerge.MergedKey | vendor/github.com/openshift/library-go/pkg/operator/resource/resourcemerge/object_merger.go:153-181 | One key after the merge, in any order: set if required, gone if required with trailing dashes, otherwise as it was |
| MetadataMerge.CleanKey | vendor/github.com/openshift/library-go/pkg/operator/resource/resourcemerge/object_merger.go:69-83 | A created object has exactly the required keys that do not end in a dash |
| MetadataMerge.MergedOwner | vendor/github.com/openshift/library-go/pkg/operator/resource/resourcemerge/object_merger.go:206-251 | References to owners that are not mentioned stay, and nothing comes in that was not required |
| MetadataMerge.MergeOwnerRefs | vendor/github.com/openshift/library-go/pkg/operator/resource/resourcemerge/object_merger.go:206-251 | The owner loop computes the merged list and reports whether it modified |
| MetadataMerge.MergeSettlesOwnersIff | vendor/github.com/openshift/library-go/pkg/operator/resource/resourcemerge/object_merger.go:206-279 | One merge settles every list of owner references if and only if the required ones agree on each owner, and exactly those that are to stay are readable |
| MetadataMerge.MetaMergeSettlesIff | vendor/github.com/openshift/library-go/pkg/operator/resource/resourcemerge/object_merger.go:17-23 | One merge settles all metadata, in every order, if and only if labels, annotations and owners are stable |
| MetadataMerge.CleanMetaIsSettled | vendor/github.com/openshift/library-go/pkg/operator/resource/resourcemerge/object_merger.go:69-83 | A created object's metadata is settled too |
| Selectors.MergedRequiresOptIn | pkg/webhook/pod_webhook.go:188-238 | Whatever the existing selector, the merged one matches only namespaces that meet the operator's requirement |
| Selectors.MergedMatchesBothIff | pkg/webhook/pod_webhook.go:188-226 | The merged selector matches exactly what both match if and only if LosesNothing, a test of the two selectors' own requirements that can be made before the merge |
| Selectors.MatchesNothingIff | pkg/webhook/pod_webhook.go:188-226 | The merged selector matches nothing if and only if some first requirement cannot be met |
| Selectors.DedupKeepsFirsts | pkg/webhook/pod_webhook.go:203-222 | What is kept is exactly the first requirement of each key |
| Selectors.DistinctKeysLoseNothing | pkg/webhook/pod_webhook.go:188-226 | Pairwise distinct keys, none the operator's, lose nothing |
| Selectors.SecondExclusionIsLost | pkg/webhook/pod_webhook.go:203-222 | Two exclusions on one key: a namespace the existing selector excludes is matched after the merge |
| Selectors.MergeIsIdempotent | pkg/webhook/pod_webhook.go:188-226 | Merging twice is merging once |
| WebhookRewrite.ModifyPodBasedWebhook | pkg/webhook/pod_webhook.go:66-100 | The result is the rewritten list, null exactly for an unregistered name; the input, whose selectors are shared, is unchanged |
| WebhookRewrite.MergeSelectors | pkg/webhook/pod_webhook.go:190-226 | The loops over two expression lists compute the merge; the result is an input or a new object |
| WebhookRewrite.MergeNamespaceSelectors | pkg/webhook/pod_webhook.go:162-185 | Each webhook that is not cluster scoped gets the merged selector, the others stay |
| WebhookRewrite.BuildEnabledFrameworks | pkg/webhook/pod_webhook.go:243-266 | Exactly the listed frameworks, Pod where one needs it, and all core keys, in any map order |
| WebhookRewrite.GetFramework | pkg/webhook/pod_webhook.go:110-130 | Ranging over an injective table in any order finds the one framework of the name's suffix, or panics |
| WebhookRewrite.ParsingUndoesNaming | pkg/webhook/pod_webhook.go:110-130 | Name parsing gives back the suffix of "v" or "m" + suffix + ".kb.io" |
| WebhookRewrite.KeptIsOrderedSelection | pkg/webhook/pod_webhook.go:73-97 | The kept webhooks are the input's, in order |
| WebhookRewrite.KeptAtExactly | pkg/webhook/pod_webhook.go:73-97 | A position is kept if and only if its framework is in the closure |
| WebhookRewrite.MoreFrameworksDropNothing | pkg/webhook/pod_webhook.go:243-266 | Listing more frameworks never drops a webhook |
| WebhookRewrite.CoreIsAlwaysKept | pkg/webhook/pod_webhook.go:258-264 | Core webhooks are kept whatever is listed |
| WebhookRewrite.KeptIffEnabled | pkg/webhook/pod_webhook.go:243-266 | A registered framework's webhook is kept if and only if the framework is listed, or it is Pod and Deployment, StatefulSet or LeaderWorkerSet is, or it is one of Kueue's own four |
| WebhookRewrite.ClusterScopedStay | pkg/webhook/pod_webhook.go:102-185 | The webhooks of cluster queues, resource flavors and cohorts come out as they went in |
| WebhookRewrite.OthersSeeOnlyManaged | pkg/webhook/pod_webhook.go:162-185 | Every other webhook of the result sees only namespaces labelled kueue.openshift.io/managed=true |
| WebhookRewrite.RewritingIsIdempotent | pkg/webhook/pod_webhook.go:66-100 | Rewriting a rewritten configuration changes nothing |
| WebhookRewrite.RewrittenSeesOnlyOptedIn | pkg/webhook/pod_webhook.go:162-238 | A namespace matched by a rewritten webhook that is not cluster scoped carries kueue.openshift.io/managed=true |
| WebhookRewrite.RegisteredIsInjective | pkg/webhook/pod_webhook.go:41-64 | The operator's table gives no suffix to two frameworks |
| ConfigTranslation.CompileConsumableCapacity | pkg/configmap/configmap.go:210-316 | One configuration, one flag: a declared Capacity source is either rendered with the gate on or reported missing, never both; without one, none of the three |
| ConfigTranslation.GateIffCapacityRendered | pkg/configmap/configmap.go:273-316 | The gate is on if and only if the rendered mappings contain a Capacity source |
| ConfigTranslation.DisabledIsEnabledWithoutCapacity | pkg/configmap/configmap.go:210-271 | Rendering with the flag off is rendering with it on less the Capacity sources; order, names and Counter sources stay |
| ConfigTranslation.BuildResources | pkg/configmap/configmap.go:210-271 | Names and device classes are kept; the rendered sources are the Counter ones and, with the flag on, the Capacity ones, in order, each with its kind, name, driver and a selector exactly if there is an expression; nil exactly for no mappings |
| ConfigTranslation.AllAreRendered | pkg/configmap/configmap.go:227-266 | With the flag on and types the API allows, the i-th rendered source says what the i-th declared one says |
| ConfigTranslation.BuildFeatureGates | pkg/configmap/configmap.go:273-316 | Each of the four gates is on exactly under its own condition, and there are no others; nil if none |
| ConfigTranslation.HasSourceOfType | pkg/util/dra_helpers.go:8-24 | True if and only if some mapping has a source of that type, one of the two known |
| ConfigTranslation.MissingConsumableCapacityDependencies | pkg/operator/target_config_reconciler.go:2453-2458 | The dependency is reported exactly for a declared Capacity source with the flag off |
| ConfigTranslation.ExternalNamesAreReversible | pkg/configmap/configmap.go:98-104 | Each rendered "resource.version.group" of valid frameworks splits back into its framework, and equal rendered lists come from equal lists |
| ConfigTranslation.BuildExternalFrameworkList | pkg/configmap/configmap.go:98-104 | The loop renders resource, version and group of each framework in order |
| ConfigTranslation.BuildMultiKueueNames | pkg/configmap/configmap.go:123-135 | Each name uses the discovered kind of exactly its group and version, or the resource |
| ConfigTranslation.ResolveGVRsToKinds | pkg/operator/target_config_reconciler.go:1349-1368 | The lookup table is right for every framework, though later entries may overwrite earlier ones |
| ConfigTranslation.LookupKeyIsInjective | pkg/operator/target_config_reconciler.go:1352-1352 | Valid frameworks with equal lookup keys are equal |
| ConfigTranslation.FirstKindIsFirst | pkg/operator/target_config_reconciler.go:1360-1365 | The kind is that of the first API resource of the name, and none means there is none |
| ConfigTranslation.KindOfIs | pkg/operator/target_config_reconciler.go:1352-1365 | The kind is that of the first resource of the name under "group/version"; none means that discovery failed or lists none |
| DraGates.PartitionableIsLatestVerdict | pkg/operator/target_config_reconciler.go:373-396 | Over any history, the flag is the verdict of the latest successful FeatureGate read, false before any |
| DraGates.ConsumableIffEvidence | pkg/operator/target_config_reconciler.go:366-396 | Over any history, the flag is on if and only if some sync had direct evidence and every one since was undecided |
| DraGates.Reconciler.CheckGates | pkg/operator/target_config_reconciler.go:366-396 | One sync's update of both fields, each with its condition on the feature gates, the version and the old value |
| CertWait.WaitForCertificateReady | pkg/cert/cert.go:27-167 | Ends within floor(timeout/2s)+1 polls, each of which got the cluster's own answers; success exactly for a last round with Ready, not Issuing, and a secret with both entries; failure exactly for a last round with a failed call |
| CertWait.CheckConditions | pkg/cert/cert.go:66-90 | The condition loop finds Ready=True and Issuing=True |
| InformerFactory.LaunchedAtMostOnce | pkg/generated/informers/externalversions/factory.go:146-162 | In every run: started types are known, no informer is launched twice, a type is started if and only if its informer was launched |
| InformerFactory.InformersAreForever | pkg/generated/informers/externalversions/factory.go:164-245 | In every run: a type keeps its informer, launches are never undone, and none follows the shutdown flag |
| InformerFactory.SharedInformerFactory.InformerFor | pkg/generated/informers/externalversions/factory.go:223-245 | One critical section: the known informer, or a new one with the type's own resync period or the default, and with the transform if there is one |
| InformerFactory.SharedInformerFactory.StartWithContext | pkg/generated/informers/externalversions/factory.go:146-162 | Launches each known, not yet started type once, in any map order; nothing once shutting down |
| InformerFactory.SharedInformerFactory.StartedSnapshot | pkg/generated/informers/externalversions/factory.go:179-195 | The snapshot has exactly the started types |
| InformerFactory.ReportSync | pkg/generated/informers/externalversions/factory.go:196-219 | The report has exactly the snapshot's types, with an error exactly if one has not synced |
| ManifestMirror.CrdsMirrorDocuments | hack/sync_manifests.py:302-347 | After the script, a file of crds that ends in .yaml is there if and only if a CRD document of this run maps to it, and it holds the last such document |
| ManifestMirror.EachCrdHasItsFile | hack/sync_manifests.py:302-328 | Where the CRDs have different names and their storage versions are named without a dash, each has a file of its own with its own text |
| ManifestMirror.CrdPathsDiffer | hack/sync_manifests.py:302-326 | Two such CRDs share a file if and only if they have one name and one storage version |
| ManifestMirror.StorageVersionIs | hack/sync_manifests.py:314-320 | The version in a CRD's file name is the first one marked as stored |
| ManifestMirror.PathIsYaml | hack/sync_manifests.py:265-326 | Every file written ends in .yaml |
| ManifestMirror.SingleFiles | hack/sync_manifests.py:265-301 | Deployment, service account, webhook configurations and API services go to the paths the operator loads them from |
| ManifestMirror.NamesAreCleaned | hack/sync_manifests.py:147-162 | Cluster roles and services are filed without the leading "kueue-" |
| ManifestMirror.RoleNamesAreCleaned | hack/sync_manifests.py:147-162 | Roles are filed without the leading "kueue-" and the trailing "-role" |
| ManifestMirror.BindingNamesAreCleaned | hack/sync_manifests.py:147-162 | Bindings are filed without the leading "kueue-" and the trailing "-rolebinding" |
| ManifestMirror.SecondRunIff | hack/sync_manifests.py:236-347 | A second run removes nothing, and writes nothing if and only if documents sharing a path have equal text |
| ManifestMirror.SecondRunOnManifestsIff | hack/sync_manifests.py:164-347 | The same for the parsed manifests: if and only if those filed in one place are rendered alike once edited |
| ManifestEdits.Document.Edit | hack/sync_manifests.py:178-226 | The nested edits in place have this effect on the whole manifest |
| ManifestEdits.EditIsIdempotent | hack/sync_manifests.py:178-226 | Editing an edited manifest changes nothing |
| ManifestEdits.FieldsAreSet | hack/sync_manifests.py:207-228 | Outside webhooks: the namespace of three kinds, the manager's image and its pod label are set, and nothing else changes |
| ManifestEdits.WebhookFieldsAreSet | hack/sync_manifests.py:178-205 | In webhooks: mutating ones get the reinvocation policy, the service's namespace is moved, and of selectors only the values of name exclusions change, in place |
| ManifestEdits.WebhooksAreMoved | hack/sync_manifests.py:178-208 | After the edits no webhook calls into kueue-system and no name exclusion lists it |
| ManifestEdits.ValuesAreMoved | hack/sync_manifests.py:187-194 | The operator's namespace takes the place of kueue-system in an exclusion, and all other names stay |
| ManifestMirror.TwoServiceAccountsNeverSettle | hack/sync_manifests.py:265-301 | Two different service accounts are rewritten on every run |
| ManifestMirror.OthersAreLeftAlone | hack/sync_manifests.py:236-347 | Any other path no document maps to is untouched |
| ManifestMirror.DocumentsAreWritten | hack/sync_manifests.py:265-328 | Every processed document's path exists and holds a document that maps to it |
| ManifestMirror.WritesHas | hack/sync_manifests.py:265-328 | Exactly the processed documents are written |
| ManifestMirror.GroupedIsByBase | hack/sync_manifests.py:164-234 | Grouping keeps each stem's documents, in order |
| ManifestMirror.Script.WriteYamlIfChanged | hack/sync_manifests.py:239-263 | A file is written exactly if its content differs, and counted as generated either way |
| ManifestMirror.Script.SweepOrphans | hack/sync_manifests.py:330-347 | Removes exactly the YAML files of crds that were not generated |
| ManifestMirror.Script.SyncManifests | hack/sync_manifests.py:164-347 | The whole run, from the parsed manifests on, has the specified files, rewrites and removals |
| ManagerRole.ManagerMayChangeInstalled | pkg/operator/target_config_reconciler.go:1584-1588 | A CRD rule of the applied manager role covers exactly the CRDs that get installed |
| ManagerRole.CrdRuleCoversInstalledIff | pkg/operator/target_config_reconciler.go:1636-1655 | That holds if and only if at least one CRD is installed |
| ManagerRole.ScopingTouchesOnlyNames | pkg/operator/target_config_reconciler.go:1636-1668 | CRD rules get the CRDs, other rules on webhook configurations Kueue's two names, all other rules and fields stay, and doing it again changes nothing |
| ManagerRole.ScopeManagerRoleResourceNames | pkg/operator/target_config_reconciler.go:1636-1655 | The loop over the rules, in place |
| ManagerRole.KueueCRDNames | pkg/operator/target_config_reconciler.go:1605-1631 | A sorted permutation of the names of the installed CRDs |
| ManagerRole.SortedIsUnique | pkg/operator/target_config_reconciler.go:1629-1629 | There is only one, whatever the sorting algorithm |
| ManagerRole.ManagerMayChangeKueuesWebhooks | pkg/operator/target_config_reconciler.go:1643-1648 | The webhook configurations the applied manager role may change are exactly Kueue's two, unless a rule on them is a CRD rule too |
| ManagerRole.RequiredRole | pkg/operator/target_config_reconciler.go:1581-1588 | The role that is applied for an asset: the manager role scoped, any other as it is |
| ManagerRole.OtherRolesStay | pkg/operator/target_config_reconciler.go:1566-1601 | Of the other roles exactly those without an aggregation rule are applied, as they are |
| ManagerRole.InstalledHas | pkg/operator/target_config_reconciler.go:1605-1628 | A CRD is installed exactly if none of its versions starts with v1alpha |
| DeepCopy.DeepCopy | pkg/apis/kueueoperator/v1/zz_generated.deepcopy.go:368-375 | Equal value, everything reachable fresh; nil for nil |
| DeepCopy.WritesAreNotShared | pkg/apis/kueueoperator/v1/zz_generated.deepcopy.go:350-375 | Arbitrary writes through the copy leave the original's value alone, and the other way round |
| DeepCopy.EqualValuesAgree | pkg/apis/kueueoperator/v1/zz_generated.deepcopy.go:350-365 | What equal value means: field by field, through every pointer and slice, with nil told from empty |
| DeepCopy.CopyConfiguration | pkg/apis/kueueoperator/v1/zz_generated.deepcopy.go:350-365 | The struct's copy has the same value and only fresh references |
| DeepCopy.CopyResources | pkg/apis/kueueoperator/v1/zz_generated.deepcopy.go:531-541 | The same for the nested slice of mappings, by a loop |
| DeepCopy.CopyMapping | pkg/apis/kueueoperator/v1/zz_generated.deepcopy.go:193-206 | The same for one mapping with its two slices |
| DeepCopy.CopyGang | pkg/apis/kueueoperator/v1/zz_generated.deepcopy.go:270-278 | The same for a pointer to a struct with a pointer |
| DeepCopy.CopyByWorkload | pkg/apis/kueueoperator/v1/zz_generated.deepcopy.go:66-75 | The same for an optional number |
| DeepCopy.CopyMultiKueue | pkg/apis/kueueoperator/v1/zz_generated.deepcopy.go:462-470 | The same for a pointer to a struct with a slice |

## Left out

- SyncTrace.Reconciler.Sync: the checks before the finalizer, which only update the status, and the contents of the applied objects are not part of the trace; the CR that is read again after the waits is an outcome only.
- SyncTrace.Reconciler.ManageEach: the repeated apply, hash, annotate blocks of `sync` are one loop over the list of their objects, in the same order.
- ManifestMirror.Script.SyncManifests: takes manifests that have the fields their kind requires, rendering as a function of the manifest, and the directories as present.
- ConfigTranslation.ResolveGVRsToKinds: takes validated frameworks; without validation two frameworks could share a lookup key.
- Other parties' finalizers are one flag that the patches may change at will.
- That deletion ever finishes: a missing object counts as a clean-up error, so only safety is claimed.
- TLS profiles, float weights, log-level flags, status conditions, network policy tweaks and OpenShift detection.
- The cached wrappers for CRDs, Deployments, roles and bindings, which add a CA bundle or call library code.
- YAML, JSON, SHA-256, transport, events, logging, generated clients and listers.
- Liveness of the informers and the wait for them to sync; only the snapshot and the report are modelled.
