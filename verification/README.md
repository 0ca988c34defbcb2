# Hypershift add-on: a verified model

This project models the parts of the hypershift add-on operator with the most state and branching, and proves what
they promise. `dafny verify dfyconfig.toml` checks all of it.

**Labels.** One `Reconcile` merges labels from a HostedCluster, the hub's ManagedCluster and the spoke's
ManagedCluster, and remembers who owns a key in three tracking sets kept as annotations. The agent's loops and in-place
updates are methods of `LabelAgents`; `Reconciling` and `Labels` say what they compute, for any pattern of
failing calls and lost answers. `LabelCells` reduces a whole object to one rule per key, on which `LabelTheorems` (one Reconcile),
`Convergence` (repeated Reconciles), `FaultyRuns` (with failures in between) and `LabelRuns` (whole runs with user
edits in between) rest. `Tracking`, `Strings`, `HostedClusters` and `Names` model the annotation strings, the
HostedCluster matching and the cluster names.

The modules called `Laws` say what the rules amount to in the label keys, flags, names, answers and fields themselves,
without the predicates and functions of the model: `LabelLaws`, `MatchLaws`, `FlagLaws`, `InstallLaws`, `PathLaws`,
`CreateLaws`, `ProxyLaws`, `ConfigLaws` and `SizingLaws`.

**Install and upgrade.** `Upgrade` is the controller behind the two-minute tick with its cached hub inputs and its two
flags; a ghost field records the inputs of the last install that was accepted. `UpgradeRuns` proves what holds over
runs of ticks with arbitrary hub edits and failing reads. `InstallFlags` is the install-flag builder, `Backoff` the
randomised retry loop.

**HCP proxy.** `SpokeApi` is a spoke's API server: a map of objects and a log of requests, where any request may be
refused, cut off before it is served, or lost after it was served. `HcpProxy` holds the handlers. `CreateProtocol`,
`CreateRetries`, `Bundles` and `Lifecycle` prove the order of a creation, that retries are safe, the GET/PUT round trip,
the exact effect of a deletion, and how the operations fit together. `ProxyPaths` models the paths and their checks.

**Discovery configuration and capacity.** `DiscoveryConfig`, `AddonPlacements` and `AddonConfigMap` model the edits for
enabling and disabling cluster import; `Capacity` the sizing arithmetic, over the reals with Go's
infinities and NaN.

## Where the code differs from its documentation

The model follows the code. These statements of the comments, or natural readings of them, fail; each has its exact
condition in the project.

- "HC labels override everything" (pkg/agent/managedcluster_sync_controller.go:62-64, 86): a different spoke value that
  is untracked stands; one that is tracked as the hub's becomes the hub's, unless the hub has none to send: then it goes
  in one Reconcile and, as long as the match stays, the HostedCluster's comes in the next (`WhenTheHostedClusterWins`, `WhatStands`).
- One Reconcile does not always settle; two always do, also with failed ones in between (`SettlesInTwo`,
  `SettlesThroughFailures`). `SettlesInOneExactly` says when one is enough. As long as the infrastructure label is not
  lost, that is when no key is orphaned (`SettlesInOne`, `OnePassIsNotEnough`). A user who writes that label's key into
  a tracking annotation can make a Reconcile delete the label and so change the match, once (`MatchKept`,
  `TheMatchCanBeLost`).
- The annotation priority over infraID holds only by list position (`OrderDoesNotMatter`, `OrderMattersOtherwise`).
- The tracking codec is a round trip for every set of comma-free keys but the set of just the empty key
  (`ParseEncode`), which no label can produce.
- A tick that meets the not-by-mce mark counts as a success. So a settled controller forgets the changes that the tick's
  polls show, and one that was starting or had failed forgets inputs that it has cached and not applied, without any
  poll showing a change (`ForgetsExactly`, `FailedThenMarked`, `MarkedStartIsForgotten`).
- A hub that holds image overrides which are no input of installs causes one needless install after a start
  (`IdleOnAnUnchangedHub`, `StartInstallsTwice`).
- A flag in both installFlagsToAdd and installFlagsToRemove stays (`FlagsOfResult`).
- A creation whose hosted cluster was created but not confirmed can never be completed by a retry
  (`NoSecondCreation`, `RetrySucceeds`, `CreatedButNotConfirmed`).
- A deletion may be answered with success and leave node pools behind: all of them when the list request goes wrong,
  otherwise those whose own request is not served (`LeftBehindExactly`, `PoolLeftBehind`).
- Enabling sends an update that changes nothing for an add-on without a global placement (`UselessUpdate`).
- A cost of zero sets no limit, but gives NaN where none of its resource is there (`UndeterminedExactly`).
- The average load is the mean of the loads only when the minimum is zero (`AverageIsNotTheMean`).

## Model

| member | source | states |
|---|---|---|
| `Tracking.ParseAnnotation` | pkg/agent/managedcluster_sync_controller.go:637-645 | reading an annotation gives the set of its comma-separated pieces; nothing for the empty value |
| `Tracking.JoinSortedKeys` | pkg/agent/managedcluster_sync_controller.go:647-654 | the written value is that of the set, whatever order the map yields its keys in |
| `Tracking.OrderIndependent` | pkg/agent/managedcluster_sync_controller.go:647-654 | any two listings of a set are written as the same string |
| `Tracking.ParseEncode` | pkg/agent/managedcluster_sync_controller.go:637-654 | writing and reading back gives the same set for every set of comma-free keys but one, the set of just the empty key |
| `Tracking.EncodeInjective` | pkg/agent/managedcluster_sync_controller.go:637-654 | two sets of label keys with the same annotation value are equal |
| `Strings.SortedUnique` | pkg/agent/managedcluster_sync_controller.go:647-654 | a sorted list is determined by its elements, so sorting makes the printed value canonical |
| `Strings.SplitJoin` | pkg/agent/managedcluster_sync_controller.go:637-654 | splitting undoes joining for pieces without the separator |
| `LabelLaws.AscendingOrder` | pkg/agent/managedcluster_sync_controller.go:647-654 | the order of the written keys: a prefix first, else by the first differing character |
| `LabelLaws.WrittenInOrder` | pkg/agent/managedcluster_sync_controller.go:647-654 | the keys in a written annotation ascend in that order |
| `HostedClusters.FindHostedCluster` | pkg/agent/managedcluster_sync_controller.go:167-213 | the loop with its early returns yields the first authoritative match, else the only name match, else nothing or ambiguity |
| `HostedClusters.MatchMeaning` | pkg/agent/managedcluster_sync_controller.go:167-213 | a HostedCluster annotated for another cluster is never returned; a name match is returned only if unique and no annotation or infraID match exists; ambiguity exactly when there is no such match and at least two name matches |
| `HostedClusters.OrderDoesNotMatter` | pkg/agent/managedcluster_sync_controller.go:167-213 | the result is independent of list order when no two different HostedClusters match authoritatively |
| `HostedClusters.OrderMattersOtherwise` | pkg/agent/managedcluster_sync_controller.go:167-213 | with two different authoritative matches some other order of the list gives another result, so annotation beats infraID only by position |
| `MatchLaws.FirstOfItsKind` | pkg/agent/managedcluster_sync_controller.go:167-213 | in fields: the first HostedCluster in the list whose annotation is the cluster's name, or which is not annotated and has its infrastructure ID, is the match |
| `MatchLaws.NamesDecideOtherwise` | pkg/agent/managedcluster_sync_controller.go:167-213 | in fields: with no such HostedCluster, among those not annotated exactly one of the name is the match, none is no match, and two or more are ambiguous |
| `Names.SpokeOfHub` | pkg/agent/managedcluster_sync_controller.go:554-579 | the spoke name of a cluster's hub name is the cluster, in all three prefix modes |
| `Names.HubOfSpoke` | pkg/agent/managedcluster_sync_controller.go:554-579 | a hub name maps to a non-empty spoke name exactly when that cluster's hub name is it, and then to no other |
| `Names.HubNameInjective` | pkg/agent/discovery_agent.go:246-262 | two spoke clusters never share a hub name |
| `LabelLaws.HubNames` | pkg/agent/discovery_agent.go:246-262 | the three modes spelled out: prefix or cluster name, a dash, the name; the name alone for an empty prefix |
| `Labels.InfraLabelIsSystem` | pkg/agent/managedcluster_sync_controller.go:218-253 | the label that identifies the infrastructure is itself a system label |
| `Labels.HCSyncView` | pkg/agent/managedcluster_sync_controller.go:263-334 | after merging a HostedCluster the tracked keys are exactly the managed ones, keys taken over leave the hub's set, and a patch is sent exactly when labels or sets change |
| `Labels.HubSyncView` | pkg/agent/managedcluster_sync_controller.go:404-469 | the same for merging the hub's labels, with the hub's own notion of a stale key |
| `Labels.ClearedView` | pkg/agent/managedcluster_sync_controller.go:474-524 | a clean-up drops exactly the tracked labels and empties the set, and patches exactly when the set was not empty |
| `Labels.ClearHCIsEmptySync` | pkg/agent/managedcluster_sync_controller.go:492-524 | removing a HostedCluster's labels is merging a HostedCluster without labels: same object, same patch, on spoke and hub |
| `Labels.ClearHubIsEmptySync` | pkg/agent/managedcluster_sync_controller.go:474-488 | removing the hub's labels is merging a hub object without labels: same labels, same tracking sets, patch in the same cases |
| `LabelAgents.ManagedCluster.SetOrDeleteAnnotation` | pkg/agent/managedcluster_sync_controller.go:656-662 | a non-empty value is stored, an empty one deletes the annotation; no other annotation changes |
| `LabelAgents.PropagateLabels` | pkg/agent/managedcluster_sync_controller.go:268-302 | the in-place label loop, for any map order, takes over exactly the missing, agreeing and tracked keys that are no system labels, and reports exactly whether a label changed |
| `LabelAgents.DeleteKeys` | pkg/agent/managedcluster_sync_controller.go:474-524 | deleting in arbitrary order removes exactly the given keys |
| `LabelAgents.LabelAgent.SyncHCLabelsToSpoke` | pkg/agent/managedcluster_sync_controller.go:260-334 | the spoke object on the server and the patch count afterwards, also when the patch fails |
| `LabelAgents.LabelAgent.SyncHCLabelsToHub` | pkg/agent/managedcluster_sync_controller.go:341-398 | the same for the hub object |
| `LabelAgents.LabelAgent.SyncHubLabelsToSpoke` | pkg/agent/managedcluster_sync_controller.go:404-469 | the same for the hub's labels on the spoke |
| `LabelAgents.LabelAgent.RemovePropagatedLabels` | pkg/agent/managedcluster_sync_controller.go:474-524 | the three clean-up functions: the object afterwards, the patch, and nothing else |
| `LabelAgents.LabelAgent.SyncFromHostedCluster` | pkg/agent/managedcluster_sync_controller.go:102-117 | the branch for a HostedCluster that was found: world, result and patches, whichever call fails |
| `LabelAgents.LabelAgent.RemoveHostedClusterLabels` | pkg/agent/managedcluster_sync_controller.go:118-132 | the branch for a cluster without HostedCluster |
| `LabelAgents.LabelAgent.FollowHub` | pkg/agent/managedcluster_sync_controller.go:134-160 | the second fetch and the hub phase, including the missing hub object |
| `LabelAgents.LabelAgent.Reconcile` | pkg/agent/managedcluster_sync_controller.go:65-160 | the whole Reconcile, for every combination of failing calls, leaves exactly the specified world and sends exactly the specified patches |
| `LabelCells.HCToSpokeCell` | pkg/agent/managedcluster_sync_controller.go:263-334 | merging a whole HostedCluster into the spoke acts on every key as one per-key rule |
| `LabelCells.HCToHubCell` | pkg/agent/managedcluster_sync_controller.go:344-398 | the same for the hub object |
| `LabelCells.HubToSpokeCell` | pkg/agent/managedcluster_sync_controller.go:407-469 | the same for the hub's labels |
| `LabelCells.ClearHubCell` | pkg/agent/managedcluster_sync_controller.go:474-488 | removing the hub's labels acts on every key as the hub rule with no hub object |
| `LabelTheorems.OutcomeFrame` | pkg/agent/managedcluster_sync_controller.go:65-160 | whatever fails, a Reconcile touches only its spoke object and its hub object, and of their annotations only the two tracking ones |
| `LabelTheorems.OutcomeCells` | pkg/agent/managedcluster_sync_controller.go:65-160 | every outcome is a prefix of the same three phases for every key at once |
| `LabelTheorems.LocalLabelsAndProvenance` | pkg/agent/managedcluster_sync_controller.go:268-302 | a spoke label tracked by nobody keeps its value, and a new or changed value is the HostedCluster's or the final hub's, under a key that is no system label |
| `LabelTheorems.SystemLabelsKept` | pkg/agent/managedcluster_sync_controller.go:218-253 | an untracked system label is never added, changed, deleted or tracked on spoke or hub |
| `LabelTheorems.OwnershipSurvivesHubPhase` | pkg/agent/managedcluster_sync_controller.go:304-332 | keys the HostedCluster owns after its phase, also those taken over from the hub, are not changed or dropped by the hub phase |
| `Convergence.KeySettlesInTwo` | pkg/agent/managedcluster_sync_controller.go:65-160 | two steps settle any key, even when the match or the HostedCluster changes between them |
| `Convergence.KeySettlesInOne` | pkg/agent/managedcluster_sync_controller.go:65-160 | one step settles a key exactly when it is not orphaned |
| `Convergence.QuietPass` | pkg/agent/managedcluster_sync_controller.go:65-160 | a Reconcile sends no patch exactly when every key is settled and no empty key is tracked, and then changes nothing |
| `Convergence.MatchKept` | pkg/agent/managedcluster_sync_controller.go:167-213 | the match after a Reconcile is the same unless the infrastructure label was lost, which happens exactly when its key was tracked with the stated effect, and never again |
| `Convergence.SettlesInTwo` | pkg/agent/managedcluster_sync_controller.go:65-160 | convergence: from any world and any annotations, match found, absent or ambiguous, hub object or not, a third Reconcile sends no patch and changes nothing |
| `Convergence.KeyEnoughInOne` | pkg/agent/managedcluster_sync_controller.go:65-160 | exactly when one step settles a key although the match, and with it the HostedCluster's value, may change after it |
| `Convergence.SettlesInOneExactly` | pkg/agent/managedcluster_sync_controller.go:65-160 | one Reconcile is enough exactly when every key meets that condition, read off the state before it; from any world and any annotations |
| `Convergence.SettlesInOne` | pkg/agent/managedcluster_sync_controller.go:65-160 | its special case where the infrastructure label is not lost: exactly when no key is orphaned |
| `Convergence.TheMatchCanBeLost` | pkg/agent/managedcluster_sync_controller.go:167-213 | a state without orphaned keys for which one Reconcile is not enough: a user tracked the infrastructure label's key, so that the first pass deletes the label and the second meets another match |
| `FaultyRuns.CompleteIsPass` | pkg/agent/managedcluster_sync_controller.go:65-160 | a Reconcile that returns without error did exactly what one without failing calls does |
| `FaultyRuns.NoFaultsCompletes` | pkg/agent/managedcluster_sync_controller.go:65-160 | a Reconcile in which no call fails returns without error, so that runs of those are covered |
| `FaultyRuns.SettlesThroughFailures` | pkg/agent/managedcluster_sync_controller.go:65-160 | convergence with failures: once two Reconciles of a run have returned without error, however many others failed and wherever, every later one, failing or not, sends no patch and changes nothing |
| `Convergence.OrphanedKey` | pkg/agent/managedcluster_sync_controller.go:263-302 | an orphaned key disappears from the spoke after one Reconcile; after two it has the value of the HostedCluster that then matches, tracked as its own, or none if there is none |
| `Convergence.OnePassIsNotEnough` | pkg/agent/managedcluster_sync_controller_test.go:764-811 | the state of ACM-33069: env is gone after the first pass, the second pass patches and sets env=prod |
| `Convergence.WhenTheHostedClusterWins` | pkg/agent/managedcluster_sync_controller.go:62-64 | against the comment that HostedCluster labels override everything: the spoke's value after one Reconcile, exactly. The HostedCluster's is there if and only if the key was missing, agreed, or was tracked as its own; otherwise an untracked value stands, and a hub-tracked one becomes the hub's or, when orphaned, goes |
| `Convergence.WhatStands` | pkg/agent/managedcluster_sync_controller.go:62-64 | its value after two Reconciles, where it settles, exactly and for any match that is then found; if the infrastructure label is not lost, the HostedCluster has won in those cases and for orphaned keys, and in no other |
| `Convergence.NormalForm` | pkg/agent/managedcluster_sync_controller.go:94-158 | after any Reconcile with a decided match and a hub object the three tracking sets are functions of the labels alone, and those on the spoke are disjoint |
| `LabelRuns.RunsAreSafe` | pkg/agent/managedcluster_sync_controller.go:218-253 | over any run of Reconciles with any failures and user edits, starting with no tracked system label, none is ever tracked and no Reconcile adds, changes or deletes one anywhere |
| `LabelRuns.ReconcilesCommute` | pkg/agent/managedcluster_sync_controller.go:65-160 | Reconciles of two different clusters give the same world, results and patches in either order, whatever fails in them |
| `LabelLaws.SystemLabelsAre` | pkg/agent/managedcluster_sync_controller.go:218-253 | the system labels, spelled out: the ten names, and the keys that hold one of the four domains and do not start with the one allowed prefix; nothing else |
| `LabelLaws.SystemLabelIsLeftAlone` | pkg/agent/managedcluster_sync_controller.go:268-302 | whatever fails, such a key that nobody tracks keeps its value on every object, and nobody tracks it afterwards |
| `LabelLaws.SystemLabelInRuns` | pkg/agent/managedcluster_sync_controller.go:268-302 | the same for every Reconcile of a run in which no user starts tracking the key |
| `LabelLaws.OtherLabelsArrive` | pkg/agent/managedcluster_sync_controller.go:268-302 | a HostedCluster's label of any other key reaches a spoke and a hub object that lack it, in one Reconcile |
| `LabelLaws.ClusterSetArrives` | pkg/agent/managedcluster_sync_controller.go:218-253 | the cluster set label does, although its key holds one of the four domains |
| `LabelLaws.OtherClustersAreLeftAlone` | pkg/agent/managedcluster_sync_controller.go:90-94 | a ManagedCluster whose created-via annotation is not hypershift is left alone, and all others with it |
| `LabelLaws.NothingToReconcile` | pkg/agent/managedcluster_sync_controller.go:68-89 | nothing happens with discovery disabled, on the local cluster's agent, and for a name that is not there |
| `LabelLaws.MatchIsSoughtBy` | pkg/agent/managedcluster_sync_controller.go:167-213 | the infrastructure ID that is sought is the value of the auto-created-for-infra label |
| `LabelLaws.WhatTheHubHas` | pkg/agent/managedcluster_sync_controller.go:344-398 | the hub's value of any key after one Reconcile, exactly |
| `LabelLaws.WithoutTheHostedCluster` | pkg/agent/managedcluster_sync_controller.go:407-469 | the spoke's value after one Reconcile of a key that the HostedCluster does not send, exactly |
| `InstallFlags.Contains` | pkg/install/hypershift.go:635-642 | found exactly when the flag is in the list |
| `InstallFlags.GetParamValue` | pkg/install/hypershift.go:644-658 | the token after the first occurrence, unless it is a flag or missing |
| `InstallFlags.BuildOtherInstallFlags` | pkg/install/hypershift.go:545-633 | the loops produce the flattened list of default and added entries |
| `InstallFlags.NothingReservedNothingTwice` | pkg/install/hypershift.go:519-633 | no output token is reserved and no flag occurs twice, for every pair of token lists |
| `InstallFlags.FlagsOfResult` | pkg/install/hypershift.go:545-633 | a flag is in the output exactly when it is an applicable default or an unreserved added flag; so removing does not undo adding |
| `InstallFlags.ValuesOfResult` | pkg/install/hypershift.go:545-658 | every flag's value in the output: the added list's outside the defaults, the ConfigMap's or the built-in one within them |
| `FlagLaws.WordsOf` | pkg/install/hypershift.go:545-560 | the ConfigMap's text is cut at every space into its words, and nowhere else |
| `FlagLaws.Spaces` | pkg/install/hypershift.go:545-560 | below 128 the spaces are the six of ASCII |
| `FlagLaws.EqualFoldExactly` | pkg/install/hypershift.go:376-378 | equal but for the case of ASCII letters, character by character |
| `FlagLaws.ValueExactly` | pkg/install/hypershift.go:644-658 | a flag's value is the token after its first occurrence, but none if that starts with two dashes or is missing |
| `FlagLaws.ReservedForms` | pkg/install/hypershift.go:519-543 | each of the sixteen flags, spelled out, is reserved alone and with a value after an equals sign |
| `FlagLaws.ReservedOnly` | pkg/install/hypershift.go:519-543 | and nothing else is |
| `FlagLaws.TheSixteenNeverPass` | pkg/install/hypershift.go:610-631 | none of the sixteen, in either form, is in the output for any pair of token lists |
| `FlagLaws.AllOthersPass` | pkg/install/hypershift.go:610-631 | every other token of installFlagsToAdd that starts with two dashes is |
| `FlagLaws.FlagsInFull` | pkg/install/hypershift.go:545-633 | the flags of the output in full, with the defaults spelled out |
| `FlagLaws.DefaultsAlone` | pkg/install/hypershift.go:545-633 | the arguments when the ConfigMap says nothing, spelled out |
| `FlagLaws.DefaultsForRhobs` | pkg/install/hypershift.go:545-633 | the same with RHOBS monitoring |
| `FlagLaws.TelemetryGiven` | pkg/install/hypershift.go:562-583 | a value given for platform monitoring replaces the default one |
| `Upgrade.DeploymentHasOidcArgs` | pkg/install/hypershift.go:1129-1157 | true exactly when bucket, region and one of the two secret flags occur in either form |
| `Upgrade.OidcFlagsDistinct` | pkg/install/hypershift.go:1129-1157 | no argument matches two of the OIDC flags, so the order of the cases does not matter |
| `Upgrade.UpgradeController.constructor` | pkg/install/upgrade.go:48-64 | a new controller is starting, with empty caches and nothing applied |
| `Upgrade.UpgradeController.InstallOptionsChanged` | pkg/install/upgrade.go:105-142 | reports exactly whether some readable input differs, and caches only the first that does |
| `Upgrade.UpgradeController.UpgradeImageCheck` | pkg/install/upgrade.go:164-172 | reports and caches a change of the image overrides |
| `Upgrade.UpgradeController.CacheCredentials` | pkg/install/hypershift.go:247-367 | what is cached, rejected and passed on for the bucket, private link, Azure and external DNS secrets |
| `Upgrade.UpgradeController.CacheInstallFlags` | pkg/install/hypershift.go:369-394 | the flags ConfigMap is cached, and an Azure private platform without its inputs rejected |
| `Upgrade.UpgradeController.FinishInstall` | pkg/install/hypershift.go:396-507 | the skip test, the job and the failure points after the inputs are accepted |
| `Upgrade.UpgradeController.RunHypershiftInstall` | pkg/install/hypershift.go:197-507 | the install as a whole: new caches, inputs applied, and outcome, for every answer of the calls |
| `Upgrade.UpgradeController.RunTick` | pkg/install/upgrade.go:73-96 | one tick: polls, install when due, and the two flags |
| `UpgradeRuns.NoForgottenChange` | pkg/install/upgrade.go:73-96 | over every run with arbitrary hub edits and failures, while no install finds the operator marked as foreign, a controller neither starting nor failed has cached exactly the inputs last applied |
| `UpgradeRuns.CatchesUp` | pkg/install/upgrade.go:105-142 | a tick that reads the hub cleanly and ends settled leaves the applied inputs equal to the hub |
| `UpgradeRuns.NotLeftStarting` | pkg/install/upgrade.go:82-93 | an enabled tick ends unsettled exactly when its install failed |
| `UpgradeRuns.ForgetsExactly` | pkg/install/hypershift.go:197-206 | from every state that remembers: a change is forgotten exactly when an enabled tick meets the not-by-mce mark and either a settled controller's polls show a change, or an attempt is due while the cached inputs are not the applied ones |
| `UpgradeRuns.RemembersExactly` | pkg/install/upgrade.go:73-96 | over whole runs, marks included, the controller remembers throughout exactly when no tick forgets in that sense |
| `UpgradeRuns.FailedThenMarked` | pkg/install/upgrade.go:82-93 | after an attempt that failed with new inputs a tick that meets the mark settles on them, although they were never applied and no poll shows a change |
| `UpgradeRuns.IdleExactly` | pkg/install/upgrade.go:73-96 | a settled controller attempts an install exactly when it is enabled and some poll shows a change of what is cached |
| `UpgradeRuns.MarkedStartIsForgotten` | pkg/install/hypershift.go:197-206 | a first enabled tick that meets the mark counts as done: through any run of later ticks in which the hub holds none of the inputs, or they cannot be read, the controller stays idle without ever having installed; the first enabled tick that reads one attempts |
| `UpgradeRuns.IdleOnAnUnchangedHub` | pkg/install/upgrade.go:105-142 | once a clean tick has ended settled, an unchanged hub causes no further attempt, or, if only the cached image overrides differ, attempts from the first enabled tick up to the first that does not fail, and none after it |
| `UpgradeRuns.StartInstallsTwice` | pkg/install/upgrade.go:164-172 | a hub that holds image overrides which are no input of installs causes a second install right after a start |
| `UpgradeRuns.SkipsOnlyFirst` | pkg/install/hypershift.go:414-432 | the skip path is taken only by the first enabled tick, hence at most once in a run |
| `UpgradeRuns.RetriesUntilDone` | pkg/install/upgrade.go:82-93 | after a failed attempt every later enabled tick attempts an install, without skipping, until one does not fail |
| `UpgradeRuns.TenantsCannotReserve` | pkg/install/hypershift.go:511-543 | a reserved flag among the job's arguments was put there by the controller itself |
| `FlagLaws.TenantsCannotSetTheSixteen` | pkg/install/hypershift.go:511-543 | beside the controller's own arguments the job gets none of the sixteen, in either form |
| `InstallLaws.InstallEndsExactly` | pkg/install/hypershift.go:197-507 | in the answers of the calls and the data of the inputs: when an install is left to others, skipped, and done; in every other case it is failed |
| `InstallLaws.FailedJobIsFailure` | pkg/install/hypershift.go:454-469 | an attempt whose job did not start or did not succeed is failed and leaves the applied inputs as they were |
| `InstallLaws.InstallCaches` | pkg/install/hypershift.go:247-370 | which inputs are cached by an install, also by one that fails |
| `InstallLaws.AttemptsExactly` | pkg/install/upgrade.go:73-96 | an enabled tick attempts exactly when the controller is starting, has failed, or polls other data than it has cached; a failed read is no change |
| `InstallLaws.PollsCacheTheFirst` | pkg/install/upgrade.go:105-142 | the polls cache the first change they find and no other |
| `InstallLaws.StartsWithNothing` | pkg/install/upgrade.go:48-64 | a new controller is starting and has cached and applied nothing |
| `InstallLaws.JobImage` | pkg/install/hypershift.go:292-294 | the job gets the operator's namespace and the image or image stream |
| `InstallLaws.JobBucket` | pkg/install/hypershift.go:296-319 | for a bucket it gets the bucket's name, region and secret, each after its flag |
| `InstallLaws.JobPrivateLink` | pkg/install/hypershift.go:321-333 | for a private link it gets the secret, the region and the platform |
| `InstallLaws.JobExternalDns` | pkg/install/hypershift.go:335-364 | for an external DNS it gets the secret and what that says of filter, provider and owner |
| `InstallLaws.JobAzure` | pkg/install/hypershift.go:376-393 | for the Azure platform it gets the secret |
| `InstallLaws.JobOtherFlags` | pkg/install/hypershift.go:545-560 | after the controller's own arguments it gets those made of the words of installFlagsToAdd and installFlagsToRemove and the defaults |
| `Backoff.RunWithRetries` | pkg/install/hypershift.go:65-91 | the command is called until it succeeds or the attempts are used up, and n failures sleep between s(2^n-1) and 3s(3^n-1)/4 in all |
| `ProxyPaths.PathIsBuilt` | pkg/manager/hcp_proxy.go:789-823 | a path is built exactly for DNS-1123 subdomain names and the three known resources |
| `ProxyPaths.PathsAreValid` | pkg/manager/hcp_proxy.go:690-698 | every path that is built passes the check on outgoing paths |
| `ProxyPaths.PathsAreInjective` | pkg/manager/hcp_proxy.go:789-823 | no two of all namespaces, collections and named objects share a path |
| `PathLaws.SaneExactly` | pkg/manager/hcp_proxy.go:678-686 | the names accepted, character by character: 1 to 253 letters, digits, dashes and dots, with a letter or digit at both ends and around every dot |
| `PathLaws.ValidExactly` | pkg/manager/hcp_proxy.go:690-698 | the outgoing paths allowed, character by character |
| `PathLaws.PathsAre` | pkg/manager/hcp_proxy.go:789-823 | the paths of all collections and objects spelled out |
| `HcpProxy.Proxy.CreateOnSpoke` | pkg/manager/hcp_proxy.go:1366-1410 | one POST, or none when the namespace is no valid name |
| `HcpProxy.Proxy.CreateOrUpdateSecretOnSpoke` | pkg/manager/hcp_proxy.go:1344-1363 | a POST, and a PUT only after a conflict |
| `HcpProxy.Proxy.HandleCreate` | pkg/manager/hcp_proxy.go:907-1022 | the spoke's objects, the requests sent and the answer, for every pattern of failing requests |
| `HcpProxy.Proxy.FetchNodePoolsForHC` | pkg/manager/hcp_proxy.go:1277-1309 | the listed node pools whose cluster name matches, in order; none when the request fails |
| `Bundles.MatchingCounts` | pkg/manager/hcp_proxy.go:1303-1308 | a node pool is kept as often as it is listed if it names the cluster, and not at all otherwise |
| `Bundles.MatchingInOrder` | pkg/manager/hcp_proxy.go:1303-1308 | the kept node pools stand in the order of the list |
| `HcpProxy.Proxy.HandleGetResources` | pkg/manager/hcp_proxy.go:1192-1215 | the bundle read, with a namespace at best effort and the error status otherwise |
| `HcpProxy.Proxy.PutOnSpoke` | pkg/manager/hcp_proxy.go:1159-1184 | one PUT and the error status if it failed |
| `HcpProxy.Proxy.HandlePatchResources` | pkg/manager/hcp_proxy.go:1106-1156 | the PUTs up to the first failure, node pools without a name skipped, then the bundle read again |
| `HcpProxy.Proxy.DeleteMatchingNodePools` | pkg/manager/hcp_proxy.go:1061-1091 | a DELETE for each matching node pool, failures ignored |
| `HcpProxy.Proxy.HandleDelete` | pkg/manager/hcp_proxy.go:1025-1058 | node pools first, then the hosted cluster, and its answer forwarded |
| `HcpProxy.Proxy.Dispatch` | pkg/manager/hcp_proxy.go:509-545 | requests with an invalid namespace or name are refused before anything is sent |
| `CreateProtocol.CreateOrder` | pkg/manager/hcp_proxy.go:907-993 | the hosted cluster is sent only after the namespace is ensured and every secret written; node pools only after it was created; and the answer is 201 exactly when it was |
| `CreateProtocol.CreateAccounts` | pkg/manager/hcp_proxy.go:975-1008 | on 201 every node pool asked for was sent once in order; the bundle holds those confirmed and a warning for each other one |
| `CreateRetries.CreateChangesOnlyRequested` | pkg/manager/hcp_proxy.go:907-1022 | whatever fails, a creation removes nothing, overwrites only secrets it was given, and adds only what was asked for |
| `CreateRetries.CleanRun` | pkg/manager/hcp_proxy.go:948-993 | when nothing fails the creation up to the hosted cluster is the simple sequence of writes, and succeeds exactly when the names are valid and the hosted cluster is new |
| `CreateRetries.ClusterOnce` | pkg/manager/hcp_proxy.go:970-981 | the hosted cluster is created only if it was absent, never overwritten, and no node pool changes before it |
| `CreateRetries.NoSecondCreation` | pkg/manager/hcp_proxy.go:970-981 | once the hosted cluster is there every attempt is answered with 500 and touches no node pool |
| `CreateRetries.RetryLeavesNoTrace` | pkg/manager/hcp_proxy.go:948-968 | any number of failed attempts that did not create the hosted cluster, followed by a run in which nothing fails, end with the store and answer of that run alone |
| `CreateRetries.RetrySucceeds` | pkg/manager/hcp_proxy.go:948-981 | such a retry is answered with 201 exactly when the run alone would be and no attempt so far created the hosted cluster |
| `Lifecycle.CreatedButNotConfirmed` | pkg/manager/hcp_proxy.go:970-981 | a concrete creation that succeeds on the spoke while its answer is lost: the caller gets 500, the hosted cluster is there, and every retry gets 500 |
| `Lifecycle.NewObjectsBearLabels` | pkg/manager/hcp_proxy.go:937-945 | every object a creation adds or changes bears both proxy labels and the request's namespace, and its node pools name a cluster |
| `CreateLaws.NewObjectsAreMade` | pkg/manager/hcp_proxy.go:937-999 | field by field: what a creation adds or changes is made from what was given, with namespace, labels, API version and kind spelled out, and a node pool without a cluster gets the one created |
| `CreateLaws.BundleIsMade` | pkg/manager/hcp_proxy.go:975-1008 | the same for the namespace, hosted cluster and node pools that a 201 reports |
| `CreateLaws.CreateAnswers` | pkg/manager/hcp_proxy.go:907-981 | a creation is answered with 400 without a hosted cluster, and otherwise with 201 or 500 |
| `CreateLaws.PoolsOfTheCluster` | pkg/manager/hcp_proxy.go:985-999 | a reported node pool that was given without a cluster, or with the one created, belongs to it: a clean read finds it and a clean deletion removes it |
| `Lifecycle.CreatedIsStored` | pkg/manager/hcp_proxy.go:995-1008 | what an answer of 201 reports is on the spoke |
| `Lifecycle.CreatedIsFound` | pkg/manager/hcp_proxy.go:1192-1215 | a read after a 201 returns the hosted cluster and every reported node pool that belongs to it |
| `Lifecycle.CreateThenDelete` | pkg/manager/hcp_proxy.go:1025-1058 | a deletion after a creation leaves of the new objects only namespace, secrets and node pools of other clusters, and of the old ones all but the cluster's own |
| `Bundles.GetChangesNothing` | pkg/manager/hcp_proxy.go:1192-1215 | reading never changes the spoke |
| `Bundles.PutBackChangesNothing` | pkg/manager/hcp_proxy.go:1106-1156 | putting back an unmodified bundle changes nothing, whatever fails in the read or the write |
| `Bundles.PutBackReturnsTheBundle` | pkg/manager/hcp_proxy.go:1106-1156 | and returns that bundle when nothing fails |
| `Bundles.PutChangesOnlyTheBundle` | pkg/manager/hcp_proxy.go:1106-1156 | a PUT adds and removes no object and changes one only to what the bundle says |
| `Bundles.PutStoresTheBundle` | pkg/manager/hcp_proxy.go:1106-1156 | a PUT answered with success left the hosted cluster and the last node pool of each name on the spoke |
| `Bundles.DeleteExactly` | pkg/manager/hcp_proxy.go:1025-1058 | a deletion under any failures: a node pool is removed exactly when it was fetched and its own request was served, the hosted cluster when its was, nothing else |
| `Bundles.LeftBehindExactly` | pkg/manager/hcp_proxy.go:1025-1069 | the i-th node pool of the hosted cluster stays exactly when the list request goes wrong or its own request, the i-th after it, is not served |
| `Bundles.SuccessMayLeavePools` | pkg/manager/hcp_proxy.go:1277-1309 | when only the list request is refused, the deletion is answered with success and every node pool stays |
| `Bundles.PoolLeftBehind` | pkg/manager/hcp_proxy.go:1277-1309 | a concrete spoke on which that happens |
| `Bundles.DeleteRemovesOnlyItsOwn` | pkg/manager/hcp_proxy.go:1061-1069 | whatever fails, nothing but the hosted cluster and the node pools in its namespace that name it is removed |
| `Bundles.DeleteRemovesAllItsOwn` | pkg/manager/hcp_proxy.go:1025-1069 | when nothing fails all of them are removed, and the answer is that of the hosted cluster's request |
| `Bundles.RunsKeepValid` | pkg/manager/hcp_proxy.go:509-545 | over any run of proxy requests and direct requests objects stay stored under their own valid names, which the statements above start from |
| `ProxyLaws.GetAnswers` | pkg/manager/hcp_proxy.go:1192-1215 | the answer to a read under any failures: 502, 404, or the bundle, with namespace and node pools as far as their requests went well |
| `ProxyLaws.PutFailsFirst` | pkg/manager/hcp_proxy.go:1119-1132 | a hosted cluster that is missing or goes by another name, or whose request fails: 502, and no node pool is sent |
| `ProxyLaws.PutNodePoolNames` | pkg/manager/hcp_proxy.go:1134-1145 | a node pool with an invalid name gives 400 and one without a name is passed over |
| `ProxyLaws.PutNodePoolAnswers` | pkg/manager/hcp_proxy.go:1146-1150 | a node pool that is missing or whose request fails gives 502, one that is there is replaced |
| `ProxyLaws.DeleteAnswers` | pkg/manager/hcp_proxy.go:1034-1058 | the answer to a deletion under any failures: the spoke's own to the last request, or 502 without one |
| `ProxyLaws.InvalidNamesAreRefused` | pkg/manager/hcp_proxy.go:509-535 | an invalid namespace or name gives 400 and nothing is sent |
| `ProxyLaws.GetReturns` | pkg/manager/hcp_proxy.go:536-538 | GET returns the hosted cluster and changes nothing |
| `ProxyLaws.PutChanges` | pkg/manager/hcp_proxy.go:539-540 | PUT leaves the change on the spoke |
| `ProxyLaws.DeleteRemoves` | pkg/manager/hcp_proxy.go:541-542 | DELETE removes the hosted cluster |
| `ProxyLaws.PostCreates` | pkg/manager/hcp_proxy.go:515-518 | POST creates one that is not there |
| `DiscoveryConfig.DeploymentConfig.EnsureVariables` | pkg/manager/discovery_config_controller.go:205-263 | the object becomes the ensured one for some map order, and an update is sent exactly when it changed |
| `DiscoveryConfig.DeploymentConfig.RemoveVariables` | pkg/manager/discovery_config_controller.go:266-310 | the object becomes the one without the required variables, and an update is sent exactly when it changed |
| `DiscoveryConfig.EnsureMeaning` | pkg/manager/discovery_config_controller.go:205-263 | both required variables have the value true, every other entry stays where it was among the others |
| `DiscoveryConfig.EnsureIdempotent` | pkg/manager/discovery_config_controller.go:205-263 | ensuring twice, whatever the two map orders, is ensuring once |
| `DiscoveryConfig.RemoveUndoesEnsure` | pkg/manager/discovery_config_controller.go:266-310 | removing after ensuring leaves the same list, in order, as removing alone |
| `DiscoveryConfig.EnsureAfterRemove` | pkg/manager/discovery_config_controller.go:205-310 | ensuring after removing differs from ensuring alone only in the place of the two entries |
| `ConfigLaws.EnabledIs` | pkg/manager/discovery_config_controller.go:205-263 | enabling, spelled out: the two variables and the discovery namespace |
| `ConfigLaws.DisabledIs` | pkg/manager/discovery_config_controller.go:266-310 | disabling, spelled out: the two variables gone, the others as they were, and the default namespace |
| `AddonPlacements.Hub.Enable` | pkg/manager/discovery_config_controller.go:484-541 | the stored placements, the result and the update, for a missing add-on and failing calls |
| `AddonPlacements.Hub.Disable` | pkg/manager/discovery_config_controller.go:568-607 | the same for the removal |
| `AddonPlacements.EnableMeaning` | pkg/manager/discovery_config_controller.go:515-536 | the reference is added once, at the end of the first global placement, and no other placement changes |
| `AddonPlacements.DisableMeaning` | pkg/manager/discovery_config_controller.go:580-600 | that placement holds no reference any more and everything else is as it was |
| `AddonPlacements.DisableUndoesEnable` | pkg/manager/discovery_config_controller.go:484-607 | disabling after enabling restores the add-on exactly when it lacked the reference, and always equals disabling alone |
| `AddonPlacements.UselessUpdate` | pkg/manager/discovery_config_controller.go:513-540 | an update that changes nothing is sent exactly for an add-on without a global placement |
| `ConfigLaws.GlobalPlacementOnly` | pkg/manager/discovery_config_controller.go:484-607 | both edits with the placement and the reference spelled out |
| `AddonConfigMap.Hub.CreateOrUpdate` | pkg/manager/discovery_config_controller.go:313-397 | the stored data and the writes: none exactly when all but the timestamps is as desired |
| `AddonConfigMap.ImportValueOf` | pkg/manager/discovery_config_controller.go:854-861 | the first entry of that name, or not-set |
| `AddonConfigMap.VariablesPublished` | pkg/manager/discovery_config_controller.go:328-332 | each variable is published under its own key with its last value, and no fixed entry is overridden |
| `AddonConfigMap.PublishedIsDesired` | pkg/manager/discovery_config_controller.go:313-397 | afterwards the data outside the two timestamps is as desired, the creation time is kept, and so a second call writes nothing |
| `ConfigLaws.PublishedIs` | pkg/manager/discovery_config_controller.go:316-332 | every entry published, spelled out |
| `ConfigLaws.ImportIs` | pkg/manager/discovery_config_controller.go:854-861 | the import value is that of the first variable of its name, or not-set |
| `ConfigLaws.TimestampsAre` | pkg/manager/discovery_config_controller.go:340-392 | the two timestamps, spelled out |
| `Capacity.MaxFits` | pkg/agent/hcp_capacity_calculation.go:50-69 | a number fits every resource exactly when it is at most the formula's value, also where a cost is zero and its resource is there |
| `Capacity.CapacityIsMaximum` | pkg/agent/hcp_capacity_calculation.go:50-69 | n control planes fit every resource exactly when n is at most the figure; where the formula is infinite every n does |
| `SizingLaws.FigureInFull` | pkg/agent/hcp_capacity_calculation.go:50-69 | the same with every cost spelled out, for positive costs |
| `SizingLaws.TotalOf` | pkg/agent/hcp_capacity_calculation.go:150-165 | the nodes' capacities add up |
| `SizingLaws.GigabytesOf` | pkg/agent/hcp_capacity_calculation.go:165 | memory is counted in gigabytes |
| `SizingLaws.SamplesOf` | pkg/agent/hcp_capacity_calculation.go:112-119 | samples add up, one that cannot be read counting as the minimum |
| `SizingLaws.PlanesOf` | pkg/agent/hcp_capacity_calculation.go:98-122 | planes that are ready and answered count, with their samples |
| `Capacity.UndeterminedExactly` | pkg/agent/hcp_capacity_calculation.go:50-69 | with nothing negative the formula is NaN exactly when some cost and its resource are both zero |
| `Capacity.CalculateCapacities` | pkg/agent/hcp_capacity_calculation.go:148-185 | the node loop and the five figures published, for all costs; no figure where the value is not finite |
| `Capacity.CapacitiesOrdered` | pkg/agent/hcp_capacity_calculation.go:170-185 | request based >= low >= medium >= high load, no figure being no limit, for costs that are not negative and wherever none of the values is NaN |
| `Capacity.LoadLowersCapacity` | pkg/agent/hcp_capacity_calculation.go:50-69 | more load never raises the figure, and counting requests only never gives less |
| `Capacity.AddingANode` | pkg/agent/hcp_capacity_calculation.go:150-165 | adding a node never lowers a figure |
| `Capacity.AverageQps` | pkg/agent/hcp_capacity_calculation.go:92-128 | the average load as it is computed, starting from the minimum |
| `Capacity.AverageIsNotTheMean` | pkg/agent/hcp_capacity_calculation.go:92-128 | for every list of planes with at least one counted: that average exceeds the mean load by the minimum's share, and equals it exactly when the minimum is zero |

## Left out

- Kubernetes clients, informers, watches and event filters, and JSON and merge-patch encoding: objects are values and a call is an atomic step with a result. A nil and an empty map of labels or annotations are the same here.
- Writers that interfere between the calls of a single Reconcile, tick or handler; they act between them.
- Label keys and values are checked by the API server; the model relies only on keys being non-empty and free of commas.
- Case folding beyond ASCII in strings.EqualFold; the environment switches are fields of the configuration.
- TLS, HTTP transport, impersonation, permission checks, the cluster-proxy base URL and the discovery documents of the proxy.
- What a server adds to an object (resource versions, defaults, status, finalizers, admission by webhooks): a stored object is the one sent, and a deletion is immediate. A webhook that rejects is a refused request.
- Texts of errors and warnings: a warning is the name of its node pool.
- Lists come in the order of the names, as from an API server's storage; no statement depends on that order but the order of the bundle's node pools.
- The install job's pod spec and polling, the image stream's YAML, the contents of secrets beyond the keys that decide a branch, and the pull secret: steps that succeed or fail.
- Restarts of the agent: local copies of secrets outlive the hub's, so "applied equals hub" is proved for one process. The comparison with those copies is an input of the install.
- RunHypershiftCleanup, updateHyperShiftDeployment and updateExtDnsDeployment beyond being calls whose failure is only logged.
- Backoff.RunWithRetries: int64 overflow of the sleep and the distribution of the random source.
- Capacity.CalculateCapacities: does not model floating-point rounding, negative zero, or the integer that Go makes of an infinity or a NaN, which depends on the platform.
- Prometheus queries and metrics.
- updateSpecialAddOn and removeSpecialAddOnConfig (not inverse to each other), KlusterletConfig handling and its comparison of formatted maps, createOrUpdateDiscoveryAddonConfig.
- getOCPVersion, checkDeployments, cluster claims, thresholds, serving certificates, CLI downloads, auto-import, the kubeconfig watcher and the external secret controller, which would add easy members only.
