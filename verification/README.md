# Verified model of the migration center

The program migrates Kubernetes and Compose applications once, from a source to a
target. This project models the parts of it that carry guarantees: the protocols that
survive crashes, retries and concurrent runs, the rewriting of manifests, and the
evidence that is shown afterwards. Clusters, registries, the SSH host and the database
are abstract state; each call to one of them is one atomic action that may succeed,
fail, or take effect and still report failure. `dafny verify dfyconfig.toml` checks the
whole project.

| module | models |
|---|---|
| StorageMappings, StorageMappingProtocol, StorageMappingClient | the ConfigMap in which all runs share their storage-class mappings: the merge, the lock-free protocol over it, and its two retry loops |
| OciLayout, OciVerify, OciImport | an OCI image layout (OCI Image Format Specification: image layout, image index, image manifest), its verification, and its push into a registry ("Pushing Manifests" of the OCI Distribution Specification) |
| ComposeRunLog, ComposeExecutor | the Compose migration steps over their event log, with crashes between any two actions |
| ReplicaQuiesce | stopping, restoring and restarting Kubernetes workloads |
| WorkerRunner | job handler and heartbeat as two interleaved processes |
| NodeLabels, NodeSelection | renaming node labels in a map under iteration, and what that does to scheduling |
| ImagePrefixes, Manifests, ManifestRules, PostRestore | the rewrite of one manifest, what each mapping makes of it, and the update-then-verify loop after a restore |
| Topology, TopologyMerge, EvidencePrediction, ChangeEvidence, PlannedTopology, InventoryGraph, FaithfulTarget, ObservedEdges, EventPages | the graphs of source and target, the planned target, its agreement with the transform, what the comparison reports of a target that is exactly that, the edges that survive it, and paging of the event log |
| ComposeClaims, ComposeTransfers | claims shared between mounts, and the data transfers planned from them |
| ShellQuoting, KopiaCommand, KopiaHostScript | the shell quoting printers and the script they build, against sections 2.2, 2.3 and 2.6.3 of the POSIX.1-2017 Shell Command Language |
| PvcSizing | the size requested for a restored claim |
| Wrappers | optional and failing results |

Loops, classes and in-place edits of the source are methods, loops, classes and arrays
here; each is tied by its contract to a function or predicate, and the promises are
lemmas about those. Conditions a caller has to meet are preconditions named after what
they say (`WellConverted`, `Validated`, `Settled`, `OneDescriptorPerDigest`). Where a
promise holds only under a condition, the lemma is an equivalence with that condition.

## Where the code does less than it seems to promise

Each point has its exact condition, proved for all inputs, and where the failing inputs
are not plain from it a concrete one.

- Profile validation accepts node-label mappings whose target is the source of another
  mapping. The rewritten selector then depends on the iteration order of a Go map,
  exactly if a label it holds is mapped to such a source (`OrderDoesNotMatterIffNoChain`,
  `InPlaceRewriteIsRewrittenIff`, `ValidatedProfilesMayChain`).
- Profile validation accepts registry, ingress and NFS targets that are sources of
  other mappings. The check after a restore can then reject an object that was mapped
  as intended, exactly if mapping the stored object again changes it (`MapOne`,
  `FixpointIffSettled`).
- A required node affinity whose terms are all empty accepts no node; its rewrite is
  deleted and accepts every node (`RenamingPreservesScheduling`). A term that loses all
  its expressions is dropped, and with it the nodes that no other kept term accepts
  (`DroppingLosesTheNodeIff`, `DroppingATermCanLoseNodes`).
- README.md describes restoring the source as idempotent recovery. A crash after the
  source stopped and before that was recorded leaves it down, and so does a record
  beyond the first 500 events (`RollbackLeavesDownIff`, `StopWindow`).
- Delete, unlike Ensure, does not look at the managed-by label
  (`DeleteTakesUnmanagedConfigMaps`).
- A workload is found by its name or its service's label, but redirected by name only.
  It then goes on naming a claim that was removed, exactly if it named a replaced claim
  on which no data mount of a service of its own name is
  (`RemovedClaimsAreNamedIffAside`, `LabelledWorkloadsLoseTheirClaim`), and sources share
  claims as meant exactly if every mount follows its source
  (`OneClaimPerSourceIffAllFollow`).
- Repeated observation of a run that is not terminal stops counting unplanned resources
  (`ObservingAgainForgetsUnplanned`).
- A target that holds exactly the transformed objects can be reported as drifted. An
  autoscaler may name its workload under any API version; one that sorts after the
  listed one puts a node without attributes in its place. And an owner that is not
  listed is planned, but the transform removes the reference to it. There is no drift
  exactly if each object's changes can be seen on the last node of its name and no owner
  is lost (`NoDriftIff`, `AliasHidesTheImage`, `LostOwnerIsMissing`).
- What a target does not report is judged by what its source had, so a failed run can be
  shown healthy; the verdict is the target's own exactly if it reports what decides for
  its kind (`FailedRunShowsTheTargetIffDecisive`, `DownTargetCanLookHealthy`). A DaemonSet is never
  shown ready in a failed run (`DaemonSetsAreNeverReady`).
- Predicted and transformed API versions differ for some kinds. An edge of the target is
  then missing from the comparison, exactly if the prediction changes the version of an
  end; only references are affected (`EdgeSurvivesIffPredictable`,
  `AutoscalerEdgeIsLost`).
- Above 2^63 - 2^30 bytes of snapshot plus a quarter, the requested size wraps to two
  GiB (`RequestCoversSnapshotIffItFits`, `OverflowAsksForTwo`).
- An apply without overwrite that stopped can be repeated exactly if it had applied
  nothing (`RepeatableIffNothingApplied`).

## Model

| member | source | states |
|---|---|---|
| StorageMappings.MergeStorageMappingOwners | internal/adapter/kubernetes/execution.go:409-427 | In whatever order owners and entries are enumerated, the merge succeeds exactly when every owner decodes and no two owners disagree on a source; then it is the union of the owners, otherwise the error names a real culprit. |
| StorageMappings.MergeOneOwner | internal/adapter/kubernetes/execution.go:416-424 | Adding one owner keeps "merged so far is the union of the owners so far", or reports a source on which it disagrees with an earlier owner. |
| StorageMappings.UnionIsUnique | internal/adapter/kubernetes/execution.go:409-427 | A map that holds every owner's entries and nothing else is determined by the owners, so the order cannot matter. |
| StorageMappingProtocol.SharedDataIsTheMerge | internal/adapter/kubernetes/execution.go:107-146 | From an absent or managed consistent ConfigMap, after every interleaving of any number of Ensure and Delete calls, with lost and half-lost requests, data is the merge of all owners and owners agree. |
| StorageMappingProtocol.InvRun | internal/adapter/kubernetes/execution.go:94-188 | The compare-and-swap bookkeeping (what a call holds is what the server has unless another write came in between; how often it has retried) holds after every interleaving. |
| StorageMappingProtocol.AcceptedWriteIsConsistent | internal/adapter/kubernetes/execution.go:131-146 | Even over data written by somebody else, an accepted write leaves the ConfigMap gone or with data equal to the merge of its owners. |
| StorageMappingProtocol.EffectOfCurrentWrite | internal/adapter/kubernetes/execution.go:112-146 | An accepted write sets exactly the writer's contribution to what its call wants and keeps every other run's contribution. |
| StorageMappingProtocol.OnlyOwnCallsChangeContribution | internal/adapter/kubernetes/execution.go:131-186 | No step changes what a run contributes except an accepted write of that run's own call. |
| StorageMappingProtocol.SuccessMeansDone | internal/adapter/kubernetes/execution.go:107-186 | When a call reports success its run's contribution is what the call asked for at that moment. |
| StorageMappingProtocol.CompletedEnsureStays | internal/adapter/kubernetes/execution.go:107-146 | A completed Ensure is undone only by that run's own Delete: in every later state of every interleaving without one, its mappings are in its annotation and in data. |
| StorageMappingProtocol.ExhaustionNeedsFiveForeignWrites | internal/adapter/kubernetes/execution.go:107-147 | A call gives up with "exceeded conflict retries" only if at least five writes, none its own, were accepted while it was in progress. |
| StorageMappingProtocol.DeleteTakesUnmanagedConfigMaps | internal/adapter/kubernetes/execution.go:128-171 | Ensure refuses a ConfigMap without the managed-by label; Delete has no such check and removes one exactly when its remaining owners merge to nothing. |
| StorageMappingProtocol.UndisturbedEnsure | internal/adapter/kubernetes/execution.go:94-148 | In the protocol: a call nobody comes between refuses a ConfigMap that is not managed, or owners it does not agree with, and otherwise succeeds. |
| StorageMappingProtocol.UndisturbedDelete | internal/adapter/kubernetes/execution.go:150-188 | In the protocol: removing a contribution is refused exactly when the other owners disagree. |
| StorageMappingClient.ConfigMaps.EnsureVeleroStorageClassMappings | internal/adapter/kubernetes/execution.go:94-148 | The retry loop. Undisturbed and answered it succeeds exactly when the ConfigMap is absent, or managed with owners that agree with these mappings, and refuses each other case by its reason, writing nothing. Disturbed, a refusal still is about the ConfigMap that is there, a success leaves these mappings in a merge of all owners, every conflict before the fifth is followed by another read, an API error means a lost answer or a deleted ConfigMap, and giving up needs five foreign writes. |
| StorageMappingClient.ConfigMaps.DeleteVeleroStorageClassMappings | internal/adapter/kubernetes/execution.go:150-188 | The retry loop. Undisturbed and answered it succeeds exactly when the ConfigMap is absent or its other owners agree, and removes it exactly when they hold nothing. Disturbed, a success leaves no trace of the run and a merge of the others, every conflict before the fifth is followed by another read, and giving up needs five foreign writes. |
| StorageMappingClient.ConfigMaps.Write | internal/adapter/kubernetes/execution.go:131-146 | One guarded write: it is repeated only if another write was accepted since the read, and otherwise settles the run's contribution. |
| StorageMappingClient.OtherRunsInterfere | internal/adapter/kubernetes/execution.go:107-186 | What the retry loops assume of other runs is what every interleaving without a write of this run does to the server. |
| OciVerify.Verifier.VerifyDescriptorTree | internal/offline/registry.go:306-357 | The walk ends on every finite store, cyclic ones included; without an error it has marked the descriptor and only reachable ones, all sound; an error means something reachable is bad. |
| OciVerify.Verifier.VerifyManifest | internal/offline/registry.go:326-352 | A manifest passes exactly when config and layers are readable and the config names both os and architecture or neither. |
| OciVerify.FinishedWalkIsReachability | internal/offline/registry.go:306-357 | With one descriptor per digest, a finished walk has expanded exactly the descriptors reachable from the root. |
| OciVerify.ValidateOciLayout | internal/offline/registry.go:266-304 | With one descriptor per digest a layout is accepted exactly when version and single locked root fit, every reachable file is there with its size and, if a manifest, with config and layers, every config names os and architecture or neither, and the pairs named are the locked ones, each once. Otherwise acceptance still means a checked set of descriptors that begins at the root, is sound and closed but for digests met again, and has the locked platforms. |
| OciVerify.CheckedCoversReachable | internal/offline/registry.go:306-357 | If the descriptors of one digest agree on being an index, the digest of everything reachable was checked. |
| OciVerify.ListedIsReachable | internal/offline/registry.go:314-325 | What a reachable index lists is reachable. |
| OciVerify.ReachableIsListed | internal/offline/registry.go:314-325 | And nothing else is, apart from the root. |
| OciImport.Importer.PushDescriptor | internal/offline/registry.go:123-166 | Whatever a push stops at, every registry state so far was closed and no tag had moved; success means the descriptor and all it lists are present; a local error means something reachable is bad. |
| OciImport.Importer.PushBlob | internal/offline/registry.go:168-228 | A blob that is missing is uploaded, one that is there is skipped without another request, and exactly one of the two is counted. |
| OciImport.Importer.PushBlobs | internal/offline/registry.go:146-156 | After config and layers went up, the registry holds the config and every layer of the manifest and the counters grew by one more than the number of layers. |
| OciImport.Importer.PutManifest | internal/offline/registry.go:230-245 | A manifest is put only when everything it lists is there; with any outcome the registry stays closed. |
| OciImport.Importer.PutTag | internal/offline/registry.go:111-121 | The tag moves in the last request, onto a manifest whose content is present. |
| OciImport.Import | internal/offline/registry.go:83-121 | After every single request every held image manifest has its config and its layers among the blobs, every held index its children, every tag its manifest, if that was so before. With one descriptor per digest an acceptable layout is refused only if a request failed, and success means that everything reachable from the locked root is there with config and layers, each manifest sent once, tag last. |
| ComposeRunLog.SoundAfterAct | internal/migration/compose_executor.go:354-437 | Any remote action that takes effect keeps the record sound, a restore only if its snapshot was taken in the final phase after the stop and nothing was restarted. |
| ComposeRunLog.NoPreSyncSnapshotIsRestored | internal/migration/compose_executor.go:533-557 | No restore ever used a snapshot of a pre-sync helper. |
| ComposeRunLog.LatestFinalIsRecorded | internal/migration/compose_executor.go:1343-1362 | The final-snapshot map holds, for each key the visible events record, a snapshot they really record. |
| ComposeRunLog.LatestFinalIsLast | internal/migration/compose_executor.go:1343-1362 | Of several final snapshots of one key the last recorded counts. |
| ComposeRunLog.CountCheckComparesKeys | internal/migration/compose_executor.go:429-435 | In every sound state the two counts the transfer step compares agree exactly when final-snapshot keys and transfer keys are the same set. |
| ComposeRunLog.CompleteStaysComplete | internal/migration/compose_executor.go:429-435 | Once the keys are complete, nothing appended to the log makes them incomplete. |
| ComposeRunLog.StopWindow | internal/migration/compose_executor.go:381-384 | Stopping the source of a new run and crashing before its event leaves a sound state with the source down, which rollback leaves down. |
| ComposeRunLog.RollbackLeavesDownIff | internal/migration/compose_executor.go:592-616 | In a sound state with the source down, rollback leaves it down exactly when the stop is not among the events it sees. |
| ComposeExecutor.StepsAreInPlace | internal/migration/run_service.go:275-293 | Each step occurs once and in its place: preflight, pre-sync exactly if enabled, quiesce, final backup, transfer exactly if there is a volume mode, transform, restore, validation, cutover. |
| ComposeExecutor.RestoreComesAfterTheChecks | internal/migration/run_service.go:275-293 | Restore follows preflight and, with a volume mode, the transfer check. |
| ComposeExecutor.Executor.HandlePreSync | internal/migration/compose_executor.go:335-352 | A finished pre-sync has recorded a snapshot of every transfer. |
| ComposeExecutor.Executor.CreateKopiaSnapshot | internal/adapter/ssh/compose.go:392-406 | With helpers that outlive a worker, a final-phase snapshot that is returned was taken by a helper started after the stop. |
| ComposeExecutor.Executor.FinalSnapshots | internal/migration/compose_executor.go:1343-1362 | The loop over the first page computes the last recorded final snapshot of each key. |
| ComposeExecutor.Executor.SnapshotKeys | internal/migration/compose_executor.go:1364-1374 | The loop collects exactly the keys recorded for the phase. |
| ComposeExecutor.Executor.HandleQuiesce | internal/migration/compose_executor.go:354-385 | A finished quiesce with data has stopped the source and recorded it, whatever earlier attempts did. |
| ComposeExecutor.Executor.SnapshotVolumes | internal/migration/compose_executor.go:1294-1341 | A finished snapshot phase has a recorded snapshot of that phase for every transfer. |
| ComposeExecutor.Executor.HandleFinalBackup | internal/migration/compose_executor.go:387-411 | A finished final backup makes the recorded final keys complete as long as the log fits one page of 500 events. |
| ComposeExecutor.Executor.HandleTransfer | internal/migration/compose_executor.go:413-437 | A passed transfer step means the recorded final keys are exactly the transfer keys. |
| ComposeExecutor.Executor.HandleRestore | internal/migration/compose_executor.go:456-557 | A finished restore has restored every transfer's claim from a final snapshot the log records for it; with complete keys none is ever reported missing. |
| ComposeExecutor.Executor.HandleRollback | internal/migration/compose_executor.go:592-616 | A finished rollback leaves the source running exactly when it was running before or its stop is among the first 500 events; without a visible stop, or after a visible restart, it touches nothing. |
| ComposeExecutor.Executor.Execute | internal/migration/run_service.go:275-293 | Any run, with crashes and retries anywhere and rollbacks after it: every restore is justified and none misses a snapshot; a run that finishes has restored every transfer; and a run without failed action or crash, on a log of at most 500 events, finishes in nine attempts. |
| ReplicaQuiesce.Cluster.ScaleWorkloads | internal/adapter/kubernetes/execution.go:483-534 | Workloads are scaled one by one; whatever stops the call, a prefix of the requests took effect. |
| ReplicaQuiesce.VeleroRun.SnapshotSelected | internal/migration/velero_executor.go:363-388 | The selection loop snapshots exactly the selected listed workloads and asks to stop exactly those. |
| ReplicaQuiesce.VeleroRun.Quiesce | internal/migration/velero_executor.go:347-396 | After any partial attempt every workload has its original count or, if selected, zero, and the saved counts are original; success stops every selected workload; without volumes nothing is touched. |
| ReplicaQuiesce.VeleroRun.Rollback | internal/migration/velero_executor.go:424-441 | After any history a rollback that succeeds has restored every original count; without a failed request it succeeds, unless nothing was saved of a run with volumes. |
| ReplicaQuiesce.VeleroRun.AnyAttempts | internal/migration/velero_executor.go:347-442 | Any mixture of partial quiesce and rollback attempts stays recoverable. |
| ReplicaQuiesce.VeleroRun.StartTarget | internal/migration/velero_executor.go:543-560 | After the restore the target workloads get the original counts. |
| ReplicaQuiesce.ScalingKeepsRecoverable | internal/migration/velero_executor.go:424-434 | Any prefix of requests that stop saved workloads or restore saved counts keeps the counts recoverable. |
| ReplicaQuiesce.RestoringSavedCountsRestoresAll | internal/migration/velero_executor.go:731-741 | Restoring every saved count restores every original count. |
| ReplicaQuiesce.OverwritingLosesEveryCount | internal/migration/velero_executor.go:376-388 | A store that overwrote saved counts on retry would make rollback leave every selected workload at zero. |
| WorkerRunner.ExactlyOneOutcome | internal/worker/runner.go:97-152 | In every interleaving of handler and heartbeat that ends, one message was sent and received; exactly one of Complete, Retry, Fail is called if no heartbeat failure was delivered and none otherwise, Fail exactly for a failing attempt that reached the maximum. |
| WorkerRunner.LeaseIsLostIff | internal/worker/runner.go:154-175 | processOne receives an error exactly when some heartbeat failed while the context was live. |
| WorkerRunner.LossCancelsFirst | internal/worker/runner.go:163-171 | An error that is sent or waits was preceded by the cancellation of the context. |
| WorkerRunner.InvRun | internal/worker/runner.go:97-175 | The channel never holds more than its one message and the message is sent exactly once, in every interleaving. |
| WorkerRunner.SomebodyCanMove | internal/worker/runner.go:154-175 | Once the handler has returned somebody can always move, and the send never blocks. |
| WorkerRunner.CancelledRunsAreShort | internal/worker/runner.go:118-124 | After cancellation every interleaving is shorter than a bound, so processOne never blocks for ever. |
| WorkerRunner.MaximalRunsFinish | internal/worker/runner.go:97-152 | An interleaving that cannot be continued has finished processOne. |
| WorkerRunner.DecisionFollowsHandler | internal/worker/runner.go:119-151 | The store call is decided by what the handler returned, which it does once. |
| NodeLabels.OrderDoesNotMatterIffNoChain | internal/transform/rules.go:293-312 | Every legal Go iteration order, produced or skipped new entries included, gives the one simultaneous renaming exactly when no present label is mapped onto a label that is a source itself. |
| NodeLabels.ValidatedProfilesMayChain | internal/domain/mapping/model.go:145-173 | Profile validation does not exclude such a chain: a validated profile whose result depends on the order. |
| NodeLabels.AChainCanLoseItsTarget | internal/transform/rules.go:293-303 | Every chain has an order in which the renamed label is lost or renamed again. |
| NodeLabels.ValidatedHasDistinctTargets | internal/domain/mapping/model.go:145-173 | Validated label mappings never send two labels to one. |
| NodeLabels.LabelMap.Rewrite | internal/transform/rules.go:293-303 | The loop that deletes from and inserts into the map it ranges over performs one of the legal orders, and without chains the simultaneous renaming. |
| NodeLabels.LabelMap.Turn | internal/transform/rules.go:294-302 | One turn of the loop, with Go's bookkeeping of removed and created entries. |
| NodeSelection.RewriteRequirements | internal/transform/rules.go:359-381 | Compaction over the front of the list it reads leaves exactly the surviving requirements, renamed, in order. |
| NodeSelection.RewriteTerms | internal/transform/rules.go:341-357 | Compaction leaves exactly the terms in which something survives. |
| NodeSelection.RewritePreferred | internal/transform/rules.go:320-336 | Compaction leaves exactly the preferences in which something survives, with their weights. |
| NodeSelection.RewriteConstraints | internal/transform/rules.go:189-208 | Compaction leaves exactly the topology constraints whose key is not dropped, renamed. |
| NodeSelection.PodSpec.ApplyNodeLabelMapping | internal/transform/rules.go:172-211 | The in-place rewrite leaves podAffinity and podAntiAffinity as they are and, in order, exactly those terms, preferences (with their weights) and spread constraints of which something is not dropped, renamed; nothing is left empty; only a chained selector depends on the order. |
| NodeSelection.UnnamedStaysIffTidy | internal/transform/rules.go:172-211 | A placement of which the profile names nothing stays as it is exactly when it holds no empty list, term or map. |
| NodeSelection.ScoreAfterwards | internal/transform/rules.go:319-336 | With the rewritten preferences the renamed node scores what is left of its score: the weights of preferences that keep something and hold apart from what they drop. |
| NodeSelection.ScoreIsKept | internal/transform/rules.go:319-336 | With labels only mapped, every node keeps its preference score under its new labels. |
| NodeSelection.RenamingPreservesScheduling | internal/transform/rules.go:172-211 | With labels only mapped, one to one on those in play, a renamed node satisfies the rewritten Pod exactly when the node satisfied the Pod, if and only if there is no required affinity, or a non-empty term, or a selector that rejects the node. |
| NodeSelection.AcceptedAfterwardsIff | internal/transform/rules.go:172-383 | Whatever is mapped or dropped, a renamed node satisfies the rewritten Pod exactly when it satisfied what is not dropped of the selector, and what is not dropped of some term or nothing is left of the requirement. |
| NodeSelection.DroppingLosesTheNodeIff | internal/transform/rules.go:341-383 | A node that satisfied the Pod still does exactly when there is no required affinity, or nothing of it is kept, or a term that keeps something accepts the node apart from what is dropped; otherwise the drop loses it. |
| NodeSelection.InPlaceRewriteIsRewrittenIff | internal/transform/rules.go:172-211 | Every Pod the in-place rewrite can leave is the rewritten one exactly when the selector holds no chain. |
| NodeSelection.InPlaceRewritePreservesScheduling | internal/transform/rules.go:172-211 | For a selector without chains the equivalence on preserved scheduling is about the Pod the method leaves. |
| NodeSelection.AcceptedNodesStayAccepted | internal/transform/rules.go:313-383 | With drops, a node accepted through a term that keeps a requirement is still accepted. |
| NodeSelection.DeadRequirementVanishes | internal/transform/rules.go:313-357 | A requirement with only empty terms accepts no node, and its rewrite accepts every node. |
| NodeSelection.DroppingATermCanLoseNodes | internal/transform/rules.go:341-357 | A concrete Pod, node and drop for which a dropped term loses the node. |
| NodeSelection.PlacementTwice | internal/transform/rules.go:172-211 | Without chains the rewrite of the scheduling fields is a fixpoint of itself. |
| ImagePrefixes.RewritingTwiceIsOnceIffSettled | internal/transform/rules.go:263-271 | For non-overlapping sources, rewriting every image twice is rewriting it once exactly when each source that overlaps some target is mapped to itself. |
| ImagePrefixes.UsesTheOnlyRule | internal/domain/mapping/model.go:112-130 | With the validated non-overlap, the one matching rule is used wherever it stands in the list. |
| Manifests.FirstIsLast | internal/migration/evidence_service.go:916-923 | The predictor's first-match lookup and the transform's last-wins map agree for unique sources. |
| Manifests.BuildKeyValueMap | internal/transform/rules.go:256-262 | The loop builds the last-wins map. |
| Manifests.FoundNfs | internal/transform/rules.go:237-247 | An NFS mapping is found exactly when one has this source, and it is one of them. |
| Manifests.Unstructured.ApplyNamespaceMapping | internal/transform/rules.go:101-125 | Namespace, name of a Namespace and ServiceAccount subjects are mapped, nothing else. |
| Manifests.Unstructured.ApplyStorageMapping | internal/transform/rules.go:127-138 | The class and every claim template's class are mapped, nothing else. |
| Manifests.Unstructured.ApplyIngressMapping | internal/transform/rules.go:140-151 | On an Ingress, class field and class annotation are mapped, nothing else. |
| Manifests.Unstructured.ApplyRegistryMapping | internal/transform/rules.go:153-170 | Every image of the Pod template is rewritten, nothing else. |
| Manifests.Unstructured.ApplyNodeLabelMapping | internal/transform/rules.go:172-211 | Only the scheduling fields of a Pod template change, those other than the selector as the in-place rewrite leaves them; only a chained selector is left open. |
| Manifests.Unstructured.ApplyNfsMapping | internal/transform/rules.go:213-235 | Every NFS volume, and a PersistentVolume with its storage class, is mapped, nothing else. |
| Manifests.Unstructured.ApplyPostRestoreMappings | internal/transform/engine.go:152-157 | The four mutable mappings in order. |
| ManifestRules.NamespaceRule | internal/transform/rules.go:101-125 | Namespace, name of a Namespace and namespaces of ServiceAccount subjects become the target of their mapping, or stay without one; nothing else changes. |
| ManifestRules.StorageRule | internal/transform/rules.go:127-138 | The same for the class and every class of a claim template. |
| ManifestRules.IngressRule | internal/transform/rules.go:140-151 | The same for class field and class annotation of an Ingress; other kinds and annotations stay. |
| ManifestRules.ImageRule | internal/transform/rules.go:263-271 | The one rule that leads an image up to a slash or its end, written with or without a slash, replaces exactly that part. |
| ManifestRules.OtherImagesStay | internal/transform/rules.go:263-271 | An image no rule leads stays. |
| ManifestRules.RegistryRule | internal/transform/rules.go:153-170 | Of Pods and the kinds that run them only the images change, of all containers. |
| ManifestRules.NfsRule | internal/transform/rules.go:213-247 | A PersistentVolume with a mapping takes its export and its class, if it names one; volumes of a Pod template take the exports; every other class and export stays. |
| ManifestRules.NodeLabelRule | internal/transform/rules.go:172-211 | Of a Pod template only the scheduling fields change. |
| PostRestore.FixpointIffSettled | internal/transform/engine.go:152-157 | For a validated profile, mapping every object twice is mapping it once exactly when no registry, ingress, label or NFS target meets a source that is moved elsewhere. |
| PostRestore.SettledIsAFixpoint | internal/transform/engine.go:152-157 | Under a settled profile the mapped object is not changed by mapping it again. |
| PostRestore.FieldByField | internal/transform/rules.go:140-235 | The four rules touch different fields, each exactly once. |
| PostRestore.Collection.MapOne | internal/adapter/kubernetes/post_restore_mapping.go:53-71 | One object: updated only if mapping changes it, and after an update accepted exactly when mapping the stored object again leaves it alone, which a sound profile ensures. |
| PostRestore.Collection.MapAll | internal/adapter/kubernetes/post_restore_mapping.go:53-71 | One resource type: on success all are examined and Verified equals Updated equals the number of objects the mapping changes; for a sound profile the check never rejects. |
| PostRestore.ApplyPostRestoreMappings | internal/adapter/kubernetes/post_restore_mapping.go:44-74 | Over all resource types: a type the server does not serve is skipped, a failed listing or update stops, nothing else does for a sound profile; then success maps every listed object, and a failed call has only mapped some. |
| PostRestore.RetryReachesTheSameObjects | internal/adapter/kubernetes/post_restore_mapping.go:44-74 | Whatever a failed call left behind, a later success gives what mapping the original objects gives. |
| PostRestore.SuccessLeavesNothingToDo | internal/adapter/kubernetes/post_restore_mapping.go:53-71 | After a success a further call updates nothing. |
| EvidencePrediction.PredictionAgreesWithTransform | internal/migration/evidence_service.go:569-648 | If the target object is what the transform makes of the source, planned and observed node have one identity and every planned namespace, storage, ingress, image, node-label and NFS change is reported applied. |
| EvidencePrediction.TransformedFields | internal/transform/engine.go:138-163 | What the whole transform does to each field the inventory shows, owners included. |
| EvidencePrediction.ImageChangesShow | internal/adapter/kubernetes/inventory.go:610-626 | Every planned image change shows among the target's images. |
| EvidencePrediction.LabelChangesShow | internal/migration/evidence_service.go:977-984 | Every planned label change shows in the target's selector, dropped ones by their absence. |
| EvidencePrediction.NfsChangesShow | internal/adapter/kubernetes/inventory.go:269-282 | Every planned NFS change shows among the target's exports. |
| EvidencePrediction.ExportsAreUnambiguous | internal/migration/evidence_service.go:640-646 | Server and absolute export can be read back from their concatenation when no server name holds a slash. |
| EvidencePrediction.UniqueSortedKeepsMembers | internal/adapter/kubernetes/client.go:401-416 | Sorting without duplicates keeps exactly the non-empty values. |
| EvidencePrediction.UniqueSortedAscends | internal/adapter/kubernetes/client.go:401-416 | The result is strictly ascending, so without duplicates. |
| EvidencePrediction.CollectPodImages | internal/adapter/kubernetes/inventory.go:610-626 | The loops collect the sorted distinct images of all containers. |
| EvidencePrediction.CollectPodNfsSources | internal/adapter/kubernetes/inventory.go:269-282 | The loop collects the sorted distinct exports of all volumes. |
| EvidencePrediction.CollectImageChanges | internal/migration/evidence_service.go:617-628 | The loop lists a change for each image the rewrite moves. |
| EvidencePrediction.CollectLabelChanges | internal/migration/evidence_service.go:629-639 | The loop lists a change for each mapping whose source the selector uses. |
| EvidencePrediction.CollectNfsChanges | internal/migration/evidence_service.go:640-646 | The nested loops list a change for each export and mapping that match. |
| ChangeEvidence.NothingUnappliedIffShown | internal/migration/evidence_service.go:957-998 | For any object found in the planned place no planned change counts as drift exactly when it shows every moved image, every mapped class, export and selector label, and no dropped label. |
| ChangeEvidence.UnmovedImageDrifts | internal/migration/evidence_service.go:671-689 | A target without the moved image is FAILED and drifts. |
| ChangeEvidence.ShownFieldsAre | internal/adapter/kubernetes/inventory.go:235-282 | The images of all containers, the exports with server and path, and the selector of the five workload kinds are shown. |
| ChangeEvidence.ImagesAreAnnounced | internal/migration/evidence_service.go:617-628 | A container image the transform changes has its planned change. |
| ChangeEvidence.LabelsAreAnnounced | internal/migration/evidence_service.go:629-639 | A selected label that goes or comes with the transform has its planned change. |
| ChangeEvidence.ExportsAreAnnounced | internal/migration/evidence_service.go:640-646 | An export the transform changes has its planned change. |
| ChangeEvidence.ClassesAreAnnounced | internal/migration/evidence_service.go:571-616 | A namespace, storage class or ingress class the transform changes has its planned change. |
| PlannedTopology.BuildKubernetesTarget | internal/migration/evidence_service.go:442-469 | The planned graph: one planned node for each source node, one edge for each source edge between source nodes. |
| PlannedTopology.PlannedEdgesStayInside | internal/migration/evidence_service.go:459-466 | No planned edge dangles, and as many are planned as source edges run between source nodes. |
| FaithfulTarget.NoDriftIff | internal/migration/evidence_service.go:322-350 | End to end: a target that holds exactly the transformed objects shows no drift if and only if what is planned for each listed object can be seen on whichever node of its kind and name comes last in the order of IDs, and, once the run promises every resource, each owner the transform cuts off is still listed or referred to. |
| FaithfulTarget.FaithfulTargetShowsNoDrift | internal/migration/evidence_service.go:650-724 | If no dependency names a listed object under another version and no owner is lost, a faithful target shows zero drift for every run status, and all planned resources SUCCEEDED for a completed run. |
| FaithfulTarget.AliasHidesTheImage | internal/adapter/kubernetes/inventory.go:525-528 | A faithful target that is reported as drifted for every run status: an autoscaler names its Deployment under a version that sorts after apps/v1. |
| FaithfulTarget.LostOwnerIsMissing | internal/transform/engine.go:161-163 | A faithful target that is reported as drifted once the run promises every resource: a ConfigMap was owned by a Pod. |
| FaithfulTarget.ObservedIsLast | internal/migration/evidence_service.go:650-654 | In a graph sorted by ID the node found for a kind, namespace and name is the one whose ID comes last. |
| FaithfulTarget.ObjectDriftsIff | internal/migration/evidence_service.go:671-689 | The node planned for a listed object is free of drift exactly when its changes can be seen on the node that comes last. |
| FaithfulTarget.OwnerIsThereIff | internal/adapter/kubernetes/inventory.go:467-469 | A planned owner is matched by a node of the target exactly when it is listed or something the transform keeps refers to it. |
| FaithfulTarget.BareShowsIff | internal/migration/evidence_service.go:958-995 | Of the changes planned for an object, a node without attributes shows those of place and version and the dropped labels, and no others. |
| InventoryGraph.GraphNodesAre | internal/migration/evidence_service.go:367-440 | Every node of a graph stands for a listed object, a class or a dependency that no other node stands for. |
| InventoryGraph.OneNodePerId | internal/migration/evidence_service.go:424-434 | In the graph of one application an ID names one node. |
| InventoryGraph.ByIdSorts | internal/migration/evidence_service.go:1047-1050 | Sorting by the text of the ID leaves the same nodes, in order. |
| InventoryGraph.DependenciesMove | internal/transform/rules.go:101-125 | The transform removes an object's owners and moves each other dependency, the subjects of a role binding among them, with its namespace. |
| InventoryGraph.DependencyIsPlanned | internal/migration/evidence_service.go:442-456 | A dependency is planned with the kind, namespace and name it has on the target. |
| ObservedEdges.EdgeSurvivesIffPredictable | internal/migration/evidence_service.go:709-722 | For a target that is exactly the transform of the source, an edge of the target is in the merged graph exactly when the predicted API version of each end is the one it has; the listed end always passes. |
| ObservedEdges.ReferenceSurvivesIff | internal/migration/evidence_service.go:933-941 | What a target object depends on, in its own namespace, in another or in none, has a node in the merged graph exactly when the prediction leaves its API version alone. |
| ObservedEdges.PredictableMeans | internal/migration/evidence_service.go:933-941 | The prediction changes the old versions of Ingress, Deployment, StatefulSet and DaemonSet, and no others. |
| ObservedEdges.AutoscalerEdgeIsLost | internal/adapter/kubernetes/inventory.go:526-526 | An autoscaler that names its Deployment under apps/v1beta2 loses that edge, for every run status. |
| InventoryGraph.BuildNodes | internal/migration/evidence_service.go:367-440 | The loops add a node for each dependency that no node stands for yet. |
| TopologyMerge.MergeObservedTopology | internal/migration/evidence_service.go:650-724 | The loops compute the merged nodes, the kept edges and the drift count. |
| TopologyMerge.MergeExpected | internal/migration/evidence_service.go:651-690 | The loop over the planned nodes merges each with the last observed node of its identity and remembers what was seen. |
| TopologyMerge.MergeOne | internal/migration/evidence_service.go:671-689 | Each change is judged, one unapplied change makes the node FAILED, and each counts once. |
| TopologyMerge.DriftCountsExactly | internal/migration/evidence_service.go:650-724 | The drift is the number of absent planned nodes (terminal or awaiting cutover) plus unapplied changes plus unplanned resources. |
| TopologyMerge.UnplannedMeans | internal/migration/evidence_service.go:768-786 | A found resource counts as unplanned unless it was planned, carries the label or a name prefix of the migration, is a StorageClass, the default ServiceAccount or the root certificate ConfigMap. |
| TopologyMerge.StatusMeans | internal/migration/evidence_service.go:662-689 | The status of a planned node: missing, failed for an unapplied change, succeeded, warned if not healthy in a failed or cancelled run, created otherwise. |
| TopologyMerge.EdgeStatusMeans | internal/migration/evidence_service.go:1032-1046 | When an edge is FAILED, WARNING or SUCCEEDED, by the statuses of its ends. |
| TopologyMerge.NothingIsLost | internal/migration/evidence_service.go:691-708 | Every planned node is kept once and in place; of the observed ones only helper resources go missing. |
| TopologyMerge.EdgesStayInside | internal/migration/evidence_service.go:709-722 | No edge of the result dangles, no observed edge between kept nodes is lost, each carries the status of its ends. |
| TopologyMerge.ZeroDriftIffAllSucceeded | internal/migration/evidence_service.go:662-708 | For a completed run, zero drift exactly when every planned node is SUCCEEDED and everything else kept is a skipped generated resource. |
| TopologyMerge.ObservingAgainForgetsUnplanned | internal/migration/evidence_service.go:75-87 | A second observation of the same target no longer counts the unplanned resources, because the first result is the next expectation. |
| TopologyMerge.VerdictIsTheTargetsIffDecisive | internal/migration/evidence_service.go:671-751 | The health verdict on the merged attributes is that on the target's own, for every source the inventory can list, exactly when the target reports the counts, or the phase, that decide for its kind. |
| TopologyMerge.FailedRunShowsTheTargetIffDecisive | internal/migration/evidence_service.go:671-679 | In a failed or cancelled run the status of a matched node without changes is that of the target, whatever its source was, exactly under that condition. |
| TopologyMerge.DaemonSetsAreNeverReady | internal/migration/evidence_service.go:726-745 | In a failed or cancelled run every matched DaemonSet is shown as WARNING, or FAILED for an unapplied change: the inventory reads none of the counts it is judged by. |
| TopologyMerge.DownTargetCanLookHealthy | internal/migration/evidence_service.go:671-679 | A Deployment that is down on the target and shown as SUCCEEDED in a failed run. |
| TopologyMerge.IdsAfterwards | internal/migration/evidence_service.go:691-708 | The IDs of the result are the planned ones and those of kept resources nobody planned. |
| EventPages.AllEvents | internal/migration/evidence_service.go:845-859 | While others append, paging returns a prefix of the log that holds everything logged before the call; it fails only if a query fails. |
| EventPages.EventStore.ListEvents | internal/repository/postgres/migration.go:357-387 | The store contract: the events after an ID, in order, up to the limit. |
| EventPages.OnePageIsTheLogIffShort | internal/migration/compose_executor.go:403-403 | One page of 500 events, as the Compose steps read it, is the log exactly up to 500 events. |
| ComposeClaims.Conversion.NormalizeSharedClaims | internal/migration/compose_executor.go:1042-1094 | The nested loops over services and mounts, editing documents in place, compute the normalised documents or fail on an unresolvable mount. |
| ComposeClaims.Conversion.ShareClaim | internal/migration/compose_executor.go:1052-1082 | One mount: it sets the claim of its source, has it already, or is redirected to it. |
| ComposeClaims.Conversion.RedirectClaims | internal/migration/compose_executor.go:1065-1080 | In every workload of the name, exactly the volumes on the one claim move to the other. |
| ComposeClaims.Conversion.DropClaims | internal/migration/compose_executor.go:1084-1093 | Exactly the removed claims go, everything else stays in order. |
| ComposeClaims.RunRepresents | internal/migration/compose_executor.go:1042-1083 | After all mounts, each workload volume names what the closed form says: the first claim of its source if a mount of the service of its name started on it. |
| ComposeClaims.OneClaimPerSource | internal/migration/compose_executor.go:1042-1094 | If all mounts follow, two mounts are on one claim after normalisation exactly when they have the same type and cleaned source. |
| ComposeClaims.OneClaimPerSourceIffAllFollow | internal/migration/compose_executor.go:1042-1094 | Normalisation gives each source one claim of its own exactly when each mount follows: it starts on its source's claim, or a workload of the name it is resolved in is redirected. |
| ComposeClaims.NormalizedResolution | internal/migration/compose_executor.go:1183-1218 | After normalisation a mount is on the first claim of its source if it follows, and on its own claim otherwise. |
| ComposeClaims.NamedMountsFollow | internal/migration/compose_executor.go:1067-1080 | Mounts resolved in a workload of their service's name follow. |
| ComposeClaims.NamedOrOneToOneIsUnmixed | internal/migration/compose_executor.go:1183-1218 | Documents that name workloads after services, or give each service one workload and each workload one service, meet the precondition on names. |
| ComposeClaims.RemovedClaimsAreNamedIffAside | internal/migration/compose_executor.go:1084-1093 | Exactly the replaced claims are removed, and a workload names a removed claim if and only if it named one on which no data mount of a service of its own name is; workloads with just the label are covered. |
| ComposeClaims.LabelledWorkloadsLoseTheirClaim | internal/migration/compose_executor.go:1067-1067 | Concrete well-converted documents in which a workload with just the label keeps naming a removed claim. |
| ComposeClaims.CurrentClaim | internal/migration/compose_executor.go:1183-1218 | Where targetClaimForMount finds a mount in half-normalised documents. |
| ComposeClaims.MountIsOn | internal/migration/compose_executor.go:1183-1218 | A mount is on the claim that the first workload of its service, by name or label, has at its path: last container, first mount point, first volume of that name. |
| ComposeClaims.ItemsAre | internal/migration/compose_executor.go:1046-1050 | The data mounts are the bind mounts and volumes of every service. |
| ComposeTransfers.ComposeTransfers | internal/migration/compose_executor.go:1130-1181 | The loop computes the planned transfers, or the first error, in order. |
| ComposeTransfers.PlanIffAllHaveClaimAndPath | internal/migration/compose_executor.go:1143-1181 | There is a plan exactly when every data mount has a claim and a path, and then all their claims are in it. |
| ComposeTransfers.RuntimeNameOf | internal/migration/compose_executor.go:1134-1145 | Docker knows the last declaration of a volume by its runtime name, or else by its name, with the project in front unless it is external. |
| ComposeTransfers.PathIs | internal/migration/compose_executor.go:1156-1174 | A volume is read under its runtime name, a bind mount at its cleaned absolute path; anything else is an error. |
| ComposeTransfers.OneTransferPerSource | internal/migration/compose_executor.go:1130-1181 | If all mounts follow, the plan after normalisation has exactly one transfer for every distinct source, with distinct claims, each the one its source's first mount asks for. |
| ComposeTransfers.PlansHaveDistinctKeys | internal/migration/compose_executor.go:1101-1177 | Every plan has the distinct non-empty keys the transfer step's count check rests on. |
| ShellQuoting.QuotedReadsBackIffNulFree | internal/adapter/ssh/compose.go:481-483 | A shell reads a quoted value back as that one word exactly if it holds no NUL. |
| ShellQuoting.QuoteReads | internal/adapter/kubernetes/kopia.go:193-193 | In the middle of a word a quoted value adds exactly its characters. |
| ShellQuoting.LiteralIsInjective | internal/adapter/ssh/compose.go:481-483 | Two values read as the same word only if they are the same. |
| ShellQuoting.JoinShellArgs | internal/adapter/kubernetes/kopia.go:185-191 | The loop prints each argument quoted, separated by blanks. |
| ShellQuoting.JoinedReadsBackIffNulFree | internal/adapter/kubernetes/kopia.go:185-193 | Joined arguments read back as exactly the original list if and only if none holds a NUL. |
| ShellQuoting.JoinReads | internal/adapter/ssh/compose.go:392-400 | Plain prefixes followed by quoted values read as one word each. |
| KopiaHostScript.ArgumentsSurviveBothShells | internal/adapter/ssh/compose.go:366-407 | The whole script sent to the host is read with its command substitutions: the host's shell passes on name, identity, every value and the helper's script as one word each, and the helper's shell reads every repository argument and tag out of it. |
| KopiaHostScript.RunWordsAre | internal/adapter/ssh/compose.go:379-400 | The words of docker run and the repository arguments, in order. |
| KopiaHostScript.InnerIs | internal/adapter/ssh/compose.go:387-391 | The text of the helper's script between the quoted values. |
| KopiaHostScript.HostScriptIs | internal/adapter/ssh/compose.go:402-406 | The text of the host's script between the quoted values. |
| KopiaCommand.InnerReads | internal/adapter/ssh/compose.go:382-389 | The helper's shell reads the repository arguments three times, unchanged, and both tags. |
| PvcSizing.RequestCoversSnapshotIffItFits | internal/migration/compose_executor.go:485-505 | The request holds the snapshot and a quarter more exactly when that fits into 64 bits or the claim was large enough; it is raised only if necessary and then to the least whole GiB, two at least. |
| PvcSizing.NeededIsLeast | internal/migration/compose_executor.go:497-500 | Below the bound the 64-bit computation gives the least sufficient number of GiB without overflow. |
| PvcSizing.OverflowAsksForTwo | internal/migration/compose_executor.go:497-500 | Above the bound the sum wraps and only two GiB are asked for. |
| PvcSizing.TargetClaims.Apply | internal/adapter/kubernetes/apply.go:64-110 | One apply, stopped anywhere, leaves a prefix applied and never shrinks a claim; without overwrite and without a failing patch it is refused at the first claim that exists or is listed twice, and succeeds exactly when there is none; it is cut short exactly when a patch fails. |
| PvcSizing.TargetClaims.ApplyRepeatedly | internal/adapter/kubernetes/apply.go:92-123 | No sequence of applies, failed ones included, shrinks a claim, and every successful one is covered. |
| PvcSizing.MeetsAnExistingClaimIffClash | internal/adapter/kubernetes/apply.go:83-91 | A call that gets to a claim finds it in the cluster exactly when it was there before or stands earlier in the same list. |
| PvcSizing.RepeatableIffNothingApplied | internal/adapter/kubernetes/apply.go:83-91 | A list new to the cluster is new again after a call that stopped, so that it can be repeated without overwrite, exactly when the call had applied nothing. |
| PvcSizing.AppliedGrows | internal/adapter/kubernetes/apply.go:114-123 | Keeping the larger request means no claim shrinks and every desired size is reached. |

## Left out

- HTTP handlers, command line, web interface, reports and deployment: no guarantees of the kind modelled here.
- Real clients (client-go, Helm, S3, registries, SSH, Velero): only their effects, as abstract actions.
- Hashes and codecs: digests and annotation keys are taken to be collision-free (the annotation key is a truncated hash), JSON and YAML to be faithful.
- PostgreSQL: its contracts are assumed, namely that the first saved replica count of a workload is kept (internal/repository/postgres/migration_progress.go:113-129) and that events come back in the order of their IDs; IDs that commit out of order are not modelled.
- Leases: a handler whose lease was lost and that still runs beside the next attempt; attempts are taken one after the other, with any prefix of their effects. A remote command that takes effect only after its worker crashed.
- Timeouts, tickers and polling: only as free choice of what happens next. A heartbeat with a cancelled context is assumed to fail.
- The order of result lists that are sorted at the end and only read as sets (edges, profile mappings); the order of graph nodes is modelled, as the last one of a name wins.
- Nested maps of a manifest: the list compactions are done in place on arrays, other fields are values of one object that is replaced; aliasing between nested maps is not captured. A missing annotation map and a non-string field are not told apart from an empty one.
- Kompose and the Compose loader: the converted documents are an input. Path cleaning and the absolute-path test are fields of a mount.
- Comments, and subshells inside a command substitution, are not read by the modelled shell; the validation of the values in the Kopia command is left out, except that they hold no NUL.
- Conversion of ingress backends and workload selectors, and removal of runtime fields other than owner references and the two annotations: of those the evidence shows only the counts and phases of the status, which do not bear on drift.
- Evidence of Compose applications and of event results: further nodes and edges of the same shape. Which references an object's Pod template, backends, selectors and role hold is an input, and the transform is taken to leave it alone. Names in keys and identifiers are taken not to hold the separator.
- API-server defaulting and admission between an update and its answer, and other writers of the restored namespace.
- Assessment, plan preflight, diagnosis texts, credentials and redaction.
- ExactlyOneOutcome: speaks of the calls made, not of what the job store does with a call that fails.
- ValidateOciLayout: where one digest is listed both as an index and as something else, what only the listing that was not expanded leads to is not checked; the source marks digests, not descriptors.
- Import: assumes references lead to smaller ranks, which is what content addressing gives without collisions, and for its stronger half that equal digests come with equal descriptors.
- NoDriftIff: asks for what profile validation gives, and that NFS exports are absolute, server names hold no slash, a selector holds no chain, only claims depend on a StorageClass, an owner is looked for in the object's namespace, and no custom resource has a version that the prediction or the transform changes.
- PredictionAgreesWithTransform: asks that the selector holds no chain, as the transform's result is otherwise not determined.
- RunRepresents: asks that a workload named after one service does not stand for another that has a workload of its own name (`Unmixed`); documents named after their services and label-only documents with one workload per service meet it.
- HandleRestore: rendering, resizing and applying the manifests is one event in front of the data jobs (`ApplyManifests`); the sizes are in PvcSizing.
