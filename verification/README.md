# Certificate rotation of one control plane node

A model of cert-rotator, the controller that runs as one pod per control plane node and
renews the node's certificates, and proofs about it. A rotation reads the certificates, backs them
up, replaces those that are due, restarts the four static pods, checks their health and, when
anything fails, restores the backup. Its progress is reported in the node's entry of one
`CertRotationConfig` resource that all pods share.

`dafny verify dfyconfig.toml` checks the whole project.

## How failures are modelled

Every call that leaves the program (a file operation, a status patch, a key generation, a health
check) takes the next entry of a script of fates: it succeeds, is refused, fails half way, or the
process dies there. A script that has run out means the process died. The theorems hold for all
scripts, so for every combination of failures and every crash point.

Imperative code is modelled as methods of classes that update the machine, the resource, the state
and the state file in place. Each method is proved equal to a function on values (`CreateEffect`,
`RenewAll`, `RollbackAllEffect`, `ReconcileEffect` and so on), and the theorems are about these
functions.

| file | contents |
|---|---|
| `Host.dfy` | the node's files, directories and fates |
| `MergePatch.dfy`, `Status.dfy`, `Conditions.dfy`, `Cluster.dfy`, `ClusterLaws.dfy` | JSON merge patches, the status and its encoding, the cluster summary, many pods patching one document |
| `ConfigObject.dfy` | the resource in memory: deep copies, and the helpers that change it in place |
| `Backup.dfy`, `BackupLaws.dfy` | create and restore, and what a backup is worth |
| `X509.dfy`, `Generator.dfy`, `Detector.dfy`, `Expiry.dfy` | certificates, renewal templates, detection, and when a certificate can be found expired |
| `Renewal.dfy`, `RenewalLaws.dfy` | the renewal loop and what it keeps at every step |
| `TableLaws.dfy` | how the tables of names, files, CAs and backups agree |
| `PodRestart.dfy`, `HealthCheck.dfy` | the restart annotations in order, the retry loop |
| `State.dfy`, `Rollback.dfy`, `RollbackLaws.dfy` | the state and its file, rolling back a set of nodes |
| `Reconcile.dfy`, `ReconcileLaws.dfy`, `RecoveryLaws.dfy`, `RotationLaws.dfy`, `ProgressLaws.dfy`, `StatusLaws.dfy` | one reconciliation, its phases, recovery from every crash point, when a rotation succeeds, and what the status and the disk promise |
| `PairLaws.dfy`, `SharedDisk.dfy` | certificates and keys over many reconciliations, several nodes rolled back on one disk |
| `OutcomeLaws.dfy`, `UndisturbedLaws.dfy` | how a reconciliation ends, and what one does that nothing disturbs |

## What holds

- Pods do not disturb each other. For any number of pods, any interleaving and arbitrarily stale
  copies, a node's entry on the server is what that node's own patches make of it; a pod that read
  its own entry freshly finds there exactly what it has locally.
- Write-ahead and recovery, for one reconciliation. Wherever it fails or dies, either no file of the
  node was touched or the server's entry names a complete backup of what the files were, from which
  any number of interrupted restores and one complete restore bring the old bytes back.
- If every certificate lies beside its own key when a reconciliation starts, then wherever it fails
  or dies at most one does not. A live renewal that the status reports did renew every certificate
  that was due on the disk, and no other. A live renewal that nothing disturbs succeeds exactly when
  every certificate that is due has files and a CA with its key, and the four manifests are mappings.
- A reconciliation that nothing disturbs is decided by the disk: a file that is missing or does not
  decode marks the node Failed, a disk on which nothing is due leaves it Idle, and what is due is
  renewed if all of it can be and the manifests can be stamped.
- If the pod keeps checking, a reconciliation takes at most some fixed time, and at most k renewals
  in a row fail, then no certificate that its first check finds unexpired is ever found expired
  exactly when k + 1 times the interval, the jitter and that time fit into the smaller of the
  threshold and 364 days. With the defaults and 45 minutes, k is 28. Without failed renewals and with
  at most 58 minutes, the interval has to be shorter, in hours, than that bound.

## What does not hold

The code was followed where it and its documentation disagree. Each of these is a theorem.

- The controller hands `RollbackAll` no state, so the shipped rollback never restores anything: it
  panics when a backup path is known and reports an error when none is
  (`RecoveryLaws.ShippedRollbackNeverReturns`, `RecoveryLaws.FailedRenewalIsLeftBehind`). With a state
  the rollback does undo the renewal (`RecoveryLaws.RollbackUndoesRenewal`).
- So as shipped a renewal that fails takes the process down. The node is marked Critical only if the
  renewal failed before the server named a backup and none was named before; then the rollback reports
  an error, and no file was touched (`OutcomeLaws.WhenNodeIsGivenUp`, `OutcomeLaws.GivenUpUntouched`).
- A kubeconfig certificate that is due makes every live renewal fail, because it has no file of its
  own to renew (`StatusLaws.DueKubeconfigNeverSettles`).
- A dry run reports a renewal although it wrote only a backup (`StatusLaws.WhenRenewalIsReported`,
  `StatusLaws.DryRunWritesOnlyTheBackup`).
- After a successful renewal the node's entry still lists the certificates as they were before it,
  so it shows certificates that are not OK until the next check. Without a renewal an idle node keeps
  showing the reason of an older failure (`StatusLaws.CheckIsPublished`).
- The renewed certificate is announced as an exact mirror; e-mail names, further subject attributes,
  a path length and extended key usages that the library does not list are lost
  (`Generator.WhenMirrorIsExact`).
- The CA is looked up in a fixed directory. With another PKI directory configured, a renewed
  certificate is signed by the CA of that directory exactly when both hold a CA of the same name and
  key (`RotationLaws.WhenConfiguredCaSigns`).
- Thresholds of 364 and 365 days are admitted, and make a certificate due again as soon as it is
  written (`Expiry.AlwaysDueAgain`). The admitted threshold of 7 days is not safe with the admitted
  interval of 168 hours (`Expiry.AdmittedConfigurations`).
- At most one pair is broken by one reconciliation, but no later one repairs it: a process that dies
  between a certificate and its key leaves a new certificate beside the old key, and while that
  certificate is OK the pair is never touched again (`PairLaws.RotationDiesBetween`,
  `PairLaws.ForeignKeyStays`). After a live reconciliation that ends idle a pair matches exactly if its
  certificate was due on the disk or it matched before (`PairLaws.WhenIdlePairMatches`).
- The server keeps the name of one backup. The next renewal replaces it by a backup of the files as
  they are then, a foreign key included, and the files from before are no longer named
  (`RecoveryLaws.WhenOldBackupIsNamed`, `PairLaws.NextBackupHoldsForeignKey`).
- A process that dies inside a certificate file leaves one that does not decode exactly when the bytes
  it wrote do not (`PairLaws.RotationDiesInside`), and then no reconciliation writes any file again
  (`PairLaws.TornRotationStopsEverything`). A detection that nothing disturbs succeeds exactly when
  every file that is there decodes and only kubeconfigs are missing (`PairLaws.WhenDetectionSucceeds`).
- A node stops after a failed rollback only if the patch that says so reached the server; its error
  is only logged (`OutcomeLaws.WhenCriticalSticks`).
- The reason of a failed renewal is lost exactly when the RollingBack patch does not arrive and the
  process is dead, or a backup path is known, so that the rollback panics, or the Critical patch does
  not arrive either (`StatusLaws.WhenReasonIsLost`).
- A pod with a stale copy can publish a renewing cluster without a critical failure over a critical
  node (`ClusterLaws.StaleSummaryHidesCritical`; exactly when in `ClusterLaws.WhenSummaryIsRight` and
  `ClusterLaws.WhenCriticalConditionIsRight`).
- A write that dies right after truncating a manifest makes the next restart panic, where empty bytes
  decode to an empty document (`PodRestart.TornManifestPanics`; exactly when a restart panics in
  `PodRestart.WhenRestartPanics`); a `metadata` or `annotations` value that is no mapping is lost
  (`PodRestart.WhenOthersAreKept`).
- Rolling back several nodes restores every backup into the same local directories: each file ends
  as in the backup of the last node that has it (`RollbackLaws.WinnerRestores`). The failed node comes
  first, so it gets a file of its own back exactly when that last backup holds the same bytes
  (`RollbackLaws.WhenFailedNodeIsRestored`; two nodes in `SharedDisk.FailedNodeGetsTheOthersCertificate`).
- A save of the state that fails or dies after its last byte leaves a file that no successful save
  wrote (`State.LateFailureIsRead`; exactly when in `State.RestartFindsHonestState`).

## Model

| member | source | states |
|---|---|---|
| MergePatch.DiffThenApply | internal/controller/certrotationconfig_controller.go:321-330 | the patch from one document to another, applied by the rules of section 2 of RFC 7396 to the first, gives the second |
| MergePatch.PatchIsLocal | internal/controller/certrotationconfig_controller.go:315-376 | what a patch does at one place of the server's document depends on the server's value and the client's two values at that place alone, whatever else the client believes |
| MergePatch.FreshPatchStores | internal/controller/certrotationconfig_controller.go:315-331 | where the client read a place freshly, its own new value is what the server ends with |
| Status.EncodeNodeInjective | api/v1alpha1/certrotationconfig_types.go:151-180 | two node entries have the same JSON only if they are equal, absent members included |
| Status.MergeNodeIsThePatch | internal/controller/certrotationconfig_controller.go:315-376 | merging two typed entries field by field is exactly what the server computes on their JSON |
| Conditions.SetConditionTruth | internal/controller/certrotationconfig_controller.go:413-423 | setting a condition fixes its own truth and no other condition's |
| Conditions.SummaryMeaning | internal/controller/certrotationconfig_controller.go:384-458 | after the update the conditions say exactly whether no node failed or is critical and all listed certificates are OK, whether a node renews or rolls back, and whether one is critical; the phase follows the stated priority |
| Conditions.SummaryConditions | internal/controller/certrotationconfig_controller.go:408-457 | each of the three conditions gets its truth and its reason, and keeps its time of transition exactly as long as its truth; other conditions stay, and none comes to be listed twice |
| Cluster.ServeIsOwnStep | internal/controller/certrotationconfig_controller.go:315-473 | a patch changes the entry of its own pod as that entry alone predicts, and no other entry |
| Cluster.EntriesEvolveIndependently | internal/controller/certrotationconfig_controller.go:315-473 | for every interleaving of patches of any number of pods with any staleness, a node's entry is the result of its own patches in their order |
| Cluster.FreshPodIsObeyed | internal/controller/certrotationconfig_controller.go:315-376 | a pod that read its own entry freshly and whose patches succeed finds on the server what it has locally, whatever other pods did in between |
| Cluster.EachFieldIsTheLastWrite | internal/controller/certrotationconfig_controller.go:315-376 | after any run of a pod's helpers each field of its entry holds what the last helper that speaks of it said: a phase without a reason keeps the old reason, a renewal clears it |
| Cluster.CopyHoldsLastWrites | internal/controller/certrotationconfig_controller.go:315-376 | in the whole status such a run changes the own entry and the two times on top, each set by its one helper, and nothing else |
| Cluster.FreshPodShowsLastWrites | internal/controller/certrotationconfig_controller.go:315-376 | what the server shows of a pod that read freshly is, field by field, the last thing the pod wrote, whatever other pods did |
| ClusterLaws.PatchOwnIsServed | internal/controller/certrotationconfig_controller.go:315-376 | the typed entry that a reconciliation step leaves on the server is the one in the server's JSON document after the same patch |
| ClusterLaws.ConditionsKeepEntries | internal/controller/certrotationconfig_controller.go:378-461 | updating the cluster conditions leaves every node entry alone |
| ClusterLaws.WhenSummaryIsRight | internal/controller/certrotationconfig_controller.go:439-460 | the cluster phase on the server agrees with the server's entries if and only if the copy called for the right phase, or for no change while the server's was right |
| ClusterLaws.WhenCriticalConditionIsRight | internal/controller/certrotationconfig_controller.go:439-460 | the list of conditions is replaced as a whole or not at all, and the published CriticalFailure condition agrees with the server's entries if and only if the copy had the right answer, or called for no change while the server had it |
| ClusterLaws.FreshSummaryIsRight | internal/controller/certrotationconfig_controller.go:378-461 | a pod with a current copy always publishes the right phase |
| ClusterLaws.StaleSummaryHidesCritical | internal/controller/certrotationconfig_controller.go:439-460 | a concrete stale copy, in which the publishing pod's own entry is current, that publishes a renewing cluster without a critical failure although a node is critical |
| ConfigObject.CopyEntries | api/v1alpha1/zz_generated.deepcopy.go:99-105 | the copied node map has equal records, all of whose pointers are new |
| ConfigObject.CopyRecord | api/v1alpha1/zz_generated.deepcopy.go:126-141 | a copied node status has the same value and shares no pointer or slice |
| ConfigObject.Config.DeepCopy | api/v1alpha1/zz_generated.deepcopy.go:89-123 | the copy shows the same status and consists of new objects only |
| ConfigObject.Config.EnsureNodes | internal/controller/certrotationconfig_controller.go:463-473 | afterwards the own entry exists, idle if it was missing, and nothing else changed |
| ConfigObject.Config.ChangePhase | internal/controller/certrotationconfig_controller.go:321-344 | in place, the phase or the backup path of the own entry becomes the given one and everything else stays |
| ConfigObject.Config.ChangeRenewed | internal/controller/certrotationconfig_controller.go:346-360 | in place, the own entry becomes idle with the renewal time and no reason, and the status gets the same time |
| ConfigObject.Config.ChangeCerts | internal/controller/certrotationconfig_controller.go:362-376 | in place, the own entry gets the certificates and the time of the check, and the status gets the same time |
| ConfigObject.SetStatusCondition | internal/controller/certrotationconfig_controller.go:413-457 | the condition of the same kind is overwritten in place, keeping its transition time unless its truth changes, or the condition is appended |
| ConfigObject.Config.ScanEntries | internal/controller/certrotationconfig_controller.go:384-406 | the three flags of the loop have their meaning for every node map and every visiting order |
| ConfigObject.Config.ChangeConditions | internal/controller/certrotationconfig_controller.go:378-458 | in place, phase and conditions become the summary of the entries; the entries stay |
| ConfigObject.Config.Prepare | internal/controller/certrotationconfig_controller.go:315-385 | every helper leaves a base that shows the old status and shares nothing with the changed resource, which shows the new one |
| ConfigObject.Config.PrepareAll | api/v1alpha1/zz_generated.deepcopy.go:89-123 | no sequence of helper changes affects a snapshot taken before it |
| Backup.Manager.Create | pkg/backup/backup.go:54-134 | creating a backup has exactly the specified effect on files, directories and fates, at every outcome |
| Backup.Manager.Restore | pkg/backup/backup.go:136-193 | the same for a restore |
| BackupLaws.CreateFrame | pkg/backup/backup.go:54-134 | however it ends, creating a backup changes only files of the backup |
| BackupLaws.CreateHolds | pkg/backup/backup.go:54-134 | a completed backup at a fresh path is a copy of all listed files, and of those only that exist |
| BackupLaws.RestoreFrame | pkg/backup/backup.go:136-193 | however it ends, a restore changes only listed live files |
| BackupLaws.RestoreGivesBack | pkg/backup/backup.go:136-193 | whatever state the live files are in, a completed restore gives each backed up file its bytes, and no restore changes the backup |
| BackupLaws.NothingToRestore | pkg/backup/backup.go:156-160 | a listed file that is not in the backup is never touched, so it is not deleted either |
| BackupLaws.UndisturbedRunsComplete | pkg/backup/backup.go:54-193 | from every state of the disk, a backup and a restore complete if no call is disturbed |
| BackupLaws.CompleteRestore | pkg/backup/backup.go:136-193 | exactly what a complete restore does to each listed file: it brings the saved bytes if there are any and the file has a directory, and leaves it alone otherwise |
| BackupLaws.RestoreIsResumable | pkg/backup/backup.go:136-193 | from every disk, any number of restores stopped anywhere, followed by a complete one, leave the same files as one uninterrupted restore |
| BackupLaws.RestoreRecovers | pkg/backup/backup.go:136-245 | from any disk that holds a complete backup, interrupted restores and a complete one bring back every listed file |
| Generator.FilterExtensions | pkg/generator/generator.go:195-212 | the extensions whose identifiers are not handled by the template, in their order |
| Generator.RenewalMirrors | pkg/signer/signer.go:52-106 | one renewal mirrors the common name, organization, unit, country, DNS, IP and URI names, key usage, the extended usages the library lists, CA flag and further extensions, keeps identifiers unique, is signed by the given CA, and is valid from ten minutes before signing to 365 days after it |
| Generator.RepeatedRenewalMirrors | pkg/generator/generator.go:51-100 | any number of renewals mirrors these fields of the original certificate, and extension identifiers stay unique as section 4.2 of RFC 5280 requires |
| Generator.WhenMirrorIsExact | pkg/generator/generator.go:72-90 | however often it is renewed, a certificate keeps all names, usages and constraints if and only if it has no e-mail names, no further subject attributes, no path length and no extended usages that the library does not list |
| Generator.EmailNameIsLost | pkg/generator/generator.go:72-90 | a concrete certificate that loses a name at its first renewal |
| Detector.Detect | pkg/detector/detector.go:73-127 | detection reads the files in its order, skips missing kubeconfigs and fails otherwise, as specified |
| Detector.AnyNeedsRenewal | pkg/detector/detector.go:301-308 | true exactly when some certificate is not OK |
| Detector.DetectIsFaithful | pkg/detector/detector.go:73-237 | a completed detection reports every certificate once, classified from its own file, and omits only missing kubeconfigs |
| Expiry.Windows | pkg/detector/detector.go:148-150 | expired means less than a day remains, OK means at least a day and at least the threshold and one more day, for every threshold |
| Expiry.OnlyGetsWorse | pkg/detector/detector.go:291-299 | without renewal the class only moves from OK to approaching to expired |
| Expiry.FreshCertificateLifetime | pkg/generator/generator.go:80-81 | a certificate is OK for exactly 364 days less the threshold after it was built |
| Expiry.AlwaysDueAgain | api/v1alpha1/certrotationconfig_types.go:28-40 | every certificate is due again as soon as it is written if and only if the threshold is at least 364 days |
| Expiry.SafeGap | pkg/detector/detector.go:291-299 | over runs of any length in which at most k renewals in a row fail, and not the first, no check finds the certificate expired if and only if k + 1 times the distance of the checks fits into the smaller of the threshold and 364 days |
| Expiry.SafeConfiguration | internal/controller/certrotationconfig_controller.go:538-544 | with the jitter of every node and reconciliations of at most a given length, that is the case if and only if k + 1 times the interval, 119 seconds and that length fit |
| Expiry.SafeWithoutFailures | internal/controller/certrotationconfig_controller.go:538-544 | if no renewal fails and a reconciliation takes at most 58 minutes, that is the case if and only if the interval is shorter, in hours, than the smaller of the threshold and 364 days |
| Expiry.DefaultConfiguration | api/v1alpha1/certrotationconfig_types.go:28-40 | with the default threshold and interval and reconciliations of at most 45 minutes, 28 renewals in a row may fail, and 29 may not |
| Expiry.AdmittedConfigurations | api/v1alpha1/certrotationconfig_types.go:28-40 | if no renewal fails and a reconciliation takes at most 23 hours, every admitted interval is safe with every admitted threshold from eight days on; 168 hours are not safe with seven days |
| Expiry.JitterSpreads | internal/controller/certrotationconfig_controller.go:538-548 | two nodes come back at the same distance if and only if their hashes agree modulo 120; all delays from none to 119 seconds are taken |
| Renewal.Writer.WriteCertKeyPair | pkg/writer/writer.go:24-91 | a dry run does nothing; otherwise certificate and then key are written, with the specified effect at every outcome |
| Renewal.RenewCert | internal/controller/certrotationconfig_controller.go:215-248 | one round of the loop has the specified effect at every outcome |
| Renewal.RenewCerts | internal/controller/certrotationconfig_controller.go:208-251 | the loop has the specified effect at every outcome |
| RenewalLaws.TargetsAreListed | pkg/writer/writer.go:93-101 | every file the writer can write is one that is backed up |
| TableLaws.NamesFollowFiles | pkg/writer/writer.go:93-101 | a certificate is reported under the name of its file, and detector and writer name the same file and the key beside it |
| TableLaws.CaFollowsName | pkg/signer/signer.go:108-132 | certificates whose name mentions etcd are signed by the CA of etcd, the front proxy's by its own, all others by the cluster's |
| TableLaws.FilesReadAreListed | pkg/backup/backup.go:14-32 | every file that detection reads and, in the usual directory, every CA file that signing reads is in the backup table |
| TableLaws.BackupPathsDiffer | pkg/backup/backup.go:54-56 | no two backups of different nodes or times share a path |
| RenewalLaws.RenewedMeans | pkg/signer/signer.go:52-132 | a renewed certificate matches the fresh key beside it, mirrors the old one, is signed by the CA it is routed to and is valid from ten minutes before signing to 365 days after it |
| RenewalLaws.RenewAllProgress | internal/controller/certrotationconfig_controller.go:208-251 | wherever the loop stops, the certificates before are renewed, those after and all other files are untouched |
| RenewalLaws.AtMostOneBrokenPair | pkg/writer/writer.go:77-91 | if all pairs match before, at most one does not wherever the loop stops, none if it completes, and only one that was due |
| RenewalLaws.CompleteRenewal | internal/controller/certrotationconfig_controller.go:208-251 | a completed loop renewed exactly what was due, left the other pairs alone and wrote no CA file |
| RenewalLaws.KubeconfigCertBlocksRenewal | internal/controller/certrotationconfig_controller.go:240-244 | with a kubeconfig certificate due the loop never completes |
| PodRestart.RestartAll | pkg/podrestart/podrestart.go:34-58 | the restart sequence has the specified effect at every outcome |
| PodRestart.StampTwice | pkg/podrestart/podrestart.go:108-134 | a second annotation replaces the first |
| PodRestart.StampIsRead | pkg/podrestart/podrestart.go:108-126 | whatever the manifest held there, the stamp is read back at its annotation |
| PodRestart.RestartedTwice | pkg/podrestart/podrestart.go:60-106 | two restarts leave a manifest as the later one alone would |
| PodRestart.WhenOthersAreKept | pkg/podrestart/podrestart.go:114-126 | every other place of the manifest holds what it held, value, mapping or nothing, if and only if metadata and annotations are mappings or absent |
| PodRestart.RestartAllLaw | pkg/podrestart/podrestart.go:34-106 | success re-stamped all four manifests; a stop at the n-th leaves those before stamped and those after, and all other files, untouched |
| PodRestart.RestartsFollowDependencies | pkg/podrestart/podrestart.go:15-40 | wherever a sequence stops, no manifest of the API server was written unless etcd was restarted, and none of controller manager or scheduler unless both were |
| PodRestart.YamlComesFirst | pkg/podrestart/podrestart.go:60-68 | of two manifests of a component only the one ending in yaml is written |
| PodRestart.DryRestartChangesNothing | pkg/podrestart/podrestart.go:70-77 | a dry restart changes no file, and succeeds if and only if every component has a manifest |
| PodRestart.WhenRestartPanics | pkg/podrestart/podrestart.go:60-118 | a restart panics if and only if it runs live, finds and reads its manifest, and that is an empty document |
| PodRestart.TornManifestPanics | pkg/podrestart/podrestart.go:79-118 | where empty bytes decode to an empty document, a restart that dies right after truncating the manifest makes the next one panic |
| HealthCheck.CheckAll | pkg/healthcheck/healthcheck.go:42-175 | healthy if and only if all four components answer TCP and HTTPS; the time is that of all eight probes, or of those up to the first that fails |
| HealthCheck.CheckAllWithRetry | pkg/healthcheck/healthcheck.go:56-97 | success means one single attempt in which all components answered both probes; attempts stop at the first that passes, the interval is waited in between, and the total time is bounded |
| State.StateObject.Phased | state/state.go:113-122 | in memory only the phase and the time of the update change; the file is saved |
| State.StateObject.Renewed | state/state.go:136-144 | in memory the time of the renewal is recorded; the file is saved |
| State.StateObject.RolledBack | state/state.go:146-165 | in memory the outcome is recorded and a failure raises the critical flag; the file is saved with the specified effect |
| State.StateObject.BackedUp | state/state.go:124-134 | in memory the backup path is recorded; the file is saved |
| State.StateObject.Clear | state/state.go:171-184 | in memory everything but the time of the update is reset; the file is saved |
| State.FileRefinesMemory | state/state.go:54-184 | over any run of setters with failing or dying saves, the file is torn after a partial write and otherwise equals the memory at the last save that wrote all of it; memory and file show a failed rollback as critical |
| State.LateFailureIsRead | state/state.go:88-111 | the last state written in full need not be the last one saved successfully: a save that dies after its last byte leaves a state that no successful save wrote |
| State.RestartFindsHonestState | state/state.go:54-86 | whatever happened before, loading gives an error if and only if the last bytes written were a part of a state, else a state in which a failed rollback is critical; it is the last one saved successfully if and only if no other was written in full since |
| State.CriticalIsSticky | state/state.go:146-184 | without a reset the critical flag never falls |
| State.MemoryIsTheLastWrite | state/state.go:113-184 | after any run of setters every field of the state, and of each node in it, is the last write to it; a reset is the last word on all of it, and a failed rollback of any node makes it critical |
| Rollback.Reverse | pkg/rollback/rollback.go:212-219 | swapping in place on a new array reverses the list, and the caller's array is unchanged |
| Rollback.Order | pkg/rollback/rollback.go:49-58 | the loop computes the specified order |
| Rollback.RollbackOrderLaw | pkg/rollback/rollback.go:49-58 | the failed node comes first, the others follow by their last renewal backwards, each exactly once and no one else |
| Rollback.RollbackManager.RollbackOne | pkg/rollback/rollback.go:105-176 | rolling back one node has the specified effect and success at every outcome |
| Rollback.RollbackManager.RollbackAll | pkg/rollback/rollback.go:43-103 | the whole rollback has the specified effect on files, state, state file and results |
| RollbackLaws.RollbackConfined | pkg/rollback/rollback.go:43-176 | only listed live files and the manifests of the four components are ever written |
| RollbackLaws.NilStatePanics | pkg/rollback/rollback.go:70-108 | handed a nil state, a rollback panics at its first node, whatever the plan and the nodes, before it restores or records anything |
| SharedDisk.WhenNodeIsRolledBack | pkg/rollback/rollback.go:105-176 | a live rollback of one node succeeds if and only if its backup is known and restored, the components are restarted and the health check passes; then all four carry a new stamp |
| RollbackLaws.RollbackAllAgrees | pkg/rollback/rollback.go:70-102 | at every outcome, a death or a panic included: results list the nodes of the order that were reached, all of them on a return, and agree with the state; critical means one of them is marked failed; the flag rises by exactly that; backup paths and other entries stay; the state file is torn, as before, or a state that was reached; no error of a node or a save stops the loop |
| RollbackLaws.LastRestoreWins | pkg/rollback/rollback.go:134-142 | if the last node of the order is rolled back, the live files end as in its backup, whatever became of the nodes before it |
| RollbackLaws.WinnerRestores | pkg/rollback/rollback.go:70-142 | when every node is rolled back, each listed file ends as in the backup of the last node that has it, and a file that no backup has is as before |
| RollbackLaws.WhenFailedNodeIsRestored | pkg/rollback/rollback.go:49-142 | the failed node gets a listed file of its own back if and only if the last node whose backup has that file saved the same bytes |
| SharedDisk.UndisturbedRollback | pkg/rollback/rollback.go:70-176 | where decoding undoes encoding and the manifests are mappings, a rollback that nothing disturbs succeeds for every node that has a backup |
| SharedDisk.FailedNodeGetsTheOthersCertificate | pkg/rollback/rollback.go:49-142 | with any encodings that decoding undoes, two nodes of which the failed one ends with the other's certificate although every rollback succeeds |
| Reconcile.Reconciler.Patch | internal/controller/certrotationconfig_controller.go:315-376 | a helper changes the local entry, sends the difference, and has the specified effect on server and copy at every outcome |
| Reconcile.Reconciler.Renew | internal/controller/certrotationconfig_controller.go:177-267 | the renewal has the specified effect at every outcome |
| Reconcile.Reconciler.RollBack | internal/controller/certrotationconfig_controller.go:270-311 | the rollback has the specified effect at every outcome; without a state it panics |
| Reconcile.Reconciler.Reconcile | internal/controller/certrotationconfig_controller.go:49-174 | the reconciliation has the specified effect and result at every outcome |
| ReconcileLaws.ReconcilePhases | internal/controller/certrotationconfig_controller.go:69-173 | the phases one reconciliation tries to report are a prefix of one of five sequences, and empty exactly when the resource is gone, unreadable or critical |
| ReconcileLaws.WhenItComesBack | internal/controller/certrotationconfig_controller.go:76-173 | what the result says about the last phase, and within which time the node comes back |
| ReconcileLaws.CriticalStops | internal/controller/certrotationconfig_controller.go:69-78 | once the server holds a critical entry, no number of reconciliations changes a file or the entry |
| OutcomeLaws.AfterRollback | internal/controller/certrotationconfig_controller.go:135-161 | a rollback that reports an error marks the node Critical without scheduling it again, one that succeeds marks it Failed and schedules it; the server shows the mark if and only if its patch arrives; a rollback that dies is followed by nothing |
| OutcomeLaws.WhenCriticalSticks | internal/controller/certrotationconfig_controller.go:135-150 | the next reconciliation after a rollback does nothing if and only if the rollback reported an error and the patch that says so reached the server |
| OutcomeLaws.WhenRollbackSucceeds | internal/controller/certrotationconfig_controller.go:278-311 | handed a state, the rollback succeeds if and only if a backup path is known, every node was rolled back and, unless in a dry run, the health check at the end passes |
| OutcomeLaws.WhenNodeIsGivenUp | internal/controller/certrotationconfig_controller.go:126-161 | as shipped, a renewal ends with the node marked Critical if and only if it failed before the server named a backup and none was named before; any other renewal that fails takes the process down, and the node is never marked Failed |
| OutcomeLaws.HowReconcileEnds | internal/controller/certrotationconfig_controller.go:49-174 | every shipped reconciliation ends before its renewal with no file touched, or exactly as that renewal makes it end |
| OutcomeLaws.GivenUpUntouched | internal/controller/certrotationconfig_controller.go:135-150 | a reconciliation that marks the node Critical found certificates due, had no backup named before, and changed no file but its backup |
| RecoveryLaws.RenewalWritesAhead | internal/controller/certrotationconfig_controller.go:177-267 | wherever a renewal stops, either only the backup differs or the server names a complete backup of the old files; it names that or the earlier one, and the phase on the server is unchanged |
| RecoveryLaws.ReconcileWritesAhead | internal/controller/certrotationconfig_controller.go:49-174 | over a whole reconciliation of a pod that read its own entry freshly: wherever it fails or dies, either only the backup differs, or the server names a complete backup of the old files and shows one of the phases Renewing, RollingBack and Idle; it names that backup or the earlier one |
| RecoveryLaws.WhenOldBackupIsNamed | internal/controller/certrotationconfig_controller.go:186-196 | after the next reconciliation the server names the earlier backup or the new one, and that is a backup of the earlier disk if and only if it is the earlier one or no listed file had changed since |
| RecoveryLaws.ReconcileIsRecoverable | internal/controller/certrotationconfig_controller.go:49-174 | from every crash point at which a file of the node was written, restoring from the path on the server gives all files but the manifests of the four components their old bytes |
| RecoveryLaws.RollbackKeepsBackup | pkg/rollback/rollback.go:43-176 | a rollback, interrupted anywhere, keeps the backup it may need again |
| RecoveryLaws.RollbackUndoesRenewal | internal/controller/certrotationconfig_controller.go:270-311 | handed a state that knows the backup, a successful rollback gives every listed file that existed its old bytes |
| RecoveryLaws.ShippedRollbackNeverReturns | internal/controller/certrotationconfig_controller.go:278-298 | handed no state, the rollback changes nothing, panics if and only if a backup path is known, and never succeeds |
| RecoveryLaws.FailedRenewalIsLeftBehind | internal/controller/certrotationconfig_controller.go:127-161 | a renewal that fails after its backup was recorded leaves the files as they are, and the reconciliation does not return |
| RotationLaws.WhenRenewalSucceeds | internal/controller/certrotationconfig_controller.go:177-267 | a renewal succeeds if and only if its backup was made and recorded and, unless in a dry run, everything due was renewed, the components were restarted and the health check after that passes |
| RotationLaws.LiveRotation | internal/controller/certrotationconfig_controller.go:177-267 | a live renewal that succeeds renewed everything due from the old certificates and CAs, kept the other pairs and the CA files, and restarted four components |
| RotationLaws.RotationBreaksAtMostOne | internal/controller/certrotationconfig_controller.go:177-267 | wherever a renewal stops at most one pair does not match; it was due and the renewal did not succeed |
| RotationLaws.ReconcileRuns | internal/controller/certrotationconfig_controller.go:49-174 | a reconciliation changes files only in its renewal, run under the phase Renewing on a list of every PEM certificate and every kubeconfig on the disk, each classified from its file |
| RotationLaws.WhenConfiguredCaSigns | pkg/signer/signer.go:108-132 | a renewed certificate is signed by the CA of the configured directory if and only if that has the name and key of the CA in the fixed directory, in particular if both hold the same bytes or are one directory |
| RotationLaws.ReconcileBreaksAtMostOne | internal/controller/certrotationconfig_controller.go:49-174 | if all pairs match when a reconciliation starts, at most one does not wherever it fails or dies |
| ProgressLaws.WhenRotationSucceeds | internal/controller/certrotationconfig_controller.go:177-267 | a live renewal that nothing disturbs succeeds if and only if everything due has its files and a CA with the matching key, and all four manifests are mappings |
| UndisturbedLaws.UndisturbedReconcile | internal/controller/certrotationconfig_controller.go:49-174 | what a reconciliation does that nothing disturbs, by the disk alone: phases, result, files, and the phase, reason and renewal time on the server, in each of five cases |
| StatusLaws.CheckIsPublished | internal/controller/certrotationconfig_controller.go:99-173 | a reconciliation that ends idle has published one entry for each certificate on the disk: its name, the second it ends in, the whole days left, and EXPIRED, APPROACHING or OK by the exact windows; it renewed if and only if one is not OK, and then the reason is cleared, else the old one stays |
| StatusLaws.WhenRenewalIsReported | internal/controller/certrotationconfig_controller.go:163-168 | the renewal is reported if and only if it returned without an error and the report reached the server; a dry run returns so as soon as its backup is recorded |
| StatusLaws.ReportedRenewalHappened | internal/controller/certrotationconfig_controller.go:49-174 | in live mode, a renewal time of this reconciliation on the server means that every PEM certificate that was due on the disk was renewed and every other is untouched, and that the health check after the restarts passed |
| StatusLaws.WhenReasonIsReported | internal/controller/certrotationconfig_controller.go:127-161 | after a failed renewal, exactly which reason the server gives: the critical one if the rollback reports an error and that patch arrives, else the renewal's error if the RollingBack patch arrived, else the one before |
| StatusLaws.WhenReasonIsLost | internal/controller/certrotationconfig_controller.go:127-150 | as shipped, neither reason is on the server if and only if the RollingBack patch did not arrive and the process is dead, a backup path is known, or the Critical patch did not arrive either |
| StatusLaws.DryRunWritesOnlyTheBackup | internal/controller/certrotationconfig_controller.go:198-201 | a dry run changes no file outside its backup, whatever fails |
| StatusLaws.DueKubeconfigNeverSettles | internal/controller/certrotationconfig_controller.go:215-244 | with a kubeconfig certificate due, no live reconciliation tries to report Idle |
| PairLaws.WhenIdlePairMatches | internal/controller/certrotationconfig_controller.go:104-173 | after a live reconciliation that ends idle, a pair matches if and only if its certificate was due on the disk, or it matched before |
| PairLaws.OkPairIsNeverTouched | internal/controller/certrotationconfig_controller.go:208-251 | no number of reconciliations, however they end, touches a pair whose certificate stays OK |
| PairLaws.RotationDiesBetween | pkg/writer/writer.go:77-91 | a process that dies after the first certificate that is due was written leaves the new certificate beside a key that is not its own |
| PairLaws.ForeignKeyStays | internal/controller/certrotationconfig_controller.go:208-251 | and no number of later reconciliations repairs that pair while the new certificate is OK |
| PairLaws.NextBackupHoldsForeignKey | internal/controller/certrotationconfig_controller.go:186-196 | after that death the server names a backup of the pair that matched, and after the next reconciliation if and only if that recorded no backup of its own |
| PairLaws.WhenDetectionSucceeds | pkg/detector/detector.go:84-118 | a detection that nothing disturbs succeeds if and only if every file that is there decodes and only kubeconfigs are missing |
| PairLaws.TornCertificateStopsEverything | pkg/detector/detector.go:84-97 | with a certificate file that is missing or does not decode, no number of reconciliations writes any file |
| PairLaws.RotationDiesInside | pkg/writer/writer.go:77-91 | a process that dies while the first certificate that is due is written leaves a torn file if and only if the bytes that it wrote do not decode |
| PairLaws.TornRotationStopsEverything | pkg/writer/writer.go:77-91 | and if they do not, no number of later reconciliations writes any file |

## Left out

- Mail and chat notifications, log messages and the summary text.
- RSA, X.509, PEM, base64, YAML and JSON syntax: certificates, keys and documents are values. Assumed is that decoding undoes encoding; of torn bytes nothing is assumed. The contents of the standard extensions are not modelled, only their identifiers.
- The client library: that a successful status patch overwrites the local copy with the server's reply, and how the merge patch is derived, are its contract. Resource versions, admission and the cache are left out; how stale a copy is stays open. A patch to an entry that was deleted meanwhile is taken to be rejected for its missing required members.
- The message and generation of conditions: the message is a constant that follows from the truth.
- Hours as floating point numbers: durations are integer nanoseconds and the division truncates, as the conversion does. Times in the status are whole seconds.
- One instant serves for all certificates of a detection; the real one reads the clock for each file.
- `os.Stat` is the presence of the file; file modes, ownership and links are left out. Paths are joined with a slash and not cleaned.
- A file that is written while a copy reads it: one process works on the node's files.
- Inside a reconciliation the health gate is one call with a fate; its retry loop is modelled on its own in `HealthCheck`.
- The hash of the node name is a parameter; only its remainder matters.
- ConfigObject.Config.DeepCopy: the status is modelled; the metadata and the spec, which are copied too, are not, because no helper changes them.
- Expiry.SafeConfiguration: that checks go on is assumed: the pod runs, errors are retried by the framework in time, and the node is not stopped as critical. The time of a reconciliation is a parameter. At most k renewals in a row fail; a node with a due kubeconfig certificate, whose live renewal always fails, has no such runs.
- Slices in `ConfigObject` are objects that hold a sequence; spare capacity is not modelled.
- RecoveryLaws.ReconcileWritesAhead: stated for the controller as shipped, which hands the rollback no state; with a state, the same is stated of the rollback by `RecoveryLaws.RollbackKeepsBackup`.
- RotationLaws.ReconcileBreaksAtMostOne: also stated for the controller as shipped; for a restore that dies between a certificate and its key, a second pair that does not match is not excluded until the restore is repeated.
- `WriteAllCerts`, `Verify`, `Cleanup`, `WaitForReady`, `TCPOnlyCheck`, `CheckAllDetailed`, `IsUrgent` and environment parsing: not on the path of a rotation, or easy.
- `pkg/kubeconfig`, which the controller does not call.
- Resuming an interrupted rotation from the state file and the order in which several nodes are rotated: the README of the repository describes them, but no code enforces them.
