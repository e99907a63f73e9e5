# Verification of csi-ceph

A Dafny model of the three parts of this module that change a cluster in several steps which may
fail or be interrupted, and proofs of what they guarantee. `dafny verify dfyconfig.toml` checks it.

**Moving PersistentVolumes to new secrets** (`Volumes`, `MigrationStore`, `MigrationCluster`,
`PvMigration`, `PvRecovery`, `CsiMigration`, `MigrationRuns`, `MigrationLiveness`, `CsiHook`). CSI secret
references are immutable, so the hook backs a volume up, deletes it and creates it again. `Cluster` is the
API server as an object.
Every call first lets the outside world act (the pv-protection controller, and, if `intruders` is set,
somebody who creates volumes), may be lost before or after it took effect, and appends its write to a
log. A write needs a `Guard`, so the methods can be verified only if each write they make is allowed
when it arrives. A crash cuts the log at any point, a restart goes on from what is stored. The theorems
in `MigrationRuns` are about all such logs; the contracts of the methods say what success means and when
it is certain, and `MigrationLiveness` that restarts lead to it. `SnapshotMigration` moves snapshot
classes and contents, with failing calls as well, and `CsiHook` is the whole hook.

**The CephStorageClass controller** (`StorageClasses`, `StorageClassPass`, `StorageClassTheorems`,
`StorageClassConvergence`, `StorageClassDeletion`, `StorageClassRuns`, `StorageClassController`, `Webhook`,
`LabelPrefixes`). One reconcile pass is a function of the store and of a script of failing calls (`Calls`); the class
`Controller` is the imperative reconciler and is proved to compute that function. The theorems are about
one pass, about any number of passes, and about runs in which other users write in between.

**The CephClusterConnection controller** (`ClusterConfigs`, `ConnectionPass`, `ConnectionTheorems`,
`ConnectionConvergence`, `ConnectionRuns`, `ConnectionController`). A list in one ConfigMap, edited in
place, is used as a map from cluster id to configuration by all connections; it is proved to be that map
over whole runs.

`EndToEnd` puts the parts together: a migrated volume finds the Secret that the connection controller
keeps, and the StorageClass says what the old driver said.

What an object has to be is written out, field by field and with its keys, apart from the code that makes or
compares it: `Wanted` and `WantedSnapshots` for the classes of the controller, `EntryOf` for the list,
`OwnConnection`, `OwnFsClass` and `OwnRbdClass` for what the hook makes, `Belongs` for the owner of a
snapshot class, `Eligible` and `NamesOnly` for volumes. The theorems use these, and lemmas tie the code to them.

Where the code does less than its comments and names suggest, the model does what the code does:

- A volume that is terminating when it is listed makes a run fail although no call fails: the patch
  lets it go, and deleting it then finds nothing. The next run recovers it from its backup.
- The update-only branch for volumes writes the volume back without setting the annotations it
  missed, so that it does so again in every run. If the pv-protection controller adds its finalizer
  between listing and update, the update is a conflict and the run fails, but no later run does over
  that volume.
- The recovery takes a volume that is still being deleted for one that is there. If the hook crashes
  after the delete of a volume that the pv-protection controller has protected again, the recovery
  labels the backup as done, and the volume is lost when that controller lets go.
- If somebody else creates the volume first, the hook patches its policy and returns without an
  error, leaving the rest of the class for the next run.
- If a run of the snapshot migration ends between the update of a class and that of a content, the
  content is left behind for good: the class is labelled, and later runs pass it over.
- After a pass that created or recreated a StorageClass the next pass still writes the status: only
  its message changes, from "Successfully created" or "updated" to "Successfully reconciled".
- A StorageClass or snapshot class that is being deleted and held by the controller's finalizer only
  goes with the finalizer, so that the delete after that fails; the next pass goes on.
- The message for a CephFS spec without its fields speaks of type RBD.
- A StorageClass without an allowVolumeExpansion value makes the controller and the webhook crash.
- A CephClusterConnection whose ConfigMap is being deleted is reported Ready by the pass that only
  strips the ConfigMap's finalizer, and the ConfigMap made after that lacks the entries of all others.
- A key that somebody adds to a connection's Secret is never removed, so that every pass writes it.

Assumptions: the server answers as Kubernetes does (names are unique, a deleted object with finalizers
stays until the last one is gone, a terminating object gets no new finalizers, a stale resource version
is a conflict, merge patches as in RFC 7396, `stringData` is merged into `data`). JSON and base64 decode
what they encoded. In the runs of the hook nobody else removes finalizers from volumes or deletes volumes;
`MigrationRuns.LostWhenLetGo` says when a volume is lost if the pv-protection controller takes its own away. The classes of all drivers, named after driver and postfix, have distinct names. In the
controllers, reads are current, one pass runs at a time, and nobody writes between the calls of one pass;
other users write between passes. Cluster ids cannot be changed (crds/cephclusterconnection.yaml:46-48)
and StorageClass provisioners cannot either.

## Model

| member | source | states |
|---|---|---|
| MigrationRuns.NoVolumeIsLost | hooks/go/funcs/funcs.go:345-634 | at every point of every run (crashes, failing and ambiguous calls, restarts, other creators of volumes) each original volume is stored, live or terminating and held by a finalizer, or in a backup labelled "false" from which it can be created |
| MigrationRuns.VolumesAreConserved | hooks/go/funcs/funcs.go:464-619 | nobody else creating volumes, in every state every stored volume and every volume in a backup of the hook is an original but for the two secret references, the two deletion annotations, finalizers and server-assigned fields; its policy is the original or Retain |
| MigrationRuns.DestructionIsGuarded | hooks/go/funcs/funcs.go:526-596 | every strip, patch-to-Retain and delete that the hook issues in any lawful run is made while an outstanding backup holds the volume, whoever else creates volumes; and, nobody doing so, the backup is faithful to the original and the volume still has to move |
| MigrationRuns.DeleteMeetsRetain | hooks/go/funcs/funcs.go:551-566 | a delete meets a volume with another policy than Retain exactly if somebody else created it, with that policy, since the patch; so never if nobody else creates volumes |
| MigrationRuns.DestructionCanBeUndone | hooks/go/funcs/funcs.go:526-596 | nobody else creating volumes, a volume goes away only by one of the three destructive writes, only under Retain unless it was terminating, and an outstanding backup brings the same volume back |
| MigrationRuns.MovedForever | hooks/go/funcs/funcs.go:479-634 | nobody else creating volumes, a volume that names the new secret never goes away and never goes back, in any continuation of the run |
| MigrationRuns.LabelIsTruthful | hooks/go/060-migrate-from-ceph-csi-module/migrate-from-ceph-csi-module.go:138-287 | nobody else creating volumes, in every state of every run a driver labelled by the hook has its connection and all its classes, those made in the migration say field by field what the driver says, and every original volume of these classes with driver rbd.csi.ceph.com or cephfs.csi.ceph.com is there and names the new secret in each reference it has |
| MigrationRuns.NothingElseIsMade | hooks/go/060-migrate-from-ceph-csi-module/migrate-from-ceph-csi-module.go:151-270 | in every state of every run, also with other creators of volumes, a connection or class that was not stored before the start was made from a driver and says, field by field, what the driver says |
| MigrationRuns.RecoveryIsAlwaysPossible | hooks/go/funcs/funcs.go:345-400 | in every state a run can leave behind the outstanding backups decode to volumes the server accepts, which is exactly what the recovery needs to succeed |
| MigrationRuns.StartIsSafe | hooks/go/funcs/funcs.go:345-363 | any store without earlier backups of the hook may start a migration: the invariant holds there, and what a recovery needs |
| MigrationRuns.CrashKeepsLaw | hooks/go/funcs/funcs.go:479-634 | abandoning a pass at any point leaves a lawful run |
| MigrationRuns.RestartKeepsLaw | hooks/go/060-migrate-from-ceph-csi-module/migrate-from-ceph-csi-module.go:71-110 | a restart continues the run from the store that the abandoned pass left, and the whole is lawful again |
| MigrationRuns.RunKeepsInv | hooks/go/funcs/funcs.go:345-634 | the invariant holds in every state of every lawful run, and what only grows only grows |
| MigrationRuns.CrashAfterPatchForgetsPolicy | hooks/go/funcs/funcs.go:551-560 | after a crash between patch and delete the recovery leaves the volume under Retain, which is what the next pass copies: the policy survives exactly if it was Retain |
| MigrationRuns.LostWhenLetGo | hooks/go/funcs/funcs.go:378-397 | what the code does not give: the recovery takes a volume that is being deleted for one that is there; when pv-protection then lets go, the volume is lost exactly if nothing else holds it and no other backup does |
| MigrationRuns.CrashAfterDeleteLosesVolume | hooks/go/funcs/funcs.go:551-566 | a crash after the delete leads there exactly if pv-protection had put its finalizer back between patch and delete |
| MigrationStore.StepKeepsInv | hooks/go/funcs/funcs.go:345-634 | every allowed write, of the hook or of the outside world, keeps the invariant |
| MigrationStore.RemovalIsGuarded | hooks/go/funcs/funcs.go:551-596 | a write after which a volume is gone is one of the three destructive ones and was allowed by an outstanding backup |
| MigrationStore.MovedStays | hooks/go/funcs/funcs.go:479-634 | no allowed write undoes the move of a volume |
| MigrationStore.BackupsSoundStep | hooks/go/funcs/funcs.go:514-530 | nobody else creating volumes, backups are of volumes that had to move, and no volume ever has two backups outstanding |
| MigrationStore.ExposureStep | hooks/go/funcs/funcs.go:620-627 | no allowed write adds a volume that the outside world could still protect under an update |
| MigrationCluster.Cluster.Request | hooks/go/funcs/funcs.go:551-612 | one API call under any weather: the outside world acts, the call may be lost before or after it took effect, and only an allowed write is made |
| MigrationCluster.DriftKeepsGuard | hooks/go/funcs/funcs.go:526-596 | whatever the outside world does between the decision and the arrival of a write, the write stays allowed |
| Volumes.RewriteMigrates | hooks/go/funcs/funcs.go:540-549 | the rewritten volume has both references and both deletion annotations on the new secret, no uid and resource version, and everything else, finalizers and policy included, as it was |
| PvMigration.BackupResource | hooks/go/funcs/funcs.go:402-462 | name, labels and content of the backup; four attempts, whatever the error; success means that the name was free and that exactly this backup was added; without failing calls a free name is enough |
| PvMigration.BackupNamesDiffer | hooks/go/funcs/funcs.go:428-430 | different volumes get different backup names in one run |
| PvMigration.SetRecreateLabelToBackupResource | hooks/go/funcs/funcs.go:737-755 | changes one label of one backup and nothing else; fails for a missing backup |
| PvMigration.PollOnce | hooks/go/funcs/funcs.go:568-593 | one round of the wait: strips finalizers of a volume that may be destroyed, and says "gone" only if it is |
| PvMigration.AwaitDeletion | hooks/go/funcs/funcs.go:567-596 | success means that the volume is gone; without failing calls it succeeds although the outside world may add finalizers again |
| PvMigration.TakeDown | hooks/go/funcs/funcs.go:551-596 | patch, delete, wait: success means that the volume is gone; without failing calls it fails exactly for a volume that was terminating already, which is then gone as well |
| PvMigration.Install | hooks/go/funcs/funcs.go:598-619 | the rewritten volume is there and the backup is labelled "true", or the migration stops; a volume created by somebody else stops it without an error, under the policy the volume is to have |
| PvMigration.RecreatePV | hooks/go/funcs/funcs.go:526-619 | backup, mark, take down, create, mark, for one volume; without failing calls it succeeds exactly if the volume is not obstructed |
| PvMigration.PutUnchanged | hooks/go/funcs/funcs.go:620-627 | the update-only branch leaves references, policy and annotations as they were listed; if the call itself does not fail it succeeds exactly if the volume is, when the call arrives, as it was listed |
| PvMigration.MigrateOne | hooks/go/funcs/funcs.go:482-634 | one item: skipped without a call if it is of another driver or class, or needs nothing; recreated, or written back; settled unless the loop stops |
| PvMigration.Check | hooks/go/funcs/funcs.go:484-524 | finds out whether the item is of the class and a Ceph driver, whether a reference names another secret, and whether the annotations do |
| PvMigration.MigratePVsToNewSecret | hooks/go/funcs/funcs.go:479-634 | success means that every listed volume of the class with one of the two Ceph drivers names the new secret in each reference it has, that those that only needed an update were written back, and that no backup is outstanding anew; however it ends, no other volume is written; without failing calls success means that no volume was obstructed, a failure although none was that the outside world protected a volume between listing and update, and a failure over terminating volumes only leaves fewer of these; with nothing to move it recreates nothing |
| PvMigration.TerminatingShrinks | hooks/go/funcs/funcs.go:551-596 | the measure of repeated runs: the set of terminating volumes never grows, and shrinks when one of them is taken away |
| PvMigration.IdentityFree | hooks/go/funcs/funcs.go:428-430 | working on earlier volumes takes no backup name a later one needs |
| PvRecovery.ProcessRemovedPVs | hooks/go/funcs/funcs.go:345-400 | success means that every original volume and every volume with an outstanding backup is stored and no backup is outstanding; whatever fails, stored volumes stay, new ones are those of outstanding backups, and only labels of backups change; without failing calls it succeeds exactly if the outstanding backups decode; with none outstanding it writes nothing |
| PvRecovery.RestoreOne | hooks/go/funcs/funcs.go:364-397 | creates the volume of one backup if it is missing and then labels the backup; a volume that is there is not an error; without failing calls it succeeds exactly if the backup decodes to an admissible volume |
| PvRecovery.Select | hooks/go/funcs/funcs.go:346-351 | exactly the backups of this hook, of volumes, that are labelled "false" |
| CsiMigration.MigrateClass | hooks/go/060-migrate-from-ceph-csi-module/migrate-from-ceph-csi-module.go:182-224 | creates the class if it was not listed and moves its volumes; volumes of classes not worked on stay as listed; without failing calls it fails only over an obstructed volume, as seen when the hook listed, or over one protected between listing and update |
| CsiMigration.MakeConnection | hooks/go/060-migrate-from-ceph-csi-module/migrate-from-ceph-csi-module.go:154-169 | cluster id, monitors, user id and key of the driver, its subvolume group unless empty, and the label |
| CsiMigration.MakeFsClass | hooks/go/060-migrate-from-ceph-csi-module/migrate-from-ceph-csi-module.go:186-213 | name, connection, file system and policy of the driver's class, and exactly the labels it calls for: migration, pool, mount options, no expansion |
| CsiMigration.MakeRbdClass | hooks/go/060-migrate-from-ceph-csi-module/migrate-from-ceph-csi-module.go:242-263 | the same with pool and file system type; a lone discard option is no reason for a label |
| CsiMigration.MigrateFsClasses | hooks/go/060-migrate-from-ceph-csi-module/migrate-from-ceph-csi-module.go:176-230 | all CephFS classes of a driver are there and moved |
| CsiMigration.MigrateRbdClasses | hooks/go/060-migrate-from-ceph-csi-module/migrate-from-ceph-csi-module.go:232-276 | all RBD classes of a driver are there and moved; a new class with a nil allowVolumeExpansion crashes the hook, and without failing calls only that, an obstructed volume, or one protected between listing and update makes it fail |
| CsiMigration.MigrateDriver | hooks/go/060-migrate-from-ceph-csi-module/migrate-from-ceph-csi-module.go:138-287 | connection, classes, volumes, and only then the label, which is all that changes of the driver; success means that connection and classes are there, the driver's own where the hook made them, and the volumes moved; without failing calls it succeeds only if nothing is in the way of the driver, and if nothing is fails only over a volume protected between listing and update |
| CsiMigration.HandlerMigrateFromCephCsiModule | hooks/go/060-migrate-from-ceph-csi-module/migrate-from-ceph-csi-module.go:71-287 | success, in any weather, means that every driver is labelled truthfully and otherwise as before, and that no backup is outstanding; however it ends, connections and classes that the hook made say what their driver says; of the store at the call alone: without failing calls it succeeds only if the outstanding backups decode and no volume, stored or about to return from a backup, is in the way, and exactly then if no update-only volume can still be protected; a failing run over terminating volumes leaves fewer of them; with all drivers migrated and no backup outstanding it writes nothing |
| CsiMigration.RecoveredHook | hooks/go/funcs/funcs.go:345-400 | what is in the way before the recovery, counting the volumes of outstanding backups, is exactly what is in the way after it |
| MigrationLiveness.ReadyToRun | hooks/go/060-migrate-from-ceph-csi-module/migrate-from-ceph-csi-module.go:71-110 | in any state of a run, at a fresh backup time and with paired references and set allowVolumeExpansion, nothing but terminating volumes can be in the way |
| MigrationLiveness.MigrateUntilDone | hooks/go/060-migrate-from-ceph-csi-module/migrate-from-ceph-csi-module.go:62-287 | restart convergence: from any store that a lawful run leaves behind, the hook, started again without failing calls at fresh times, ends with every driver labelled truthfully and no backup outstanding, after at most one run for each terminating volume and each update-only volume that can still be protected, and one more |
| CsiHook.RunHook | hooks/go/060-migrate-from-ceph-csi-module/migrate-from-ceph-csi-module.go:71-307 | the whole hook: after success also the snapshot classes and contents of the drivers name the secrets their volumes moved to; a run that fails before leaves the snapshots alone; without failing calls it ends as the handler does |
| CsiHook.SnapshotsAreThere | hooks/go/funcs/funcs.go:140-197 | a snapshot class that named the old secret of a driver with a connection, and its contents not migrated before, end up with that driver's new secret |
| CsiMigration.SettledClassIsMoved | hooks/go/funcs/funcs.go:479-634 | when all listed volumes of a class are settled, all original volumes of the class have moved |
| CsiMigration.MovedLeavesNothing | hooks/go/funcs/funcs.go:496-512 | a new listing of a moved class has nothing to recreate, so that a further run recreates nothing |
| CsiMigration.MigrateDrivers | hooks/go/060-migrate-from-ceph-csi-module/migrate-from-ceph-csi-module.go:138-287 | the same for the loop over the drivers, of the store it starts from |
| CsiMigration.AheadAfterClass | hooks/go/funcs/funcs.go:428-430 | working on one class takes no backup name that a volume of a class still to come needs, and makes no such class |
| SnapshotMigration.Client.MigrateVSClassesAndVSContents | hooks/go/funcs/funcs.go:121-207 | lists, any listing failing, and migrates by the stored connections in the order listed: without an error every class and content is as migration makes it; with an error each is so or as before, and as before if a listing failed; the write into nil parameters is unreachable |
| SnapshotMigration.Client.MigrateVSContents | hooks/go/funcs/funcs.go:282-326 | exactly the contents of the class that are of an allowed driver and not migrated yet get its secret |
| SnapshotMigration.Client.MigrateVSClass | hooks/go/funcs/funcs.go:140-193 | one class: skipped, labelled "false", or given the secret of its owner and labelled "true" |
| SnapshotMigration.ConnectionNameByOldSecretName | hooks/go/funcs/funcs.go:223-240 | finds the connection whose name the old secret's name has after the prefix, if there is one |
| SnapshotMigration.ConnectionNameByClusterID | hooks/go/funcs/funcs.go:209-221 | the name at the least index whose cluster id matches; "" for an empty id, and otherwise, connections having names, only if no listed one has the id |
| SnapshotMigration.OwnerBelongs | hooks/go/funcs/funcs.go:149-156 | the owner that is looked for is the connection whose old secret the class names, and only if there is none the first listed one of its cluster id |
| SnapshotMigration.OwnedHasParameters | hooks/go/funcs/funcs.go:149-184 | a class for which an owner is found has non-nil parameters |
| SnapshotMigration.MigratedClassIsRight | hooks/go/funcs/funcs.go:140-194 | a class of another driver, or labelled "true", stays as it is; one that belongs to a listed connection gets the label "true" and that connection's secret; any other gets the label "false"; nothing else changes |
| SnapshotMigration.ContentsFollowTheirClass | hooks/go/funcs/funcs.go:282-326 | a content changes exactly if it is of a Ceph driver, not labelled "true", and its class is such and belongs to a listed connection; then it gets the label and the secret that its class gets, and nothing else changes |
| SnapshotMigration.SecondTimeChangesNothing | hooks/go/funcs/funcs.go:140-187 | migrating again with the same connections changes no class |
| SnapshotMigration.ForgottenContents | hooks/go/funcs/funcs.go:140-197 | what the code does not give: if a run ends between the update of a class and that of a content which going on would annotate, no later run annotates it, whatever connections there are |
| SnapshotMigration.RunAndRunAgain | hooks/go/funcs/funcs.go:185-197 | and runs do end there: when the update of the first content is lost the run has migrated the class only, and the next run, without failing calls, succeeds and leaves all contents as they were |
| StorageClasses.StatusTellsTheOutcome | images/controller/pkg/controller/ceph_storage_class_watcher_func.go:375-402 | Ready is True and the phase Created exactly after a pass without error, the status is about the reconciled generation, its condition carries the text of the error and its reason what the pass said, exactly a failure asks for a retry, and writing it again changes nothing |
| StorageClasses.ComplaintsDecide | images/controller/pkg/controller/ceph_storage_class_watcher_func.go:505-562 | the validation message complains about something exactly if the spec is not valid |
| StorageClasses.DiffDecides | images/controller/pkg/controller/ceph_storage_class_watcher_func.go:419-466 | the comparison finds no difference exactly if the stored class is, field by field, what the spec asks for; another provisioner is an error; a missing allowVolumeExpansion crashes exactly if policy and binding mode are as wanted |
| StorageClasses.ParametersDecide | images/controller/pkg/controller/ceph_storage_class_watcher_func.go:331-366 | the parameters are exactly these keys and values: cluster, Secret for each operation, image features, file system type and pool or file system, and the messenger option if checksums are off |
| StorageClasses.LabelsDecide | images/controller/pkg/controller/ceph_storage_class_watcher_func.go:282-301 | the labels are exactly those of the object whose key no non-empty prefix starts, and the one that marks the controller's classes |
| StorageClasses.SnapshotsDecide | images/controller/pkg/controller/ceph_storage_class_watcher_func.go:687-710 | the snapshot class is left alone exactly if policy, parameters and the marking label are as wanted |
| StorageClasses.SnapshotsAreMade | images/controller/pkg/controller/ceph_storage_class_watcher_func.go:657-685 | the snapshot class that is written has policy, parameters, driver, finalizer and marking label as wanted, and the other labels and the annotations it had |
| StorageClasses.RetryDecides | images/controller/pkg/controller/status_conditions.go:77-85 | another attempt is due exactly if the first Ready condition says False, or there is none and the phase is Failed |
| StorageClasses.PhaseDecides | images/controller/pkg/controller/status_conditions.go:31-41 | the phase is Created exactly if the first Ready condition says True, whatever the phase was |
| StorageClasses.GetAfterSet | images/controller/pkg/controller/status_conditions.go:36-41 | setting a condition replaces the one of its type and leaves the others |
| Finalizers.RemoveFinalizer | images/controller/pkg/controller/common_func.go:27-47 | the slice edit takes out the first occurrence, if any, and keeps the order of the rest |
| StorageClassTheorems.PassFrame | images/controller/pkg/controller/ceph_storage_class_watcher_func.go:78-249 | a pass for a name writes only objects of that name, however its calls fail |
| StorageClassTheorems.ForeignIsLeftAlone | images/controller/pkg/controller/ceph_storage_class_watcher_func.go:92-128 | a StorageClass of another provisioner is neither written nor deleted by a pass |
| StorageClassTheorems.PassLeavesNoOrphan | images/controller/pkg/controller/ceph_storage_class_watcher.go:184-280 | with failures at any call, a live class made by the controller has its CephStorageClass with the finalizer after the pass if before it |
| StorageClassTheorems.ReadyIsSound | images/controller/pkg/controller/ceph_storage_class_watcher.go:107-139 | if a pass changes the status, Ready=True only if StorageClass and snapshot class are there and, field by field, as the spec asks for; the status is about the reconciled generation, and carries the pass's error text and message |
| StorageClassTheorems.RunSpeaks | images/controller/pkg/controller/ceph_storage_class_watcher.go:184-280 | a live pass has an error text exactly if it has an error, and a successful one says "Successfully reconciled" exactly if it wrote no StorageClass |
| StorageClassTheorems.LiveSuccessIsInPlace | images/controller/pkg/controller/ceph_storage_class_watcher.go:214-280 | a live pass without error leaves both classes, field by field, as the spec asks for; annotations are those the StorageClass had, and else the one that names the snapshot class; a snapshot class as wanted is not written |
| StorageClassTheorems.DeleteSCFrame | images/controller/pkg/controller/ceph_storage_class_watcher_func.go:487-503 | a delete without error leaves the StorageClass gone or terminating, and only takes finalizers |
| StorageClassTheorems.TeardownVSCFrame | images/controller/pkg/controller/ceph_storage_class_watcher_func.go:753-804 | a teardown without error leaves the snapshot class gone, terminating, or foreign |
| StorageClassConvergence.FixedPoint | images/controller/pkg/controller/ceph_storage_class_watcher.go:214-280 | an undisturbed pass over a live object succeeds without any write exactly if finalizer, both classes and status are as wanted, the message in the status included |
| StorageClassConvergence.Convergence | images/controller/pkg/controller/ceph_storage_class_watcher.go:63-143 | after a pass that succeeded, whatever calls failed meanwhile, the next undisturbed pass succeeds and writes neither class nor finalizer, and the status exactly if the first one created or recreated the StorageClass; the pass after that sends nothing |
| StorageClassConvergence.ServedNext | images/controller/pkg/controller/ceph_storage_class_watcher_func.go:375-402 | when classes and finalizer are in place and the status is that of a success, an undisturbed pass sends exactly the status write if the stored message is not "Successfully reconciled", and otherwise nothing |
| StorageClassConvergence.RestIsInTheMessage | images/controller/pkg/controller/ceph_storage_class_watcher_func.go:388-401 | such an object is at rest exactly if the reason of the status and the message of its Ready condition both read "Successfully reconciled" |
| StorageClassConvergence.OnePassSuffices | images/controller/pkg/controller/ceph_storage_class_watcher.go:214-280 | an undisturbed pass succeeds, and leaves finalizer, classes and status as wanted, exactly if the spec is valid, the cluster id is known, no foreign provisioner or nil allowVolumeExpansion is in the way, and what has to be replaced can be |
| StorageClassConvergence.LivePassSpeaks | images/controller/pkg/controller/status_conditions.go:43-63 | an undisturbed live pass that does not crash always leaves its outcome in the status, success and failure alike |
| StorageClassConvergence.SmoothSC | images/controller/pkg/controller/ceph_storage_class_watcher_func.go:92-205 | the StorageClass step succeeds exactly if the class is absent, as wanted, or replaceable |
| StorageClassConvergence.PassCarries | images/controller/pkg/controller/ceph_storage_class_watcher_func.go:582-685 | no pass changes the annotations of a StorageClass there before and after it, or takes annotations or labels from the snapshot class |
| StorageClassConvergence.PassKeepsHealable | images/controller/pkg/controller/ceph_storage_class_watcher_func.go:468-503 | however the calls of a pass fail, what it leaves behind can be repaired |
| StorageClassConvergence.SecondPassSuffices | images/controller/pkg/controller/ceph_storage_class_watcher_func.go:78-90 | a pass that fails over a terminating StorageClass takes it away, and the create branch of the next pass heals it |
| StorageClassConvergence.TwoPassesHeal | images/controller/pkg/controller/ceph_storage_class_watcher.go:63-143 | after any number of passes failing in any way, two undisturbed ones leave finalizer, classes and status as wanted, and after a third the next sends nothing |
| StorageClassDeletion.SuccessReleases | images/controller/pkg/controller/ceph_storage_class_watcher.go:187-212 | whatever calls failed, a pass over an object being deleted that reports success has taken the finalizer and left both classes gone, terminating or foreign; gone or terminating exactly if no live class of another provisioner has the name |
| StorageClassDeletion.OnePassReleases | images/controller/pkg/controller/ceph_storage_class_watcher.go:187-212 | an undisturbed pass over an object being deleted succeeds, and so releases it, exactly if neither class is being deleted and held by the controller's finalizer only |
| StorageClassDeletion.ThreePassesRelease | images/controller/pkg/controller/ceph_storage_class_watcher_func.go:487-503 | after any number of passes failing in any way, three undisturbed ones have taken the finalizer and the classes down, if no list has the finalizer twice |
| StorageClassRuns.NoOrphanEver | images/controller/pkg/controller/ceph_storage_class_watcher.go:184-280 | in every state of every run, with other users in between, every live class made by the controller has its CephStorageClass with the finalizer |
| StorageClassRuns.ForeignStaysForever | images/controller/pkg/controller/ceph_storage_class_watcher_func.go:78-128 | passes over any CephStorageClasses in any order, between writes of others that leave the class foreign, send nothing about a StorageClass of another provisioner, and it stays as the others have put it |
| StorageClassRuns.RecreatesAreCharged | images/controller/pkg/controller/ceph_storage_class_watcher_func.go:468-485 | over any run: recreates of a StorageClass are at most the changes by others plus the failed passes and status writes, plus one if one was due at the start |
| StorageClassRuns.StepIsCharged | images/controller/pkg/controller/status_conditions.go:77-85 | one step: a recreate is paid for by one that was due, and only a failure or a change makes one due |
| StorageClassRuns.RecreatedExactlyIfDue | images/controller/pkg/controller/ceph_storage_class_watcher_func.go:92-128 | an undisturbed pass recreates the StorageClass exactly if a field of it is not as wanted or the last pass is known to have failed |
| StorageClassController.Controller.Reconcile | images/controller/pkg/controller/ceph_storage_class_watcher.go:63-143 | the imperative reconciler, with listings, searches and early returns, does exactly one pass |
| StorageClassController.Controller.RunEventReconcile | images/controller/pkg/controller/ceph_storage_class_watcher.go:184-280 | finalizer, cluster id, StorageClass, snapshot class in this order; on deletion the classes first and the finalizer last; with the error text and message of each branch |
| StorageClassController.Controller.Identify | images/controller/pkg/controller/ceph_storage_class_watcher_func.go:62-128 | from the listing alone: create if absent; nothing exactly if every field is as wanted and no retry is due; update exactly otherwise; an error for another provisioner, a crash over a missing allowVolumeExpansion |
| StorageClassController.Validate | images/controller/pkg/controller/ceph_storage_class_watcher_func.go:505-562 | the message put together step by step, and whether the spec is valid |
| StorageClassController.Controller.ReconcileStorageClass | images/controller/pkg/controller/ceph_storage_class_watcher_func.go:130-205 | create, recreate, or leave alone, as identified, and the message that says which |
| StorageClassController.Controller.DeleteSC | images/controller/pkg/controller/ceph_storage_class_watcher_func.go:487-503 | refuses foreign provisioners, removes the finalizer, deletes |
| StorageClassController.Controller.TeardownSnapshotClass | images/controller/pkg/controller/ceph_storage_class_watcher_func.go:753-804 | removes the finalizer and deletes, unless absent or foreign |
| StorageClassController.Controller.WriteStatus | images/controller/pkg/controller/ceph_storage_class_watcher_func.go:375-402 | writes condition, phase, generation and reason into the latest object, unless that changes nothing |
| StorageClasses.SpecRoundTrip | images/controller/pkg/controller/ceph_storage_class_watcher_func.go:251-366 | the spec, as far as its kind uses it, and the cluster id can be read off the StorageClass again |
| StorageClasses.ClassesAgree | images/controller/pkg/controller/ceph_storage_class_watcher_func.go:657-685 | StorageClass and snapshot class of one object name the same cluster, secret, driver and policy |
| Webhook.AdmittedUpdates | images/webhooks/handlers/scValidator.go:43-149 | the whole decision: the controller may do anything, and anybody with a provisioner not managed here; for others an update is admitted exactly if it changes annotations only, and crashes over a missing allowVolumeExpansion exactly if nothing compared before it differs; creates and deletes of managed classes are denied |
| Webhook.OnlyAnnotationsChange | images/webhooks/handlers/scValidator.go:43-149 | after any sequence of requests of other users a managed class is there, changed in its annotations only |
| Webhook.NothingManagedAppears | images/webhooks/handlers/scValidator.go:50-77 | no sequence of requests of other users makes a class of a managed provisioner |
| Webhook.WebhookAndControllerAgree | images/controller/pkg/controller/ceph_storage_class_watcher_func.go:419-466 | after any such requests about a class that was, field by field, as wanted the controller finds an empty diff exactly if annotations are left |
| Webhook.OnlyDroppedAnnotationsRecreate | images/controller/pkg/controller/ceph_storage_class_watcher_func.go:582-590 | for a class as wanted, under a status of success, a recreate becomes due exactly if all annotations were dropped, an empty map counting as none |
| LabelPrefixes.ParseStorageClassLabelIgnoredPrefixes | images/controller/pkg/config/config.go:98-112 | the loop computes the parsed list |
| LabelPrefixes.ParsedAreGood | images/controller/pkg/config/config.go:95-112 | for no input an empty prefix, one with space around it, or one with a comma |
| LabelPrefixes.ParsedInParts | images/controller/pkg/config/config.go:98-112 | parsing goes from comma to comma: what stands before a comma and what stands after it are parsed apart |
| LabelPrefixes.ParsedPart | images/controller/pkg/config/config.go:104-110 | a part without commas gives what is between the spaces around it, and nothing if there is nothing else |
| LabelPrefixes.ParseJoin | templates/controller/controller.yaml:10-22 | parsing what Helm joined gives the list back exactly if all prefixes are non-empty, trimmed and without commas |
| LabelPrefixes.CheckIgnoredLabelKey | images/controller/pkg/controller/ceph_storage_class_watcher_func.go:306-316 | true exactly if a non-empty prefix starts the key |
| LabelPrefixes.FilterLabelsForStorageClass | images/controller/pkg/controller/ceph_storage_class_watcher_func.go:292-301 | copies exactly the labels whose keys are not ignored |
| LabelPrefixes.ConfiguredPrefixesDecide | images/controller/pkg/controller/ceph_storage_class_watcher_func.go:282-301 | end to end: a label is copied exactly if no configured prefix starts its key |
| ClusterConfigs.UpdateClusterConfigsIfNeeded | images/controller/pkg/controller/ceph_cluster_connection_watcher_func.go:327-363 | the in-place list edit is the update or removal of the map; the entry has cluster id, monitors and subvolume group of the spec and names the connection's Secret for both drivers; `updated` says whether the list changed, and ids stay distinct |
| ClusterConfigs.FindClusterConfigByClusterID | images/controller/pkg/controller/ceph_cluster_connection_watcher_func.go:317-325 | finds the first entry for the id exactly if the map has one |
| ClusterConfigs.PutRefines | images/controller/pkg/controller/ceph_cluster_connection_watcher_func.go:342-359 | replacing or appending is the update of the map, keeps ids distinct, changes nothing exactly if the map has that entry, and repeating it changes nothing |
| ClusterConfigs.DropRefines | images/controller/pkg/controller/ceph_cluster_connection_watcher_func.go:333-340 | cutting an entry out is removal from the map if ids are distinct |
| ClusterConfigs.DropRemovesIfOnce | images/controller/pkg/controller/ceph_cluster_connection_watcher_func.go:333-340 | cutting the first entry out removes the id from the map exactly if no other entry has it; otherwise the next one comes to light |
| ConnectionTheorems.ConfigMapRefines | images/controller/pkg/controller/ceph_cluster_connection_watcher_func.go:109-144 | reconciling the ConfigMap is one update of the shared map, done if reported so, and otherwise done or not |
| ConnectionTheorems.PassUpdatesMap | images/controller/pkg/controller/ceph_cluster_connection_watcher.go:158-207 | a pass either leaves the shared map or makes exactly the change its connection asks for, and makes it if it reports success |
| ConnectionTheorems.TeardownIsOrdered | images/controller/pkg/controller/ceph_cluster_connection_watcher.go:194-200 | with failures at any call, the finalizer is lost only on deletion, and then the cluster id is gone from the list and the Secret is gone or terminating |
| ConnectionTheorems.SecretTeardown | images/controller/pkg/controller/ceph_cluster_connection_watcher_func.go:434-455 | a Secret teardown without error leaves the Secret gone or terminating |
| ConnectionConvergence.FixedPoint | images/controller/pkg/controller/ceph_cluster_connection_watcher.go:158-207 | an undisturbed pass over a live connection succeeds without a write exactly if finalizer, list entry and Secret are as wanted |
| ConnectionConvergence.Convergence | images/controller/pkg/controller/ceph_cluster_connection_watcher.go:158-207 | after a pass that reports success the next undisturbed pass leaves the list alone, and sends nothing exactly if the Secret held no keys of others |
| ConnectionConvergence.SecretConverges | images/controller/pkg/controller/ceph_cluster_connection_watcher_func.go:457-546 | one update of the Secret reaches a state the next pass does not write exactly if the stored keys were among the four wanted |
| ConnectionConvergence.OnePassSuffices | images/controller/pkg/controller/ceph_cluster_connection_watcher.go:158-207 | an undisturbed pass succeeds exactly if the spec is valid, the ConfigMap is not terminating and the Secret is not half gone; and then a connection being deleted loses the finalizer, and its Secret is gone or terminating |
| ConnectionConvergence.Releases | images/controller/pkg/controller/ceph_cluster_connection_watcher.go:158-207 | whatever calls failed, a pass over a connection being deleted that reports success without asking to come again has taken the finalizer, the list entry is gone, and the Secret is gone or terminating |
| ConnectionConvergence.TwoPassesReplaceConfigMap | images/controller/pkg/controller/ceph_cluster_connection_watcher_func.go:251-261 | a terminating ConfigMap held by the controller's finalizer only: the pass requeues, and the next one makes it anew for a live connection; one being deleted loses the finalizer, its Secret gone or terminating |
| ConnectionConvergence.RequeueLooksReady | images/controller/pkg/controller/ceph_cluster_connection_watcher_func.go:137-138 | what the code does not give: that requeueing pass reports no error, and its status says Ready although the list has no entry |
| ConnectionConvergence.NewConfigMapKnowsOne | images/controller/pkg/controller/ceph_cluster_connection_watcher_func.go:194-243 | what the code does not give: a ConfigMap made anew has the entry of one connection only |
| ConnectionConvergence.SharedIdIsTornDown | images/controller/pkg/controller/ceph_cluster_connection_watcher_func.go:333-340 | tearing a connection down leaves the entry of another one in the list exactly if their cluster ids differ |
| ConnectionConvergence.ReadyUnlessRequeued | images/controller/pkg/controller/ceph_cluster_connection_watcher_func.go:109-144 | when a pass over a live connection reports no error, and its status so says Ready, it asks to come again exactly if the ConfigMap was being deleted; list entry and Secret are as wanted afterwards exactly if it was not, or if another finalizer holds it and they were as wanted before |
| ConnectionRuns.ListIsTheMap | images/controller/pkg/controller/ceph_cluster_connection_watcher_func.go:162-192 | over any run of users and passes failing in any way: ids stay distinct, every entry belongs to a connection with the finalizer, and every connection's entry says, field by field, what the spec last reconciled or one tried since says |
| ConnectionRuns.OrderDoesNotMatter | images/controller/pkg/controller/ceph_cluster_connection_watcher_func.go:327-363 | when every connection's last pass succeeded, the map is determined by the last reconciled specs, whatever the order |
| ConnectionRuns.RunKeepsInv | images/controller/pkg/controller/ceph_cluster_connection_watcher.go:158-207 | the invariant behind it holds in every state of every run |
| ConnectionRuns.StartKeepsInv | images/controller/pkg/controller/configmap_init.go:35-67 | the empty ConfigMap made at startup satisfies it |
| EndToEnd.ReconciledConnectionServes | images/controller/pkg/controller/ceph_cluster_connection_watcher_func.go:366-432 | a reconciled connection has an entry with its cluster id, monitors and subvolume group, whose references for both drivers are to the Secret that holds its credentials |
| EndToEnd.MovedVolumeFindsItsSecret | hooks/go/funcs/funcs.go:540-549 | in every state of every run: each reference of a volume of a labelled driver names the Secret that the controller keeps for the connection the hook has made; once that connection, as it is stored, is reconciled, the Secret holds the driver's credentials and the list has its monitors and subvolume group |
| EndToEnd.ClassAndVolumesAgree | hooks/go/060-migrate-from-ceph-csi-module/migrate-from-ceph-csi-module.go:147-149 | the StorageClass that the controller keeps for a migrated class names the Secret its volumes were moved to |
| EndToEnd.ClassesSurvive | hooks/go/060-migrate-from-ceph-csi-module/migrate-from-ceph-csi-module.go:186-253 | pool, file system and policy that a driver gives for a class are those of the StorageClass that the controller keeps in the end |
| ConnectionController.CompareSecretsData | images/controller/pkg/controller/ceph_cluster_connection_watcher_func.go:528-546 | size and inclusion amount to equality: says that they differ exactly if stored and wanted data differ |
| ConnectionController.SameSizeSubset | images/controller/pkg/controller/ceph_cluster_connection_watcher_func.go:528-546 | two maps of one size, one included in the other, are equal |
| ConnectionController.AddRequiredMetadata | images/controller/pkg/controller/ceph_cluster_connection_watcher_func.go:491-526 | afterwards label and finalizer are there, nothing else has changed, and `added` says whether anything was missing |
| ConnectionController.Controller.UpdateConfigMap | images/controller/pkg/controller/ceph_cluster_connection_watcher_func.go:246-315 | strips a terminating ConfigMap and asks to come again; otherwise edits list and metadata and writes only if something changed |
| ConnectionController.Controller.ReconcileMap | images/controller/pkg/controller/ceph_cluster_connection_watcher_func.go:109-144 | create, update, or nothing to tear down |
| ConnectionController.Controller.ReconcileSecretOf | images/controller/pkg/controller/ceph_cluster_connection_watcher_func.go:366-389 | create, update or tear down the connection's Secret |
| ConnectionController.Controller.UpdateSecretIfNeeded | images/controller/pkg/controller/ceph_cluster_connection_watcher_func.go:457-489 | writes exactly if data or metadata differ, and sends stringData only if the data differ |
| ConnectionController.Controller.RunEventReconcile | images/controller/pkg/controller/ceph_cluster_connection_watcher.go:158-207 | the imperative reconciler does exactly one pass |

## Left out

- CsiMigration.HandlerMigrateFromCephCsiModule: when success is certain is stated for the case that nobody else creates volumes. A run over update-only volumes that can still be protected has the two directions separately (success only if nothing is in the way; failure although nothing is only if one of them was protected meanwhile), since whether the outside world acts in time is not in the store.
- MigrationLiveness.MigrateUntilDone: the runs counted are without failing calls; volumes created with one reference only, RBD classes without allowVolumeExpansion, and reused backup times are excluded, since each of these can make every run fail.
- SnapshotMigration.Client.MigrateVSClassesAndVSContents: nobody else writes snapshot objects meanwhile, so that no update is a conflict.
- PvMigration.AwaitDeletion: polling is bounded by 36 attempts, one every five seconds for three minutes; clocks are not modelled.
- PvMigration.MigratePVsToNewSecret: with other creators of volumes only safety is stated, since a volume created by somebody else ends the loop without an error.
- StorageClassRuns.NoOrphanEver: other users may do anything but take the controller's finalizer or make a live class that looks like the controller's; the presence of the snapshot CRD is fixed.
- ConnectionRuns.ListIsTheMap: others neither delete nor edit the ConfigMap; ConnectionConvergence says what happens if it is deleted.
- ConnectionPass.Pass: the status write after a connection pass is not part of it; it is the same code as for CephStorageClass, whose status is modelled.
- Stopping and restarting CSI components and the Prometheus operator around the migration (DisableCSIComponents, ScaleDeployment).
- The wording of errors: a text is abbreviated to what failed and the code. The names of the condition reasons and the time of the last transition belong to sds-common-lib, which is not part of this model.
- Event filters of the watches, requeue intervals and retry delays, logging.
- The CephClusterAuthentication controller, the TLS certificate hook and the hook that strips finalizers when the module is removed.
- The TypeMeta and namespace fields of objects and the AllowedTopologies of StorageClasses beyond their comparison in the webhook.
- Templates other than the one that joins the label prefixes, CRDs beyond immutability, and the release scripts.
