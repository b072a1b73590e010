# Verification of hostpath-provisioner

A Dafny model of kubevirt/hostpath-provisioner and proofs about it. The project has two halves, one for
each of the repository's programs.

**The provisioning controller** (`controller/`, `cmd/provisioner/`). One controller runs per node, without
leader election; they share only the API server.

- `HostPath.dfy`, `Capacity.dfy`: one node's provisioner.
- `Cluster.dfy`: all controllers around one API server. Every API call, directory operation and informer
  hand-over is an event, and a run is any interleaving of events.
- `ClaimView.dfy`, `ClusterSafety.dfy`: the cluster as one claim sees it, and what every run keeps there.
- `ClusterOrigins.dfy`: which claims are taken up, and what is saved for them.
- `ClusterResults.dfy`, `ClusterLimits.dfy`: the safety results, and for each of them the exact condition under
  which it holds in all runs, with a run that breaks it otherwise.
- `ClusterPlan.dfy`: real nodes and claims meet the hypotheses.
- `ClaimWorkers.dfy`, `WorkQueue.dfy`: the claim queue, its retry limit and `claimsInProgress`.
- `VolumeStore.dfy`: the queue store and the blocking back-off store.

**The CSI driver** (`pkg/hostpath/`).

- `Pools.dfy`: the listing of volume directories over all pools, and looking volumes up in it.
- `Paging.dfy`, `Strings.dfy`, `Paths.dfy`: the paged List RPCs, with their tokens as strings.
- `Snapshots.dfy`, `SnapshotServer.dfy`: the reflink snapshot store and the RPCs over it.
- `NodeServer.dfy`: publish and unpublish as interleaved system calls over a mount table.

`dafny verify dfyconfig.toml` checks everything.

## What the model takes as given

- A failed Get means that there is no such PV (`DoCheckPv`). After a failed Create the API server holds what it
  held before, and AlreadyExists is an answer rather than a failure (`DoCreate`).
- Other cluster components keep a PV's name, claim reference, path, affinity and the three annotations that
  the controllers read; they may add and change any other annotation. They never leave the phase Released and
  do not delete PVs (`LegalUpdate`).
- The node that a claim's annotations name does not change during a run (`DoSeeClaim`); node names are distinct.
- A volume queue hands a key to one worker until Done. `forgetVolume` calls Done too, once for every deletion
  of the PV and at any time after it (`DoForget`).
- `Config.informersCurrent` says that a claim pass which finds no PV is never working for a claim whose PV
  was Released before. It is a parameter, and the results of `ClusterLimits` say exactly where it is needed.
- A controller may restart at any moment. It then loses its passes, workers, queues, cached claims and the PVs
  its store keeps, and may still be told of earlier deletions (`DoCrash`). All results about runs of the cluster
  include such restarts. So do those of `NodeServer`, where a restart of the driver cuts the RPCs in flight short.
  `ClaimWorkers` and `QueueStore` follow one process from its start to its end.
- Kubernetes is 1.6 or later where the storage class name is set, and 1.5 or later where PVs are deleted.
- CSI callers keep one RPC per volume in flight. That a target path is used for one volume only is the
  hypothesis `Unshared`; `OneMountIffUnshared`, `RemoveNeverThroughMountIff` and `UnpublishKeepsVolumesIff` say
  exactly where it is needed.
- Targets are outside the pools, pools are not nested, and ids are single path components.
- CreateVolume is one step in `Snapshots`, although it holds the snapshot mutex only while it restores.
- `cp -rp src/. dst` overrides file by file and is not interrupted by writes to its source.

## Results that differ from what the code's comments or the CSI specification suggest

- ListSnapshots never shows its last entry when there are several and the page size divides their number
  minus one (`SnapshotCoverage`); ListVolumes has the same test.
- ListVolumes issues volume names as tokens and accepts only 32-bit decimal numbers, so volumes named after
  PVs never get past one page (`PvcNamesStopAfterOnePage`). `GetsListingIff` says which names do work.
- With the queue store a PV can be live without its directory, can lose its API object first, and can
  leave its directory behind. With the blocking store each of these needs a stale claim and, from Kubernetes
  1.9 on, a delete notification that takes the key away from a worker (`NoLossIff`,
  `PvGoesAfterDirectoryIff`, `DirectoryAccountedForIff`).
- A controller that restarts between making a directory and saving its PV forgets the directory, with either
  store (`CrashOrphans`).
- With the queue store a claim can get two PVs in turn although the informers are current, and with stale claims
  any number (`LivesBoundIff`).
- A volume key has two workers at once after a late delete notification, in every configuration (`OneWorkerIff`).
- A claim whose UID is also a PV name can fail once more than its threshold allows, because the two queues
  share a limiter and check it before they count (`BoundIffUnshared`).
- The back-off store without any step reports success although nothing was saved (`BackoffStore.StoreVolume`).
- A snapshot whose copy failed half-way is reported as ready on the next call (`RetryFaithfulIff`), and a
  source volume called "data" cannot be looked up again (`SourceRecordedIff`).
- A CreateVolume whose restore fails deletes the volume even if it existed before, and leaves a new one behind if
  the deletion fails as well (`FailedRestoreHarmlessIff`).
- Repeating a CreateVolume from a snapshot puts back every file of the snapshot that was changed or removed since
  (`RepeatedRestoreIff`).
- Two volumes on one target path lose data: unpublishing one of them empties the other (`SharedTargetWipes`,
  `UnpublishKeepsVolumesIff`).
- Whether a volume is ephemeral is decided by the request at publish and by the id's prefix at unpublish, which
  then deletes from the last pool that holds the id (`EphemeralRoundTripIff`).

## Model

| member | source | states |
|---|---|---|
| HostPath.IsCorrectNodeByBindingMode | cmd/provisioner/hostpath-provisioner.go:94-120 | true exactly if the claim asks for this node by name, or asks for none and was scheduled to it under WaitForFirstConsumer; the write to the shared annotations changes no other key and never the target, so all nodes keep agreeing |
| HostPath.VolumePathsApart | cmd/provisioner/hostpath-provisioner.go:139-144 | different claims get directories of which none is inside another; with the naming prefix this needs UIDs of which neither tail ends with the other |
| HostPath.NamingPrefixCollidesIff | cmd/provisioner/hostpath-provisioner.go:142-144 | two UIDs can share a directory, for some claim names, if and only if one of "-pvc-" + UID ends with the other |
| HostPath.OneLengthNotEntangled | cmd/provisioner/hostpath-provisioner.go:142-144 | that never happens to different UIDs of one length |
| HostPath.ProvisionerObject.Provision | cmd/provisioner/hostpath-provisioner.go:139-196 | succeeds exactly if statfs and mkdir do; makes exactly the directory the returned PV names |
| HostPath.ProvisionerObject.Delete | cmd/provisioner/hostpath-provisioner.go:200-219 | the verdict of the guards in order; only Permitted touches the disk, and then removes exactly what is under the PV's path |
| HostPath.DeleteVerdictIff | cmd/provisioner/hostpath-provisioner.go:200-210 | for any PV, Delete goes ahead exactly if the PV's identity annotation is the provisioner's and its node annotation is this node; a missing identity and a foreign one are told apart exactly |
| HostPath.ProvisionDeleteRoundTrip | controller/controller.go:1239-1252 | the saved PV passes Delete on its own node and on no other, and Delete undoes Provision and all writes below the directory |
| HostPath.PvNameInjective | controller/controller.go:1369-1371 | PV names of different claims differ |
| HostPath.ShouldDeleteIff | controller/controller.go:1075-1117 | a PV should be deleted exactly if its policy is Delete, it was provisioned by us, it is Released (before 1.5 also Failed) and, from 1.9 on, it is not marked; finalizers never matter |
| Capacity.RoundDownCapacityPretty | cmd/provisioner/hostpath-provisioner.go:233-247 | the loop over units computes whole GiB from 10 GiB, whole MiB from 10 MiB, else the argument, negative ones included |
| Capacity.RoundedIsFloor | cmd/provisioner/hostpath-provisioner.go:233-247 | from 10737418240 on the result is the largest multiple of 1073741824 not above the argument, from 10485760 on the largest multiple of 1048576, and below that the argument |
| Capacity.RoundedLoss | pkg/hostpath/utils.go:67-82 | never more than the argument; loses less than a tenth of the result |
| Capacity.RoundedMonotone | pkg/hostpath/utils.go:67-82 | larger capacities never round to less |
| Capacity.RoundedIdempotent | pkg/hostpath/utils.go:67-82 | rounding a rounded value changes nothing |
| Capacity.ShouldProvision | cmd/provisioner/hostpath-provisioner.go:122-136 | accepts exactly on the target node with a readable and large enough pool; an accepted request fits the real capacity |
| Cluster.OnlyHomeDeletes | cmd/provisioner/hostpath-provisioner.go:200-210 | any version of a claim's PV is deletable on the claim's node and nowhere else |
| Cluster.OnlyTargetQualifies | controller/controller.go:1038-1071 | whatever nodes have written to the claims they cached, only the claim's target gets past shouldProvision |
| ClusterOrigins.PassBeginsIff | controller/controller.go:1038-1071 | in every run a pass begins on a node exactly when the node takes the claim up, the pool fits, and the claim's annotations there ask for the node by name, or name none, were scheduled there and name our provisioner; that node is then the claim's target |
| ClusterOrigins.TakingUpWritesNote | cmd/provisioner/hostpath-provisioner.go:94-108 | taking a claim up on the node it asks for by name leaves our provisioner's name in that node's cached claim; no other annotation and no other node's cache changes |
| ClusterOrigins.ForeignClaimLeftAlone | controller/controller.go:1055-1071 | a claim that every informer always shows without our provisioner and without a node asked for by name never gets a directory or a PV, in any run |
| ClusterOrigins.PvSavedAsMade | controller/controller.go:1237-1256 | whatever event adds a PV to the API server, each of its fields is what the claim's target node makes for it: name, claim reference, the three annotations and no other, affinity, path, policy Delete, the claim's class, and the capacity found when the directory was made |
| Cluster.PlacementAlways | controller/controller.go:1141-1260 | in every run, with any node taking up any claim, every PV version, pending PV, directory, claim pass and volume worker is where the claim's target node puts it |
| ClusterSafety.SoundAlways | controller/controller.go:1141-1303 | in every state of every run, restarts included, each claim's directory, PV, pass, kept PV and volume workers satisfy what the claim's own machine keeps: one worker until a deletion is reported, directory and PV in step where the store is protected, and with current informers no more PVs, past, present and about to be saved, than one with the blocking store or two with the queue store |
| ClusterResults.LivePvHasDirectory | controller/volume_store.go:184-241 | a PV that is not Released has its directory on its node, in every run of the blocking store with current informers, and with stale ones from 1.9 on until the node's informer reports a deletion of the name |
| ClusterResults.DirectoryAccountedFor | controller/volume_store.go:205-240 | under the same condition a directory has a PV, a pass working on it, a recorded failed clean-up, or a recorded crash of its node before the PV was saved |
| ClusterResults.RemovalJustified | controller/controller.go:1265-1293 | with either store and any informers a directory is removed only by its own node, by a worker whose cached PV and whose read of a PV of that name since it began were both Released, of policy Delete, annotated as provisioned by us and, from 1.9 on, not marked, or by the clean-up of the claim's own pass in the blocking store |
| ClusterResults.RetainedVolumeStays | controller/controller.go:1104-1106 | in every run a PV that had another policy than Delete whenever it was Released keeps its API object, and no worker removes its directory |
| ClusterResults.RemovalNotLive | controller/controller.go:1265-1287 | the PV is Released or gone while a worker removes its directory, given current informers and the blocking store or 1.9, or from 1.9 on as long as the node's informer has not reported a deletion of the name |
| ClusterResults.CleanUpUnsaved | controller/volume_store.go:205-240 | with current informers the clean-up is for a claim of which no PV was ever saved |
| ClusterResults.OneWorkerUntilTold | controller/controller.go:894-933 | a node has one worker at a time for a PV until its informer reports a deletion of that name |
| ClusterResults.LivesBounded | controller/volume_store.go:80-88 | with current informers a claim gets one PV in all with the blocking store and two at most with the queue store, whichever Kubernetes version |
| ClusterResults.CutNeedsCrash | controller/controller.go:1220-1260 | a run without restarts records no PV as lost in one |
| ClusterResults.PvGoesAfterDirectory | controller/controller.go:1295-1303 | under the condition of LivePvHasDirectory a PV object disappears only when it was Released and its directory is already gone |
| ClusterPlan.PlanIsWellFormed | controller/controller.go:1038-1071 | real nodes and claims satisfy all hypotheses of the results about runs |
| ClusterPlan.DirectoryOnTargetOnly | cmd/provisioner/hostpath-provisioner.go:94-144 | in every run a claim has a directory on its target node at most, retries and either store included |
| ClusterPlan.PvDenotesClaim | controller/controller.go:1237-1256 | name, claim reference, annotations, affinity and path of every PV denote one claim and its target node |
| ClusterLimits.LeftOverByNotice | controller/controller.go:745-756 | a run in which the late delete notification of a first PV takes the key from a worker on the second, so that it is still approved when that PV is gone |
| ClusterLimits.LeftOverByMark | controller/controller.go:1082-1090 | before 1.9 a marked PV is approved a second time, with the same effect and without a notification |
| ClusterLimits.StaleClaimLosesData | controller/controller.go:1147-1156 | a run in which a stale claim pass then ends with a live PV whose directory is gone |
| ClusterLimits.QueueStoreLosesData | controller/volume_store.go:80-88 | the same with the queue store, with current informers and without a notification |
| ClusterLimits.NoLossIff | controller/controller.go:617-638 | no run has a live PV without its directory if and only if the store is blocking and the informers are current or, over runs without reported deletions, Kubernetes is 1.9 or later |
| ClusterLimits.QueueStoreDooms | controller/volume_store.go:80-88 | a run of the queue store with a PV, its directory and a worker about to delete the PV |
| ClusterLimits.PvGoesAfterDirectoryIff | controller/controller.go:1287-1303 | no run deletes a PV that is live or has its directory if and only if the same condition holds |
| ClusterLimits.DirectoryAccountedForIff | controller/volume_store.go:205-240 | no run leaves a directory without PV, pass, kept PV, worker or recorded failed clean-up if and only if the same condition holds and runs in which a crash loses an unsaved PV of the claim are set aside |
| ClusterLimits.CrashOrphans | controller/controller.go:1220-1260 | for every configuration a run in which the node restarts after Provision and leaves such a directory |
| ClusterLimits.RemovalNotLiveIff | controller/controller.go:1265-1287 | no run has a worker remove the directory of a live PV if and only if the informers are current and the store is blocking or Kubernetes is 1.9 or later, or no deletion is reported and it is 1.9 or later |
| ClusterLimits.CleanUpUnsavedIff | controller/volume_store.go:205-240 | the clean-up removes directories only of claims of which no PV was ever saved if and only if the store is the queue store or the informers are current |
| ClusterLimits.ManyLives | controller/controller.go:1147-1156 | with stale informers a run in which a claim gets its PV again after any number of deletions |
| ClusterLimits.LivesBoundIff | controller/volume_store.go:80-88 | no run gives a claim more than n PVs if and only if the informers are current and n is at least one for the blocking store or two for the queue store |
| ClusterLimits.NoticeAddsWorker | controller/controller.go:745-756 | for every configuration a run in which a late delete notification lets a second worker have the same key |
| ClusterLimits.OneWorkerIff | controller/controller.go:894-933 | a node has one worker per PV in all runs if and only if runs with reported deletions of it are set aside |
| ClaimWorkers.InProgressIsQueued | controller/controller.go:648-651 | in every interleaving each claim in progress is queued, processed or delayed, so ignoring informer deletes is safe |
| ClaimWorkers.InProgressIsHistory | controller/controller.go:938-972 | a claim is in progress exactly when its last decisive result was Background with an error and it was not given up since, and the map holds the claim as that sync had it |
| ClaimWorkers.NothingInProgressWithoutExt | controller/volume.go:66-100 | without ProvisionExt the map is empty in every run |
| ClaimWorkers.SyncClaimMeans | controller/controller.go:1141-1260 | where Provision is called a sync fails exactly on its error or, without one, on a PV that was not stored, and before that exactly on a class that cannot be read or a node that is gone; NoChange and Background exactly in the given cases |
| ClaimWorkers.StoredNeverReadded | controller/controller.go:846-891 | in every run the worker that provisioned and stored a PV neither re-adds the claim nor gives it up, and one whose Provision or store failed does not forget its failures |
| ClaimWorkers.ReaddsBounded | controller/controller.go:862-877 | the failure count is the number of re-adds since the last success and never exceeds the threshold; a claim that never succeeds is re-added at most that often |
| ClaimWorkers.SharedKeyOvershoots | controller/controller.go:894-933 | a run in which a volume worker passes its threshold check, the claim of the same key fails up to its threshold, and the volume failure is counted on top |
| ClaimWorkers.BoundIffUnshared | controller/controller.go:599-615 | for every pair of thresholds a claim's bound holds in all runs exactly when its key is no volume key, because the queues share a limiter |
| ClaimWorkers.VolumeRetriesBounded | controller/controller.go:894-933 | a volume key that is no claim key never has more failures than its threshold in any run with one worker at a time on it, and never more than n - 1 above with up to n |
| ClaimWorkers.AbandonedForGood | controller/controller.go:718-727 | a claim with failures on record that is in no queue set is never handed to a worker again |
| ClaimWorkers.AbandonedForGoodIff | controller/controller.go:718-727 | that is so in all later runs exactly when its key is no volume key |
| ClaimWorkers.GiveUpAbandons | controller/controller.go:869-875 | giving up ends all processing of a claim that nothing queued meanwhile, and it is not in progress afterwards |
| ClaimWorkers.ProvisionController.EnqueueClaim | controller/controller.go:718-727 | the handler is the run of its check and its Add; a claim without failures is queued afterwards, and one that was given up stays so |
| ClaimWorkers.ProvisionController.SyncClaimHandler | controller/controller.go:938-972 | the result and the new claimsInProgress for every lookup outcome |
| ClaimWorkers.ProvisionController.TakeAndSync | controller/controller.go:846-862 | the code up to the result is the run of its atomic events |
| ClaimWorkers.ProvisionController.ProcessNextClaimWorkItem | controller/controller.go:846-891 | one item without interference ends where its atomic events lead, so it refines the interleaving model |
| QueueStore.NothingLost | controller/volume_store.go:80-155 | in every interleaving an accepted volume was saved or is kept, and a kept one is queued, processed, delayed or about to be added |
| QueueStore.QuietMeansSaved | controller/volume_store.go:80-155 | when nothing is left to do every accepted volume has been saved and none is kept |
| QueueStore.KeptCanBeSaved | controller/volume_store.go:106-155 | from every state of every interleaving some continuation saves and drops a kept volume, so none is ever stuck |
| QueueStore.SavedWasOffered | controller/volume_store.go:80-155 | in every interleaving what is saved or kept under a name is a volume that StoreVolume was called with under that name |
| QueueStore.Store.StoreVolume | controller/volume_store.go:80-88 | the call is the run of its atomic events in the interleaving model, keeps its invariant for every name, and saves exactly this volume or else keeps and queues it |
| QueueStore.Store.ProcessNextWorkItem | controller/volume_store.go:106-145 | the item is the run of its atomic events in the interleaving model; the kept volume is saved as it is and only then dropped, and stays kept and queued otherwise |
| BackoffStore.StoreVolume | controller/volume_store.go:184-241 | nil exactly if some attempt saved the PV, with no Delete then; else the last error, all Creates used, and the asset gone exactly if some Delete worked; without steps nil although nothing was saved |
| Strings.TokenRoundTrip | pkg/hostpath/controllerserver.go:547-565 | a printed token is read back as the same number |
| Strings.ParseIff | pkg/hostpath/controllerserver.go:322-327 | a token is accepted exactly if it is a non-empty string of digits for a number below 4294967296 |
| Strings.ListingUnique | pkg/hostpath/utils.go:157-172 | a sorted listing depends only on the names in it, not on map order |
| Strings.LessIff | pkg/hostpath/utils.go:170-172 | the order of the listing is the byte order: at the first position where two names differ one ends or has the smaller character |
| Paging.ListSnapshots | pkg/hostpath/controllerserver.go:535-573 | the loop yields the slice its token and size denote; bad tokens are Aborted, ranges outside the list panic |
| Paging.SnapshotAnswersIff | pkg/hostpath/controllerserver.go:535-573 | Aborted exactly for a token that is no number or any token without snapshots, a panic exactly for a number outside the list, else the entries from that number on |
| Paging.SnapshotTokenResumes | pkg/hostpath/controllerserver.go:551-565 | an issued token stands for the index right after the page and is in range |
| Paging.SnapshotCoverage | pkg/hostpath/controllerserver.go:535-572 | following tokens terminates with full, contiguous pages; the last entry is missing exactly when n > 1 and the page size divides n - 1 |
| Paging.IndexOfStartingToken | pkg/hostpath/utils.go:117-125 | the first directory with the name, or -1 if there is none |
| Paging.ListVolumes | pkg/hostpath/controllerserver.go:299-376 | the loop yields the page its token denotes, with every error branch |
| Paging.VolumeAnswersIff | pkg/hostpath/controllerserver.go:322-365 | InvalidArgument exactly for a negative size or a numeric token that no volume has, Aborted exactly for other tokens that are no number or find no volumes, else the page from the first volume of that name on |
| Paging.TokenResumesIff | pkg/hostpath/controllerserver.go:339-369 | a volume token leads back to its position exactly when no earlier volume has that name |
| Paging.SharedNameLoops | pkg/hostpath/controllerserver.go:339-369 | if the volume after the first page has the name of the first volume, every further page is the first one again |
| Paging.GetsListingIff | pkg/hostpath/controllerserver.go:322-369 | for any listing, ids shared by pools included, following tokens yields contiguous pages and then a page without a token if and only if every position that is a multiple of the page size, short of the last entry, has a 32-bit decimal name that no earlier volume has |
| Paging.VolumeCoverage | pkg/hostpath/controllerserver.go:343-369 | contiguous pages are full up to the last and cover the listing as for snapshots; without a page size or without volumes one page has everything |
| Paging.TranscriptsAgree | pkg/hostpath/controllerserver.go:322-369 | what a client sees by following tokens is determined by the listing and the page size |
| Paging.PvcNamesStopAfterOnePage | pkg/hostpath/controllerserver.go:322-327 | a name starting with "p" as the next token ends the client's transcript with Aborted after one page |
| Pools.GetStoragePoolDataDirectories | pkg/hostpath/utils.go:157-172 | whatever the map order the result is the sorted listing of all volume directories; an unreadable pool fails it |
| Pools.PagingApplies | pkg/hostpath/utils.go:157-172 | that listing meets the hypotheses of the results about paging |
| Pools.FindVolume | pkg/hostpath/controllerserver.go:205-211 | the last match in the listing is the picked pool's directory; none exactly if no pool holds the id |
| Pools.RemoveVolume | pkg/hostpath/utils.go:106-115 | removing a volume's path removes that entry and nothing else in any pool |
| Pools.DeleteClears | pkg/hostpath/controllerserver.go:197-219 | k calls clear an id held by k pools, fewer do not, further calls change nothing |
| Pools.Volumes.ControllerGetVolume | pkg/hostpath/controllerserver.go:378-423 | NotFound exactly if no pool holds the id, else the path DeleteVolume would remove |
| Pools.Volumes.DeleteVolume | pkg/hostpath/controllerserver.go:197-219 | removes exactly the directory ControllerGetVolume reports |
| Snapshots.SnapshotStable | pkg/hostpath/reflink.go:154-207 | only its own deletion ever changes a snapshot, whatever else happens or fails |
| Snapshots.SnapshotTaken | pkg/hostpath/reflink.go:154-182 | a successful new snapshot holds exactly the volume's files |
| Snapshots.SnapshotFaithful | pkg/hostpath/controllerserver.go:113-173 | a new volume made from a snapshot after any run gets exactly the files the source had when it was taken |
| Snapshots.SnapshotsLeaveVolumes | pkg/hostpath/controllerserver.go:438-502 | creating and deleting snapshots changes no volume, whatever fails |
| Snapshots.CreateVolumeElsewhere | pkg/hostpath/controllerserver.go:140-163 | CreateVolume changes no other volume and no other pool, whatever fails |
| Snapshots.CreateVolumePlain | pkg/hostpath/controllerserver.go:140-148 | without a snapshot it succeeds exactly if the pool is known and the volume exists or can be made, leaves an existing volume as it is, makes a new one empty, and repeated changes nothing |
| Snapshots.CreateVolumeRestores | pkg/hostpath/controllerserver.go:150-163 | from a snapshot it succeeds exactly if moreover the pool has the snapshot's data and the copy works; the volume then has the snapshot's files and keeps those that the snapshot lacks |
| Snapshots.RepeatedRestoreIff | pkg/hostpath/controllerserver.go:140-163 | repeated for an existing volume it changes nothing if and only if the volume still has every file of the snapshot as it was |
| Snapshots.AllTidyAlways | pkg/hostpath/reflink.go:105-118 | in failure-free runs every snapshot directory holds its data and one source marker |
| Snapshots.SourceRecordedIff | pkg/hostpath/reflink.go:82-118 | lookup returns the source passed to CreateSnapshot if and only if it is not called "data" |
| Snapshots.SnapshotAnswersIff | pkg/hostpath/controllerserver.go:438-485 | every answer of CreateSnapshot by its request: InvalidArgument, Ready and AlreadyExists each exactly when the snapshot, its recorded source, the volume and the provider say so |
| Snapshots.NoOtherSnapshot | pkg/hostpath/reflink.go:154-182 | whatever fails, CreateSnapshot brings no snapshot into being but the one it names |
| Snapshots.ReflinkCreateRepeats | pkg/hostpath/reflink.go:154-182 | the provider on its own confirms a snapshot it has made without touching it |
| Snapshots.CreateSnapshotIdempotent | pkg/hostpath/controllerserver.go:438-485 | repeating at any later time succeeds, another source is AlreadyExists, and neither changes anything |
| Snapshots.DataBranchUnreachable | pkg/hostpath/controllerserver.go:438-485 | every CreateSnapshot does and answers the same as with a provider that lacks the branch for existing data |
| Snapshots.RetryFaithfulIff | pkg/hostpath/reflink.go:154-182 | a retry yields the volume's files if and only if the first attempt left nothing or copied everything |
| Snapshots.FailedRestoreHarmlessIff | pkg/hostpath/controllerserver.go:140-163 | a failed CreateVolume from a snapshot leaves all pools as they were if and only if the request named no volume or pool, or the volume was new and either was not made or was cleaned up, or it existed, the clean-up failed and the copy had written nothing it did not have |
| Snapshots.ListedOnce | pkg/hostpath/reflink.go:134-152 | the list of all snapshots names each exactly once |
| SnapshotServer.GetSourceVolumeId | pkg/hostpath/reflink.go:105-118 | the loop finds the least entry other than "data" |
| SnapshotServer.HostPathController.GetAllSnapshots | pkg/hostpath/reflink.go:134-152 | all snapshots in name order, or an error exactly if one has no marker |
| SnapshotServer.HostPathController.CreateSnapshot | pkg/hostpath/controllerserver.go:438-485 | the RPC's effect on the pools and its reply are those of the store model |
| SnapshotServer.HostPathController.DeleteSnapshot | pkg/hostpath/controllerserver.go:487-502 | succeeds exactly if no removal fails, and then no pool has the snapshot, whatever the map order |
| SnapshotServer.HostPathController.RestoreSnapshot | pkg/hostpath/reflink.go:209-229 | copies the data over the volume; without provider, data or volume the error of the source, and nothing changes |
| SnapshotServer.HostPathController.CreateVolume | pkg/hostpath/controllerserver.go:113-173 | the RPC's effect on the pools and its reply are those of the store model |
| NodeServer.OneMountIffUnshared | pkg/hostpath/nodeserver.go:81-119 | over existing volumes a target never carries two mounts in any interleaving if and only if all requests for it are for one volume |
| NodeServer.SharedTargetMountsTwice | pkg/hostpath/nodeserver.go:91-100 | from any state at rest an interleaving of two publish RPCs that mounts twice on a shared target |
| NodeServer.OneMountPerTarget | pkg/hostpath/nodeserver.go:81-119 | in every interleaving an unshared target carries at most one mount, so one Unmount is enough |
| NodeServer.RemoveNeverThroughMount | pkg/hostpath/nodeserver.go:205-226 | an unshared target is never removed while something is mounted on it |
| NodeServer.RemoveNeverThroughMountIff | pkg/hostpath/nodeserver.go:205-226 | over existing volumes no run is about to remove the target while something is mounted on it if and only if all requests for it are for one volume |
| NodeServer.SharedTargetWipes | pkg/hostpath/nodeserver.go:205-226 | a run on a shared target in which the unpublish of one volume empties the other, whatever their ids |
| NodeServer.UnpublishKeepsVolumes | pkg/hostpath/nodeserver.go:198-234 | no call of an unpublish on an unshared target changes any volume unless the id has the prefix "csi" |
| NodeServer.UnpublishKeepsVolumesIff | pkg/hostpath/nodeserver.go:198-234 | over existing volumes no unpublish of an ordinary id on the target ever changes a volume if and only if the target is not shared or is used with ephemeral ids only |
| NodeServer.PublishIdempotent | pkg/hostpath/nodeserver.go:81-103 | publishing again changes nothing whatever was written or is answered meanwhile |
| NodeServer.PublishMounts | pkg/hostpath/nodeserver.go:139-185 | a successful publish on a free target leaves exactly one mount there, of this id in the pool the request names ("legacy" if none), the default pool only for an ephemeral volume whose pool has no path; an ephemeral volume is made unless it exists, and nothing else changes |
| NodeServer.PublishSucceedsIff | pkg/hostpath/nodeserver.go:81-169 | which publishes on a free target succeed, by the answers of the system and what the pool holds |
| NodeServer.FailedPublishMountsNothing | pkg/hostpath/nodeserver.go:105-169 | a publish that fails mounts nothing, and outside the named ephemeral volume leaves all pools as they were |
| NodeServer.EphemeralIdIff | pkg/hostpath/nodeserver.go:175-177 | the ids taken as ephemeral are exactly those that start with "csi" |
| NodeServer.UnpublishEffect | pkg/hostpath/nodeserver.go:198-234 | a successful unpublish frees and removes exactly its target, and deletes a volume directory only for ephemeral ids |
| NodeServer.UnpublishSucceedsIff | pkg/hostpath/nodeserver.go:198-254 | which unpublishes succeed, by the answers of the system; one that fails changes no volume and no other target |
| NodeServer.UnpublishIdempotentIff | pkg/hostpath/nodeserver.go:198-254 | unpublishing again changes nothing if and only if the id is not ephemeral or at most one pool held it |
| NodeServer.EphemeralRoundTripIff | pkg/hostpath/nodeserver.go:139-185 | publish and unpublish of an ephemeral volume that is new in its pool restore all pools if and only if its id has the prefix "csi" and no pool later in the listing holds the id |
| NodeServer.FailedMountRestoresIff | pkg/hostpath/nodeserver.go:152-167 | a failed mount leaves the pools as they were if and only if the volume is new and the clean-up works, or it existed and the clean-up does not |
| NodeServer.HostPathNode.CanMountVolume | pkg/hostpath/nodeserver.go:105-119 | the mount point check of the interleaving model |
| NodeServer.HostPathNode.MountVolume | pkg/hostpath/nodeserver.go:121-169 | the remaining calls of a publish, in order, with every failure branch |
| NodeServer.HostPathNode.NodePublishVolume | pkg/hostpath/nodeserver.go:81-103 | the whole RPC is the sequence of its modelled calls |
| NodeServer.HostPathNode.RemoveEphemeralPath | pkg/hostpath/nodeserver.go:236-254 | deletes the picked directory of the id, if any |
| NodeServer.HostPathNode.NodeUnpublishVolume | pkg/hostpath/nodeserver.go:198-234 | the whole RPC is the sequence of its modelled calls |

## Left out

- The API client and the informer machinery below it, recorded events, log output, leader election and how
  the workers are started: they carry no decisions of this code.
- The order, delays and retry counts of the volume queue: a worker may take up any key that is not being
  processed, at any time. Its share in the common limiter is in `ClaimWorkers`.
- provisionClaimOperation and deleteVolumeOperation are modelled as the steps of an interleaving over values,
  not as methods, because other nodes act between their API calls.
- A background save of the queue store is one step in `Cluster`; its own interleaving is in `QueueStore`.
- Removing a directory in `Cluster`, `Pools` and `NodeServer` happens at once or not at all.
- Durations: retry delays, rate limits, back-off caps and the creation times of snapshots.
- Removing the finalizer after a delete with addFinalizer: covered by `Reap`, which needs only the mark.
- A source path relative to the working directory, for a publish that names an unknown pool: taken as absent.
- Paging over several snapshot providers, whose order Go leaves open between two calls.
- Checks of request fields other than empty names, RPCs that only answer Unimplemented, and the health and
  capacity fields of responses: each is decided by a single test.
- The servers around the RPCs: sockets, certificates, metrics and the parsing of findmnt.
- Plain files with the name of a volume in CreateVolume and CreateSnapshot, and directory-against-file
  conflicts inside a copy.
