# Verified model of the Kubermatic cluster deletion and etcd membership protocols

This project models four parts of the Kubermatic Kubernetes Platform and proves what they promise.

- **Staged cluster deletion** (`world.dfy`, `ledger.dfy`, `progress.dfy`, `runs.dfy`, `deletion.dfy`, `traces.dfy`). The
  class `Deletion` runs the passes of the deletion controller on a Cluster that is being deleted, one API call after the
  other. Before every call a script lets all other actors move: the machine controller, the cloud controllers, the volume
  provisioners, other controllers that drop their own finalizers, the lagging lister, the clock. The script also decides
  whether the call succeeds, fails, or takes effect although its answer is lost. A statement about every script is a
  statement about every run.
- **Finalizer editing** (`finalizers.dfy`). Any number of clients run `TryRemoveFinalizer` and `TryAddFinalizer` against one
  versioned object with stale reads, conflicts, retries and failures.
- **The etcd launcher** (`etcdmembers.dfy`, `etcdlauncher.dfy`, `etcdring.dfy`). `EtcdCluster` is the launcher of one pod;
  `EtcdRing` interleaves the launchers of all pods call by call, with crashes, restarts and lost data directories.
- **What these rest on** (`text.dfy`, `options.dfy`, `stringsets.dfy`, `features.dfy`, `ownerrefs.dfy`): the set of UIDs in
  an annotation, the substring test of the lister wait, feature gates and owner references.

## Main results

- *Order, in every run* (`Deletion.Deletion.Reconcile`). While the stored Cluster has the constraint finalizer no deletion
  of a service or claim is requested; while it has the load-balancer or volume finalizer none of a backup configuration,
  MachineDeployment, MachineSet or Machine is; while a level of machine objects exists none of anything below it is. When
  the volume finalizer is gone, no claim and no managed volume is left; when the node finalizer is gone, no machine object
  is left; the Secret goes only when no other finalizer is stored. `Ledger.Ordered` reads all of this off the world alone,
  so it does not depend on what the controller notes down.
- *Load balancers, in every run* (`Deletion.Deletion.Reconcile`). Every load balancer whose service the controller deleted
  and that still exists is in the stored annotation and in the one the lister serves, and in the documented sense of the
  check the finalizer goes only at a moment of the run when the provider is none of AWS, Azure and OpenStack, more than 7200
  seconds have passed since the deletion, or every load balancer ever recorded up to then is gone from the cloud; two hours
  after the deletion a stage with nothing left to delete drops it in any case (`Traces.StageAfterBailOut`). Excepted are
  UIDs in doubt at that moment. A UID comes into doubt only when a cleanup of it that no complete one preceded is broken
  off, at most one in a failed in-cluster stage, and a pass without error that is served the stored annotation leaves no
  service in doubt that is still there (`Deletion.Deletion.Pass`). So a UID can be lost only if its service is gone before a
  further cleanup completes, or if its record was overwritten. `Ledger.UnbrokenRun` and `Ledger.BalancerHoldsFinalizer`
  state what is left without doubt, in terms of the world alone. No deletion of a service that is no load balancer is
  requested, and every load-balancer service there at the start is gone with the finalizer.
- *Termination* (`Deletion.Deletion.DeleteToCompletion`). With an environment that only finishes what was started, in any
  order and at any moment, a measure over finalizers, objects, the annotation and the clock falls until no finalizer of the
  controller is left, apart from the credentials one while foreign finalizers remain.
- *No stage is skipped* (`Deletion.Deletion.Pass`). Whatever others do, a pass without error has dealt with constraints,
  load balancers and claims, as far as their finalizers are held, and one half of a pass does not wait within itself:
  undisturbed, machines, backup configurations and role bindings are handled in the same pass.
- *No lost update* (`Finalizers.NoLostUpdate`), *one member per pod* (`EtcdRing.OneMemberPerPod`), *no wanted member pruned*
  (`EtcdRing.NeverPruned`), *scale-down converges* (`EtcdLauncher.ScaleDownConverges`).

## Where the code and its promise differ

- `pkg/clusterdeletion/lb.go:162` answers that all load balancers are gone while UIDs remain. Its documentation (lines
  113-115) and its caller (`pkg/clusterdeletion/deletion.go:147-150`) take the answer the other way round. The model has
  both senses, `Written` and `Documented`. Order and termination hold for both; the load-balancer theorem holds for the
  documented one. `Ledger.VerdictExact` says exactly when the written answer is right, and
  `Traces.WrittenSenseLosesBalancer` is a run in which it drops the finalizer of an existing load balancer.
- A cleanup that is broken off between deleting a service and the end of the wait may lose the UID, for instance when the
  patch fails and the service is gone before the next pass: `Traces.BrokenOffCleanupLosesBalancer`. The ledger keeps such
  UIDs in `doubt`. A later cleanup that completes clears the doubt if and only if no stale patch overwrote an earlier record
  that the lister may still serve: `Ledger.WaitExact`. Otherwise the UID may be lost after all, in a run that begins without
  doubt: `Traces.OverwrittenRecordLosesBalancer`.
- A nil answer of `TryRemoveFinalizer` that is based on a version read before the deletion began says nothing about the
  object afterwards: `Finalizers.StaleNilReturn`. `Finalizers.RemovedForGood` and `Finalizers.GoneForGoodExact` say when it
  does.
- A lone plaintext peer URL survives restarts in strict mode: `EtcdMembers.LonePlaintextStays`. It ends with the last mode's
  URLs if and only if one restart is in mixed mode: `EtcdMembers.LonePlaintextRestarts`. Along any restarts a member ends
  with the last mode's URLs if and only if one of the modes can convert its original ones: `EtcdMembers.RestartsExact`.
- A pass that removes one finalizer and comes to a second one before the lister serves the first removal ends in an error
  after five conflicts, and leaves the second removal to a later pass. `Deletion.Deletion.CleanupInfrastructure` says when
  that happens.
- The update of peer URLs at start-up is not idempotent when two members carry the pod's name: `EtcdMembers.UpdateTwice`.
  `EtcdMembers.UpdateAgainExact` says what a repeat does; in every reachable ring it does nothing:
  `EtcdRing.UpdateOnceInRing`.
- The substring test of the lister wait can be fooled by UIDs of different lengths: `StringSets.ContainsFooled`;
  `StringSets.ContainsIsMembership` has the exact condition.

## Reading the deletion model

`Valid()` is the invariant of every run: the world is well-formed, the ledger matches it, and the history is in order.
`book` and `ledger` are what was deleted, seen and left in doubt before the run and so far. `Coop()` says that the
environment is cooperative, `Quiet(script)` that nobody interferes and nothing fails; contracts under `Quiet` give the exact
new world. `Calmly` and `Steady` relate two moments of a run: nothing was undone in between, and, if cooperative, the
measure fell or nothing changed. The environment is assumed to keep to this: nobody creates a MachineDeployment, only
MachineDeployments create MachineSets and only MachineSets create Machines; the webhook stays; nobody else writes the
annotation or removes one of the four guarded finalizers; UIDs are not reused; a load-balancer event is sent once the cloud
load balancer and its service are gone; nobody else deletes the Secret and it is not created again.

## Model

| member | source | states |
|---|---|---|
| Deletion.Deletion.constructor | pkg/clusterdeletion/deletion.go:36-46 | a run may begin in any well-formed world with any ledger that matches it, with a copy as stale as the lister's |
| Deletion.Deletion.Reconcile | pkg/clusterdeletion/deletion.go:49-153 | after any number of passes, with any failures, lost answers, stale reads and interference: the deletion is in order; every guarded finalizer that is gone went by a logged step at a moment of the run at which it was safe; every deleted load balancer that still exists is in the stored and in the served annotation, those in doubt aside; new doubt comes only from newly broken-off cleanups, at most one in a failed in-cluster stage, and without such a stage none is new; in the documented sense the load-balancer finalizer was released when no wait was due or all load balancers ever recorded and not in doubt at that moment were gone |
| Ledger.UnbrokenRun | pkg/clusterdeletion/lb.go:74-163 | without doubt at the start and without broken-off cleanups, every load-balancer service being deleted whose load balancer exists is in both annotations, and the finalizer goes only when no wait is due or every load balancer recorded up to then is gone |
| Ledger.BalancerHoldsFinalizer | pkg/clusterdeletion/deletion.go:139-152 | in such a run, on AWS, Azure or OpenStack, a recorded load balancer that exists holds the finalizer until 7200 seconds after the deletion |
| Ledger.FinalizerReleased | pkg/clusterdeletion/deletion.go:147-152 | in every documented run the finalizer is gone only by an entry of the log at whose moment all load balancers ever recorded, except those in doubt at that moment, were gone, or more than 7200 seconds had passed, or the provider was none of AWS, Azure and OpenStack |
| Deletion.Deletion.DeleteToCompletion | pkg/clusterdeletion/deletion.go:49-153 | with a namespace, error-free calls and an environment that finishes what is under way in an order of its own, the passes end with no finalizer of the controller left, apart from the credentials one while foreign ones remain; a pass runs whenever the served annotation is the stored one, however stale the rest of the copy |
| Deletion.Deletion.Pass | pkg/clusterdeletion/deletion.go:49-99 | a pass that is served the stored annotation never adds work, and changes something unless it waits for others or is done; whatever the others do, a pass without error leaves the constraint finalizer gone, every load-balancer service that was there and still is deleted and, if the stored annotation was served, not in doubt, and every claim being deleted with none to come, as long as the respective finalizer is held: no stage waits for another of the same half; undisturbed, with the first half done and the lister up to date, it clears the uppermost level of machines that is not empty and all backup configurations, and removes exactly the first finalizer that is due |
| Deletion.Deletion.CleanupCluster | pkg/clusterdeletion/deletion.go:49-99 | the same from any stale copy, keeping the invariant of every run; breaks off at most one cleanup, and none unless its in-cluster stage failed; with a cooperative environment it does work, waits for others, or finds itself done |
| Deletion.Deletion.CleanupInfrastructure | pkg/clusterdeletion/deletion.go:70-98 | needs load balancers and volumes done; without error the role-binding finalizer is gone, also while nodes remain; undisturbed and from the stored version, the uppermost level of machines that is not empty has no live object and the others are as before, no backup configuration is live, and exactly the first finalizer that is due is removed; while machines are left there is an error if and only if both the backup and the role-binding finalizer are due, as the lister does not serve the first removal yet; if it changes nothing it waits or is done |
| Deletion.Deletion.CleanupRest | pkg/clusterdeletion/deletion.go:77-98 | role bindings first; credentials only when the copy has no other finalizer; exactly what this does to the stored finalizers, from an up-to-date and from a lagging lister |
| Runs.HalfwayEnded | pkg/clusterdeletion/deletion.go:70-98 | backups, machines, role bindings and credentials put together: which finalizer goes and when there is an error |
| Deletion.Deletion.CleanupInClusterResources | pkg/clusterdeletion/deletion.go:101-153 | the finalizers are removed only when that is safe, and the load-balancer one only if every load-balancer service there before is gone; at most one cleanup is broken off, none without error; without error every load-balancer service still there was deleted, and every claim is being deleted, as long as the finalizer is held; without error and with no record overwritten no service still there is in doubt; undisturbed and with nothing to delete the finalizer goes exactly when the verdict on the load balancers is "gone", in particular always more than 7200 seconds after the deletion or without AWS, Azure and OpenStack, and exactly the unconfirmed UIDs stay in the annotation |
| Deletion.Deletion.ReleaseWhenGone | pkg/clusterdeletion/deletion.go:147-152 | both finalizers go only when the check answers "gone"; undisturbed, exactly then |
| Deletion.Deletion.DeleteInClusterObjects | pkg/clusterdeletion/deletion.go:117-145 | without error: every load-balancer service from before that is still there was deleted if those were asked for, and every claim is being deleted if volumes were, whether or not there were load balancers; with nothing deleted, no claim, no managed volume and no load-balancer service from before is left; completed cleanups leave no service still there in doubt |
| Runs.SomeEnvironmentFinishes | pkg/clusterdeletion/deletion.go:132-138 | the environment that termination is proved for exists |
| World.GoneStays | pkg/clusterdeletion/lb.go:41-72 | load-balancer services that are gone stay gone, whatever others create |
| Runs.NoneLeft | pkg/clusterdeletion/deletion.go:64-68 | a stale copy without the in-cluster finalizers shows that the stored Cluster has none |
| Deletion.Deletion.CleanupLBs | pkg/clusterdeletion/lb.go:41-72 | without error every load-balancer service there before is gone or was deleted, and if none was deleted all are gone; with the stored annotation in the copy and no record overwritten, none of them still there is in doubt; with an error at most one cleanup was broken off |
| Deletion.Deletion.CleanupListed | pkg/clusterdeletion/lb.go:53-69 | the loop: without error every listed load balancer was deleted and, if no record was overwritten, is on record; services of other types are passed over |
| Deletion.Deletion.CleanupLB | pkg/clusterdeletion/lb.go:74-111 | without error every version the lister may serve from now on records the UID along with everything pending, also if it was in doubt, unless an earlier record of it was overwritten, and from a copy with the stored annotation nothing is overwritten; the ledger after a failed patch, a lost answer and a failed wait |
| Deletion.Deletion.RecordUid | pkg/clusterdeletion/lb.go:85-108 | patch and wait: without error the UID is on record, with one the ledger shows the cleanup as broken off |
| Deletion.Deletion.DeleteService | pkg/clusterdeletion/lb.go:75-79 | a service whose deletion is requested is entered in the ledger, also if the answer is lost |
| Deletion.Deletion.Patch | pkg/clusterdeletion/lb.go:94-96 | a merge patch of the one key changes nothing but the annotation, loses no recorded UID and refreshes the copy |
| Deletion.Deletion.AwaitLister | pkg/clusterdeletion/lb.go:98-108 | without error the lister serves a version that has the UID as an element; undisturbed, one poll suffices if it does and five hundred are made if it does not |
| Deletion.Deletion.SeekEvents | pkg/clusterdeletion/lb.go:142-153 | a UID is struck off only if its event was seen; if nothing changes meanwhile, exactly those with an event are |
| Deletion.Deletion.CheckIfAllLoadbalancersAreGone | pkg/clusterdeletion/lb.go:116-163 | in the documented sense "gone" means that every recorded load balancer is gone or need not be waited for; undisturbed, the answer is the verdict of either sense, with two hours and the three providers written out, and exactly the unconfirmed UIDs stay in the annotation |
| Ledger.VerdictExact | pkg/clusterdeletion/lb.go:116-163 | the documented answer is "gone" exactly when that is justified; the written one is right exactly when events are not consulted or all deletions are confirmed; the two agree exactly when events are not consulted |
| Ledger.RecordedAfterWait | pkg/clusterdeletion/lb.go:86-108 | once the lister serves a version with the new UID, all later versions record it together with everything pending before, and an earlier doubt goes unless a record was overwritten |
| Ledger.WaitExact | pkg/clusterdeletion/lb.go:86-108 | after every completed wait the UID is on record if and only if no version the lister may still serve has it while a later one lost it |
| Ledger.CachedRecords | pkg/clusterdeletion/lb.go:98-100 | what the lister serves and what is stored record everything pending |
| Ledger.ContainsUid | pkg/clusterdeletion/lb.go:105 | on annotations the controller wrote, the substring test is membership |
| Ledger.InsertUid | pkg/clusterdeletion/lb.go:90-92 | the rewritten annotation has exactly one more UID, and is unchanged exactly when it was there |
| Ledger.RetainUids | pkg/clusterdeletion/lb.go:155-157 | the rewritten annotation has exactly the remaining UIDs, and is unchanged exactly when none was struck off |
| Ledger.HistoryExtend | pkg/clusterdeletion/deletion.go:49-99 | a deletion of a machine object, a backup configuration or the Secret, or a removal of finalizers, that is safe when it happens keeps the order and the log complete |
| Ledger.HistoryStable | pkg/clusterdeletion/deletion.go:49-99 | nothing other actors do breaks the order |
| Ledger.DropStable | pkg/clusterdeletion/deletion.go:147-152 | what allows a finalizer to be removed stays true until the update reaches the server |
| Ledger.NothingPendingAfterSecret | pkg/clusterdeletion/deletion.go:88-96 | once the Secret is deleted no other finalizer is stored or removed any more |
| Traces.StageWhileUnconfirmed | pkg/clusterdeletion/lb.go:162 | with recorded deletions unconfirmed and nothing left to delete, the in-cluster stage keeps the finalizer exactly in the documented sense |
| Traces.StageAfterBailOut | pkg/clusterdeletion/lb.go:116-136 | two hours after the deletion, or on another provider, a stage with nothing left to delete drops both finalizers in either sense, whatever is recorded and still exists |
| Traces.WrittenSenseLosesBalancer | pkg/clusterdeletion/lb.go:162 | a run in the written sense that drops the finalizer while the recorded load balancer exists |
| Traces.BrokenOffCleanupLosesBalancer | pkg/clusterdeletion/lb.go:94-96 | a failed patch followed by the end of the service lets the next stage drop the finalizer with the cloud load balancers unchanged |
| Traces.OverwrittenRecordLosesBalancer | pkg/clusterdeletion/lb.go:94-108 | from any start without doubt and with two services, a run in which a lost answer and a stale patch overwrite the record of the first; a later cleanup of it completes without error, and yet the finalizer goes with its cloud load balancer unchanged |
| Traces.StagesWhenConfirmed | pkg/clusterdeletion/lb.go:142-162 | once all recorded deletions are confirmed, a stage that empties the annotation and the next one drop the finalizer |
| Deletion.Deletion.CleanupNodes | pkg/clusterdeletion/node.go:35-113 | needs load balancers and volumes done; undisturbed, from any copy with the finalizer, it requests the deletion of everything at the uppermost level that is not empty, or removes the finalizer when all three are |
| Deletion.Deletion.TearDownFleet | pkg/clusterdeletion/node.go:66-110 | the three levels in order, each only when those above are empty; without error and with nothing listed no machine object is left; undisturbed exactly the uppermost level that is not empty is cleared |
| Deletion.Deletion.TearDown | pkg/clusterdeletion/node.go:66-110 | without error and with nothing listed the level is empty now, although others acted since; undisturbed it marks exactly that level |
| Deletion.Deletion.DeleteFromFleet | pkg/clusterdeletion/node.go:71-76 | deletes a machine object only when its level's turn has come |
| Runs.LevelStable | pkg/clusterdeletion/node.go:77-110 | a level whose turn has come keeps it, as nothing above can reappear |
| Deletion.Deletion.CleanupVolumes | pkg/clusterdeletion/volumes.go:40-95 | without error every claim is being deleted and none can be created; with nothing deleted there is no claim and no managed volume either; undisturbed it gives exactly the emptied storage |
| Deletion.Deletion.FilterManaged | pkg/clusterdeletion/volumes.go:60-68 | exactly the dynamically provisioned volumes with reclaim policy Delete |
| Deletion.Deletion.DisablePVCreation | pkg/clusterdeletion/volumes.go:97-107 | without error the webhook is in place |
| Deletion.Deletion.CleanupPVCUsingPods | pkg/clusterdeletion/volumes.go:109-130 | undisturbed, exactly the pods that mount a claim are deleted |
| Deletion.Deletion.DeleteClaims | pkg/clusterdeletion/volumes.go:82-87 | behind the webhook none of the listed claims is live afterwards, whatever others do; undisturbed, exactly they are deleted; one that is gone is no error |
| Deletion.Deletion.CleanUpCredentialsSecrets | pkg/clusterdeletion/secret.go:33-39 | no error means that the finalizer is gone; undisturbed and with the lister up to date it always succeeds, also when an earlier pass deleted the Secret but not the finalizer; with a lagging one nothing is stored |
| Deletion.Deletion.DeleteSecretIfAny | pkg/clusterdeletion/secret.go:41-66 | deletes the Secret only while no other finalizer is stored; no error means that there is none |
| Deletion.Deletion.CleanupConstraints | pkg/clusterdeletion/constraints.go:30-57 | without error and with a namespace the finalizer is gone; undisturbed all constraints are being deleted and free of the gatekeeper finalizer |
| Deletion.Deletion.DrainConstraints | pkg/clusterdeletion/constraints.go:35-54 | undisturbed, all constraints are being deleted and none keeps the gatekeeper finalizer |
| Deletion.Deletion.CleanupEtcdBackupConfigs | pkg/clusterdeletion/etcdbackupconfig.go:30-52 | needs load balancers and volumes done; undisturbed, from any copy with the finalizer, it deletes all backup configurations, or removes the finalizer when there is none |
| Deletion.Deletion.CleanupClusterRoleBindings | pkg/clusterdeletion/clusterrolebindings.go:29-31 | needs load balancers and volumes done; no error means that the finalizer is gone; undisturbed, exactly what the removal of one finalizer does |
| Deletion.Deletion.TryRemoveFinalizer | pkg/kubernetes/helper.go:76-110 | on a deleting Cluster no error means that the names are gone from the stored object, and the refreshed copy has all stored finalizers; undisturbed, in all cases: nothing if the served version has none of them, their removal if it is the stored version, and five attempts and an error if it is older |
| Deletion.Deletion.Attempt | pkg/kubernetes/helper.go:78-100 | one get-modify-update round; after a conflict the removal is still allowed |
| Deletion.Deletion.Get | pkg/kubernetes/helper.go:80-86 | a copy read through the cache has all stored finalizers and an annotation that records everything pending |
| Deletion.Deletion.Update | pkg/kubernetes/helper.go:94-98 | accepted only if the copy starts from the stored version, which it then follows with exactly the names gone |
| World.HappenAllOk | pkg/clusterdeletion/deletion.go:62-63 | whatever the other actors do, stored finalizers shrink, the annotation stands, and what is gone stays gone |
| Progress.OutstandingEvent | pkg/clusterdeletion/deletion.go:132-138 | whatever a pass waits for, some event of a cooperative environment brings it nearer |
| Progress.AllBenignMove | pkg/clusterdeletion/deletion.go:49-153 | any number of moves of a cooperative environment leave the world alone or less to do |
| Progress.RecordingPays | pkg/clusterdeletion/lb.go:74-111 | recording a UID lowers the measure even if the service is gone by then |
| Progress.RetainingPays | pkg/clusterdeletion/lb.go:155-160 | striking off confirmed UIDs lowers the measure |
| StringSets.ParseStringSet | pkg/clusterdeletion/lb.go:165-176 | the loop collects exactly the parsed set |
| StringSets.ParseExact | pkg/clusterdeletion/lb.go:165-176 | a string is in the set exactly when it is a non-empty piece between commas |
| StringSets.EncodeExact | pkg/clusterdeletion/lb.go:178-180 | the encoded text has the elements as its fields, once each and ascending |
| StringSets.RoundTrip | pkg/clusterdeletion/lb.go:165-180 | parsing the encoding gives back every set of non-empty comma-free strings |
| StringSets.EncodeNormalises | pkg/clusterdeletion/lb.go:165-180 | encoding after parsing is idempotent and the same for two strings exactly when they hold the same set |
| StringSets.ContainsIsMembership | pkg/clusterdeletion/lb.go:105 | the substring test is membership exactly when no other element contains the UID, hence for UIDs of one length |
| StringSets.ContainsElement | pkg/clusterdeletion/lb.go:105 | a comma-free string occurs in the encoding exactly when it occurs in an element |
| StringSets.ContainsFooled | pkg/clusterdeletion/lb.go:105 | a shorter string is found although it is no element |
| Text.SplitExact | pkg/clusterdeletion/lb.go:166 | the fields are exactly the pieces between separators |
| Text.SplitConcat | pkg/features/features.go:96 | splitting distributes over a separator |
| Text.SplitJoin | pkg/clusterdeletion/lb.go:178-180 | splitting undoes joining of separator-free strings |
| Text.JoinSplit | pkg/clusterdeletion/lb.go:165-180 | joining undoes splitting of any string |
| Text.SortedList | pkg/clusterdeletion/lb.go:179 | the list of a set is ascending and has exactly its elements, each once |
| Text.LessExact | pkg/clusterdeletion/lb.go:179 | the order by characters: the first difference decides, and a proper prefix comes first |
| Finalizers.NoLostUpdate | pkg/kubernetes/helper.go:76-153 | for any number of racing clients, also with lost answers, the stored set is the accepted edits replayed on the initial one, and on a deleting object only removals are accepted |
| Finalizers.InvExec | pkg/kubernetes/helper.go:76-153 | along every run versions are only added, a deleting object's finalizers only shrink, and what a client knows stays true: after a nil answer the version it is based on has none of the names to remove, or all of those to add unless it was being deleted |
| Finalizers.NilAnswerExact | pkg/kubernetes/helper.go:76-153 | the same for every run, as a statement about the answer |
| Finalizers.CommitExact | pkg/kubernetes/helper.go:78-145 | an attempt in all its cases: nothing to do, object gone, accepted with exactly the names removed or added, or a conflict, of which the fifth is an error |
| Finalizers.NotFoundExact | pkg/kubernetes/helper.go:80-126 | an object that is gone is fine for a removal and an error for an addition |
| Finalizers.RemovedForGood | pkg/kubernetes/helper.go:76-110 | after a nil answer based on a version of the deleting object the names are gone for the rest of every run |
| Finalizers.GoneForGoodExact | pkg/kubernetes/helper.go:119-153 | names that are gone stay gone in every run exactly when the object is being deleted |
| Finalizers.Readded | pkg/kubernetes/helper.go:119-153 | before the deletion some run adds them again |
| Finalizers.StaleNilReturn | pkg/kubernetes/helper.go:88-92 | for any finalizers and names, a run in which a nil answer from a stale version leaves all the names on the deleting object |
| Finalizers.HasOnlyExact | pkg/kubernetes/helper.go:64-67 | the test holds exactly for the singleton |
| EtcdLauncher.EtcdCluster.PeerHostsList | cmd/etcd-launcher/main.go:408-414 | the loop lists the hosts of the first pods in order |
| EtcdLauncher.EtcdCluster.UpdatePeerURLs | cmd/etcd-launcher/main.go:301-366 | the membership becomes the plan carried out, including the cases that panic or fail to parse; the pod's own member, in mixed mode with one URL or with a first one that is not plain HTTP, ends with ports 2380 over http and 2381 over https on its host, in strict mode with two URLs with port 2381 over https alone, and else unchanged |
| EtcdLauncher.EtcdCluster.GetMemberByName | cmd/etcd-launcher/main.go:557-573 | the first member with the name or on the host, or why there is none |
| EtcdLauncher.EtcdCluster.GetUnwantedMembers | cmd/etcd-launcher/main.go:575-603 | the list of unwanted members, or an error exactly when some URL to be read does not parse |
| EtcdLauncher.EtcdCluster.CheckMember | cmd/etcd-launcher/main.go:582-600 | a member's entries in that list, one for each foreign URL |
| EtcdLauncher.EtcdCluster.PollHealth | cmd/etcd-launcher/main.go:661-675 | healthy exactly when there are client URLs and one of fifteen attempts succeeds with none before it failing |
| EtcdLauncher.EtcdCluster.RemoveDeadMembers | cmd/etcd-launcher/main.go:655-685 | removes the first dead member of the list that is not its own, and no other |
| EtcdLauncher.EtcdCluster.DeleteUnwantedDeadMembers | cmd/etcd-launcher/main.go:233-262 | one pass of the prune loop, proved against its specification |
| EtcdLauncher.EtcdCluster.JoinIfNeeded | cmd/etcd-launcher/main.go:128-160 | from an orderly ring, whichever calls fail: the ring stays orderly and nobody else's member is touched; a launcher that reads the list and finds itself listed changes nothing if it has data, and without data has its old member replaced by one with the next identity and the URLs of its mode, written out; a launcher not listed joins in the same way |
| EtcdLauncher.StartUpExact | cmd/etcd-launcher/main.go:128-160 | the same of the specification of the start-up decision, with every failing call |
| EtcdLauncher.StartUpUnreadable | cmd/etcd-launcher/main.go:128-160 | the first member that cannot be read ends the lookup: without URLs in a panic, with a malformed one in a plain start |
| EtcdRing.StartUpIsSteps | cmd/etcd-launcher/main.go:128-160 | the steps list, leave and join of an undisturbed start-up are that decision |
| EtcdRing.StartUpInRing | cmd/etcd-launcher/main.go:128-160 | in every reachable ring an undisturbed start-up keeps the member of a pod with data and replaces that of a pod without |
| EtcdRing.DecideExact | cmd/etcd-launcher/main.go:128-160 | the decision alone, whatever follows: start with data, leave by the identity of the own member without, else join |
| EtcdLauncher.FirstDeadExact | cmd/etcd-launcher/main.go:655-685 | the member found is listed, not its own and dead; none is found exactly when all others respond |
| EtcdLauncher.PrunedExact | cmd/etcd-launcher/main.go:655-685 | a pass removes nothing or exactly one member: unwanted, not its own, dead for the whole poll |
| EtcdLauncher.PrunedFirst | cmd/etcd-launcher/main.go:233-262 | a pass takes out exactly the first doomed member if it leads, its call succeeds and all URLs to be read parse, and nothing otherwise; doomed is, in raw terms, a member of another name with no, three or more URLs or one on an unexpected host, and without a good answer in fifteen polls |
| EtcdLauncher.FirstDoomed | cmd/etcd-launcher/main.go:655-685 | the first dead entry of the list, in which members may stand twice, is the first doomed member |
| EtcdLauncher.RespondsExact | cmd/etcd-launcher/main.go:661-675 | the poll in raw terms, with its fifteen attempts |
| EtcdLauncher.MajorityKept | cmd/etcd-launcher/main.go:655-685 | over any passes of any launchers a responsive majority stays in and stays a majority |
| EtcdLauncher.ScaleDownPass | cmd/etcd-launcher/main.go:233-262 | a pass takes out exactly one stray while there is one, and then changes nothing |
| EtcdLauncher.ScaleDownConverges | cmd/etcd-launcher/main.go:233-262 | as many passes as there are strays leave exactly the other members, in order, for good |
| EtcdMembers.DecimalExact | cmd/etcd-launcher/main.go:408-414 | a printed number reads back as itself |
| EtcdMembers.NoLeadingZero | cmd/etcd-launcher/main.go:408-414 | a printed number is not empty and has no leading zero |
| EtcdMembers.DecimalInjective | cmd/etcd-launcher/main.go:408-414 | different numbers print differently |
| EtcdMembers.PodHostInjective | cmd/etcd-launcher/main.go:408-414 | different pods have different names and hosts |
| EtcdMembers.PeerHostsExact | cmd/etcd-launcher/main.go:408-414 | the host of a pod is expected exactly when its index is below the size |
| EtcdMembers.FindMemberExact | cmd/etcd-launcher/main.go:557-573 | a member found has the name or host; none found means none has |
| EtcdMembers.FindMemberFirst | cmd/etcd-launcher/main.go:557-573 | the lookup is decided by the first member that matches or cannot be read |
| EtcdMembers.UnwantedExact | cmd/etcd-launcher/main.go:575-603 | exactly the members with other than one or two URLs or with a foreign host are listed |
| EtcdMembers.UpdatePlanExact | cmd/etcd-launcher/main.go:301-366 | an update is about the launcher's own member and gives it the URLs of the mode on its own host |
| EtcdMembers.OwnUrlsExact | cmd/etcd-launcher/main.go:315-361 | what a start-up makes of the pod's own URLs, in all cases and with schemes and ports written out |
| EtcdMembers.UnreadableEnds | cmd/etcd-launcher/main.go:314-318 | a start-up that meets a member without URLs panics, with a malformed one it gives up |
| EtcdMembers.UpdateKeepsOthers | cmd/etcd-launcher/main.go:301-366 | every other member is unchanged, and its own keeps name, identity and host |
| EtcdMembers.UpdateIdempotent | cmd/etcd-launcher/main.go:301-366 | with at most one member of the pod's name, a second start-up in the same mode issues no update and leaves the membership unchanged |
| EtcdMembers.UpdateAgainExact | cmd/etcd-launcher/main.go:301-366 | in any membership a second start-up does exactly what the members after the updated one call for |
| EtcdMembers.UpdateTwice | cmd/etcd-launcher/main.go:301-366 | with two members of the name a second start-up updates again |
| EtcdRing.UpdateOnceInRing | cmd/etcd-launcher/main.go:301-366 | in every reachable ring one member at most carries a pod's name, and a repeated update changes nothing |
| EtcdRing.OwnUrlsInRing | cmd/etcd-launcher/main.go:301-366 | an update step gives the pod's own member the URLs above and leaves everything else as it is |
| EtcdMembers.RestartsExact | cmd/etcd-launcher/main.go:301-366 | along any sequence of restarts the URLs end as those of the last mode if and only if some mode of the sequence can convert the original ones |
| EtcdMembers.LonePlaintextRestarts | cmd/etcd-launcher/main.go:301-366 | a lone plaintext URL ends any sequence of restarts with the last mode's URLs, written out, if one of them is in mixed mode, and unchanged if none is |
| EtcdMembers.ConvertibleExact | cmd/etcd-launcher/main.go:324-360 | when a mode can convert a list of URLs, in terms of their number, the first scheme and the ports |
| EtcdMembers.LonePlaintextStays | cmd/etcd-launcher/main.go:345-360 | a lone plaintext URL is left as it is in strict mode |
| EtcdRing.OneMemberPerPod | cmd/etcd-launcher/main.go:128-160 | in every interleaving with crashes, lost data, pruning and resizing there is at most one member on a pod's host |
| EtcdRing.InvStep | cmd/etcd-launcher/main.go:264-299 | every step keeps that; a launcher about to join has no member and one about to leave names its only one |
| EtcdRing.NeverPruned | cmd/etcd-launcher/main.go:655-685 | while the size never drops below n, no run prunes a member with one or two URLs, all on hosts of the first n pods, although size and list are read at different moments |
| EtcdRing.BootstrappedRuns | cmd/etcd-launcher/main.go:85-189 | both hold of every run from a ring bootstrapped with one member for each of the first n pods |
| EtcdRing.BootstrappedOk | cmd/etcd-launcher/main.go:85-127 | such a ring has the invariant, and each of its members is safe from pruning |
| EtcdRing.PassKeeps | cmd/etcd-launcher/main.go:655-685 | a pass based on an earlier list does not remove such a member |
| EtcdRing.PassIsPruned | cmd/etcd-launcher/main.go:175-185 | the steps of an undisturbed pass, from reading the size on, are one pass of the launcher |
| FeatureGates.FeatureGate.Set | pkg/features/features.go:95-116 | the loop with its early exits leaves the map and error of the specification |
| FeatureGates.SetConcat | pkg/features/features.go:95-116 | setting two lists joined by a comma is setting the first and, if that succeeded, the second, with the partial map left on error |
| FeatureGates.LastItemWins | pkg/features/features.go:95-125 | a key has the value of the last item before the first bad one that assigns it, or its prior value; the error is that of the first bad item |
| FeatureGates.ItemCut | pkg/features/features.go:97-112 | an item is cut at its first equals sign and both sides are trimmed; without one it is an error, and an empty one is passed over |
| FeatureGates.ItemsExact | pkg/features/features.go:96 | comma-separated pieces are the items, one by one |
| FeatureGates.TrimExact | pkg/features/features.go:106-107 | exactly the white space at both ends goes |
| FeatureGates.BoolExact | pkg/features/features.go:108-111 | the twelve texts that are read as true or false |
| FeatureGates.SpaceExact | pkg/features/features.go:106-107 | the twenty-five characters that are white space |
| OwnerReferences.Object.RemoveOwnerReference | pkg/kubernetes/helper.go:325-343 | the nested loops leave the filtered list |
| OwnerReferences.Object.EnsureOwnerReference | pkg/kubernetes/helper.go:348-354 | the reference replaces an equal one |
| OwnerReferences.Object.EnsureUniqueOwnerReference | pkg/kubernetes/helper.go:359-365 | the reference replaces all of its kind |
| OwnerReferences.WithoutExact | pkg/kubernetes/helper.go:325-343 | exactly the references that match none are kept, in order |
| OwnerReferences.EnsureUniqueExact | pkg/kubernetes/helper.go:359-365 | exactly one reference of the version and kind is left, the given one, at the end, and all others are kept in order |
| OwnerReferences.EnsureExact | pkg/kubernetes/helper.go:348-354 | the same by version, kind and name |
| OwnerReferences.EnsureUniqueIdempotent | pkg/kubernetes/helper.go:359-365 | a second call changes nothing |
| OwnerReferences.EnsureUniqueCommutes | pkg/kubernetes/helper.go:278-293 | calls for two kinds commute after sorting when the keys are distinct |
| OwnerReferences.SortOwnerReferences | pkg/kubernetes/helper.go:278-293 | the array is sorted by its keys and a permutation |
| OwnerReferences.SortedExact | pkg/kubernetes/helper.go:278-293 | sorted is by version, then by kind, then by name |
| OwnerReferences.SortedUnique | pkg/kubernetes/helper.go:278-293 | with distinct keys there is only one sorted order |

## Left out

- The annotation that skips eviction on nodes (pkg/clusterdeletion/node.go:45-64): patches that no stage reads; a list whose
  kind is not installed counts as empty (lines 69, 83, 97).
- The search through a pod's volumes (pkg/clusterdeletion/volumes.go:132-139): pods carry a mark that says whether they mount
  a claim.
- Deletion.Deletion.ReleaseConstraint: takes the gatekeeper finalizer off in one call, without the retry loop, which is
  modelled for the Cluster itself.
- Deletion.Deletion.DisablePVCreation: the webhook configuration is one flag, and its reconciliation one call.
- Deletion.Deletion.DeleteToCompletion: no pass starts while the served annotation lags behind the stored one, which counts as
  something the environment finishes; such passes are covered by Reconcile.
- Deletion.Deletion.CleanupLB: a UID whose earlier record was overwritten stays in doubt even if a later cleanup completes,
  because that one's wait may have been satisfied by the overwritten record.
- EtcdLauncher.EtcdCluster.SetClusterSize, and the choice of the peer TLS mode at construction: plain field updates.
- Backup configurations, constraints and the Secret are read as stored; only reads of the Cluster lag behind.
- Finalizers of the Cluster are a set of named values; their order and duplicates in the list are not modelled.
- OwnerReferences.SortOwnerReferences: sorts by selection; the order of references with equal keys is left open, as it is by
  sort.Slice.
- One worker handles a Cluster at a time; two deletion controllers on the same Cluster are not modelled.
- Creating the clients, metrics and logging of the deletion controller.
- URLs are parsed values or unparsable ones; their text form is not modelled.
- Waiting for etcd, leadership and status queries, TLS and the etcd command line (cmd/etcd-launcher/main.go:424-555,
  614-653): the outcome of each is an input.
- The initial member list (cmd/etcd-launcher/main.go:368-406) and the restore from a backup (lines 687-742): other pods'
  annotations and library calls that this project does not see.
- Membership calls are atomic at etcd; the Raft protocol below them is not modelled.
- FeatureGate.String: prints a map in no particular order.
- The rest of the repository: HTTP handlers, webhooks, defaulting, provider and resource templates, other controllers.
