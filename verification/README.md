# NodeSet reconciler and token refresh, verified

The slurm-operator keeps Slurm worker pods running in Kubernetes. Its core is the NodeSet
reconciler: it holds a wanted number of pods (StatefulSet mode) or one pod per matching node
(DaemonSet mode), drains Slurm nodes before it deletes their pods, rolls pods to new revisions,
repairs the owners of their volume claims, and waits at a gate of "expectations" so that a lagging
informer cache does not mislead it. A second, smaller core refreshes Slurm tokens before they
expire (`exp`, section 4.1.4 of RFC 7519).

This project models that behaviour in Dafny and proves what it keeps over every input, every run
and every interleaving. `dafny verify dfyconfig.toml` checks all of it.

| module | what it covers |
|---|---|
| `ScaleOut`, `ScaleProgress`, `ScaleController` | the scaling protocol: API server, informer cache, expectations, operator; what never happens and what does |
| `DrainBeforeDelete` | deletion against running jobs and a stale Slurm client cache |
| `Cordon`, `CordonController`, `SlurmNodes` | cordon, drain, uncordon, condemn: what is sent to slurmctld |
| `Placement` | DaemonSet-mode decisions per node and where repeating them leads |
| `ActivePods`, `RollingUpdate` | the deletion order, the splits built on it, the update and its budget |
| `UpdateAndUncordon`, `DaemonUpdate` | what the update of a reconcile does to the pods the same reconcile uncordoned or condemned |
| `Conditions` | Slurm states as pod conditions, and the protect label |
| `OwnerRefs` | owner references of volume claims |
| `Names`, `WorkerPods` | ordinals in names; identity and storage of a pod |
| `History` | revision numbers, rollbacks, name collisions, truncation |
| `Ordinals`, `SlowStart` | ordinal allocation; slow-start batches |
| `Token` | token lifetime arithmetic and the refresh loop |
| `Sets`, `MathUtils`, `NodeSets`, `Options` | helpers |

Protocols are step functions over events, and a run is any finite list of events; an event that is
not enabled leaves the state alone. Code that changes objects in place is a class whose methods are
proved equal to the step functions, so the theorems about runs are theorems about the methods.
What a library sort returns is a parameter constrained by what sorting promises: always a
permutation, and sorted wherever the comparison is an order.

## Where the code does not do what one might expect

Each of these is proved, with the exact condition where there is one.

- A failing uncordon in `doPodScale` returns before the raised expectations are given back, which
  freezes the NodeSet until they time out (`ScaleOut.UncordonFailureFreezes`).
- The second `doPodScale` of an update overwrites the deletion expectations of the first
  (`ScaleProgress.SecondPassForgets`).
- A create that fails after the pod exists lets the next list through the gate without that pod
  (`ScaleOut.LostCreateOpensGate`). The pod count stays bounded all the same as long as the ordinal
  padding is left alone (`ScaleOut.PodCountBounded`), because ordinals are allocated least-free and
  the API server refuses a second use of a name; an edit of the padding at that moment gives the
  same ordinal a second name and the NodeSet a pod too many (`ScaleOut.PaddingEditOverflows`).
- A Slurm node that the client's cache misses counts as drained. The refresh at the start of a
  reconcile makes this safe for nodes registered by then; the pod of a node that registers and
  starts work after it is deleted under its job (`DrainBeforeDelete.LateNodeIsDeletedBusy`, exact
  condition in `DrainBeforeDelete.BusyDeletionIff`).
- A Kubernetes node that cannot be looked up counts as schedulable, so the uncordon undrains the
  Slurm node of a pod on an unschedulable node (`Cordon.UndrainsUnschedulableIff`).
- An administrator's drain made after the reconcile refreshed its cache can be overwritten
  (`Cordon.LaterDrainIsOverwritten`), or undone if the cache misses the node first and then finds it
  (`Cordon.MissedDrainIsUndone`).
- In DaemonSet mode a condemned pod is also on the keep list, and uncordon and condemn undo each
  other: with our reason on a node that is not unschedulable, a pod of the revision wanted, or any
  pod under OnDelete, is never deleted
  (`DaemonUpdate.UpToDateDaemonNeverGoes`). An old pod goes when the rolling update at the end of the
  same reconcile picks it while its node has no work, because that condemns it again with no
  uncordon in between (`DaemonUpdate.DaemonGoesIff`, `DaemonUpdate.OldDaemonGoes`).
- Among duplicate daemon pods the one kept is the first in deletion order, so the youngest and not
  the oldest as the comment there says (`Placement.KeepsTheYoungest`).
- `Less` answers true both ways for two cordoned pods tied on the earlier keys
  (`ActivePods.AsymmetricIff`).
- `SplitUnhealthyPods` counts the unhealthy pods but takes the oldest
  (`ActivePods.SplitUnhealthyPods` states exactly when these are the same).
- `syncRollingUpdate` leaves unavailable new pods and all unhealthy old pods out of its budget
  (`RollingUpdate.UpdateWithinBudgetIff`, `RollingUpdate.UnhealthyAreNotBudgeted`,
  `UpdateAndUncordon.FightWhileUnavailable`); only the burst of 250 bounds the latter.
- Update and uncordon do fight over pods that tie under `Less` across the cut, as daemon pods made
  at once do (`UpdateAndUncordon.TiedPodsMaySwap`), over any old pods once two cordoned ones tie
  (`UpdateAndUncordon.CordonTieSparesNothing`), and in reconciles that scale
  (`UpdateAndUncordon.ScaleInFights`, `UpdateAndUncordon.DaemonScaleFightsIff`). The exact condition
  is `UpdateAndUncordon.SparedIff`.
- One repair of a claim's owners is not always enough; one repair does it exactly when no reference
  aliases our UIDs and no stale reference of ours held it back (`OwnerRefs.RepairedIff`).
- A base state earlier in the switch hides MIXED, and then a working node is not protected
  (`Conditions.ConditionsTruthfulIff`). A vanished pod ends the condition update for all pods
  after it, whose labels then follow old conditions.
- The condition filter re-appends every state still present once for each Slurm condition it meets
  (`Conditions.FilterMultiplies`).
- Truncation compares the hash labels of pods with the names of revisions. The two differ for
  every revision the operator created, so pods do not keep it (`History.PodsDoNotProtect`); they
  agree only where adoption wrote the name as the missing label (`History.PodsProtectIff`). A
  negative history limit makes truncation fail. After a name collision the new revision carries the hash label that names a
  different revision (`History.RevisionStore.GetNodeSetRevisions`).
- `UpdateControllerRevision` reports a new number as written that never was, if a conflicting
  revision cannot be read again (`History.PretendedIff`).
- Claim names can clash across NodeSets (`Names.ClaimNamesClash`); an ordinal of more than 31 bits
  does not parse back (`Names.RoundTripIff`).
- The refresh time uses the unclamped lifetime; below 1.249999999 s some fresh tokens are due at
  once, and a lifetime that is not positive rewrites the Secret forever
  (`Token.FreshTokenNeverDueIff`, `Token.RewrittenForever`).

## Model

| member | source | states |
|---|---|---|
| `ScaleOut.GateSeesEveryPod` | internal/controller/nodeset/nodeset_sync.go:97-121 | In every run with list and gate atomic, no timeout and no create that fails after creating: outstanding create expectations cover the unobserved creates, a list that passed the gate holds every pod of the API server, and no pending create asks for a name in use |
| `ScaleOut.TrackedStep` | internal/controller/nodeset/nodeset_sync.go:880-943 | The invariant behind it is kept by every step of informer and operator |
| `ScaleOut.PodCountBounded` | internal/controller/nodeset/nodeset_sync.go:831-855 | The pod count never exceeds the larger of the initial count and the largest replica count in force: in every run with the padding left alone, hazards included, and in every run without a hazard, padding edits included |
| `ScaleOut.PaddingEditOverflows` | internal/controller/nodeset/utils/utils.go:248-257 | The run that does both: a lost create and then a padding edit give two pods where one was asked for |
| `ScaleOut.UniformStep` | internal/controller/nodeset/utils/utils.go:248-257 | While the padding is left alone, a second use of an ordinal is a second use of a name |
| `ScaleOut.BoundedStep` | internal/controller/nodeset/nodeset_sync.go:831-943 | The room-for-every-name invariant behind the bound is kept by every step |
| `ScaleOut.PlannedFits` | internal/controller/nodeset/nodeset_sync.go:831-881 | A planned ordinal and all lower free ones fit beside the surviving pods within the wanted count |
| `ScaleOut.FrozenForever` | internal/controller/nodeset/nodeset_sync.go:97-104 | While more creates are expected than can be observed, no reconcile passes the gate and no pod is created, until timeout or restart |
| `ScaleOut.UncordonFailureFreezes` | internal/controller/nodeset/nodeset_sync.go:898-906 | One failing uncordon during a scale-out leads there |
| `ScaleOut.LostCreateOpensGate` | internal/controller/nodeset/podcontrol/podcontrol.go:61-79 | A run, for every padding, in which a pod whose create was reported as failed is missing from a list that passed the gate |
| `ScaleProgress.GateOpenIff` | internal/controller/nodeset/nodeset_sync.go:102-104 | In every ordinary run the expectations are satisfied exactly when every created pod has been observed, no create is owed and every expected deletion has been observed |
| `ScaleProgress.ScaleOutCompletes` | internal/controller/nodeset/nodeset_sync.go:831-943 | A scale-out whose creates succeed and whose pods are all observed is followed by a reconcile that passes the gate and lists the wanted number of pods, or 250 more than before |
| `ScaleProgress.ScaleInWaits` | internal/controller/nodeset/nodeset_sync.go:886-892 | After a scale-in no reconcile passes the gate and no pod is created until every condemned pod's deletion has been observed or given up |
| `ScaleProgress.UpdateWaits` | internal/controller/nodeset/nodeset_sync.go:1363-1381 | The deletions of an update keep the gate shut likewise |
| `ScaleProgress.SecondPassForgets` | internal/controller/nodeset/nodeset_sync.go:1369-1378 | But the second pass of one update forgets the names of the first |
| `ScaleProgress.ProcessedIsUpdated` | internal/controller/nodeset/nodeset_sync.go:1077-1089 | A reconcile that finds the wanted number of pods goes on to its update, expecting nothing |
| `ScaleProgress.RejectedGivesBack` | internal/controller/nodeset/nodeset_sync.go:930-943 | After a rejected create the reconcile ends and what was not created is expected no longer |
| `ScaleProgress.NamespaceGoneIsOwed` | internal/controller/nodeset/nodeset_sync.go:918-924 | A create taken for done because the namespace is going leaves one create expected for good |
| `ScaleProgress.DeletionSettles` | internal/controller/nodeset/eventhandler/eventhandler_pod.go:209-251 | Each event that shows a deletion settles that pod's expectation, once, and no other |
| `ScaleController.NodeSetController.PodCreated` | internal/controller/nodeset/eventhandler/eventhandler_pod.go:61-103 | The create handler is the informer step: it lowers creates, or records a deletion if the pod is already terminating |
| `ScaleController.NodeSetController.PodTerminating` | internal/controller/nodeset/eventhandler/eventhandler_pod.go:116-197 | The update handler records a deletion once per key |
| `ScaleController.NodeSetController.PodDeleted` | internal/controller/nodeset/eventhandler/eventhandler_pod.go:209-251 | The delete handler is the informer step |
| `ScaleController.NodeSetController.CreateNodeSetPod` | internal/controller/nodeset/nodeset_sync.go:916-929 | One create request, refused for a name in use, with every outcome the caller can see |
| `ScaleController.NodeSetController.CreateBatch` | internal/utils/tools.go:33-52 | A slow-start batch of creates is that many create events, with its errors counted |
| `ScaleController.NodeSetController.BeginScaleUp` | internal/controller/nodeset/nodeset_sync.go:831-898 | The plan is the least free ordinals cut to a burst, and expectations are raised for exactly them |
| `ScaleController.NodeSetController.ScaleUp` | internal/controller/nodeset/nodeset_sync.go:880-943 | The create branch of doPodScale is a run of the protocol: raise, create in doubling batches from one, give back what was not created |
| `DrainBeforeDelete.DeletedPodsAreIdle` | internal/controller/nodeset/nodeset_sync.go:1029-1074 | In every interleaving of jobs, administrators, nodes that come and go, cache refreshes and operator steps, a pod whose Slurm node was registered when its reconcile refreshed the cache, and not anew since, has no work at the moment of deletion, even with steps between check and delete |
| `DrainBeforeDelete.BusyDeletionIff` | internal/controller/nodeset/slurmcontrol/slurmcontrol.go:313-339 | In every reachable state, exactly when a pod checked and deleted on the spot has work |
| `DrainBeforeDelete.LateNodeIsDeletedBusy` | internal/controller/nodeset/slurmcontrol/slurmcontrol.go:323-330 | A node that registers and works after the refresh: its pod is deleted under the job |
| `DrainBeforeDelete.InvStep` | internal/controller/nodeset/nodeset_sync.go:240-242 | The cache holds every node the reconcile knows, a copy that is drained belongs to a node that is, and stays so between check and delete; names may come and go while cached |
| `DrainBeforeDelete.OperatorActs` | internal/controller/nodeset/slurmcontrol/slurmcontrol.go:229-234 | A drain or undrain sent is in slurmctld and in the cache |
| `DrainBeforeDelete.RefreshShowsAll` | internal/controller/nodeset/slurmcontrol/slurmcontrol.go:68-84 | The refresh shows every node as it is, and no other |
| `Cordon.ExternalDrainIsInviolable` | internal/controller/nodeset/nodeset_sync.go:314-397 | A foreign drain made before a reconcile's refresh keeps DRAIN and reason, and no request is sent, through every run of cordon, uncordon and condemn from then on, with the node, the cache and the reads changing between any two reads of an operation |
| `Cordon.ForeignDrainSurvives` | internal/controller/nodeset/slurmcontrol/slurmcontrol.go:390-395 | The same for any reason that is not empty and does not begin with the operator's name |
| `Cordon.CordonOfCordonedNode` | internal/controller/nodeset/nodeset_sync.go:350-373 | What syncCordon brings about on a cordoned Kubernetes node: the pod cordoned, its node draining, the node's own reason if it has one |
| `Cordon.CordonOfCordonedPod` | internal/controller/nodeset/nodeset_sync.go:375-380 | On a schedulable one a cordoned pod's node drains, for the pod's reason, and exactly when it ends up draining |
| `Cordon.CordonOfUncordonedPod` | internal/controller/nodeset/nodeset_sync.go:382-388 | An uncordoned pod's node does not drain |
| `Cordon.CordonLeavesOthers` | internal/controller/nodeset/nodeset_sync.go:344-347 | A node of foreign reason, an unresponsive one, and one not found are left as they are |
| `Cordon.UncordonBringsAbout` | internal/controller/nodeset/nodeset_sync.go:1303-1323 | An uncordon of a pod we may touch leaves it uncordoned and its node not draining |
| `Cordon.CondemnBringsAbout` | internal/controller/nodeset/nodeset_sync.go:1029-1074 | A condemned pod is deleted exactly if its node drains, is not being undrained and does none of three kinds of work; any other is cordoned and its node drains |
| `Cordon.TerminatingIsLeft` | internal/controller/nodeset/nodeset_sync.go:1038-1047 | A condemned pod already on its way out, or gone, is left alone |
| `Cordon.DeleteAnswers` | internal/controller/nodeset/nodeset_sync.go:1068-1073 | A drained pod is gone if the API server accepts; only a refusal is an error |
| `Cordon.RefusalIsError` | internal/controller/nodeset/slurmcontrol/slurmcontrol.go:229-234 | An operation that sent a request fails exactly if the request was refused |
| `Cordon.FailedReadFails` | internal/controller/nodeset/slurmcontrol/slurmcontrol.go:383-388 | An operation whose first read fails is an error and does nothing |
| `Cordon.RefusedPatchStops` | internal/controller/nodeset/nodeset_sync.go:1163-1165 | Where the annotation cannot be written nothing is sent |
| `SlurmNodes.OursIff` | internal/controller/nodeset/slurmcontrol/slurmcontrol.go:390-397 | A reason is ours if there is none or it begins with the operator's name |
| `SlurmNodes.UnresponsiveIff` | internal/controller/nodeset/slurmcontrol/slurmcontrol.go:361-367 | A node is unresponsive if it is down and its reason says so anywhere |
| `Cordon.DrainSeenIsKept` | internal/controller/nodeset/slurmcontrol/slurmcontrol.go:371-398 | An operation whose cache shows the drain leaves it alone however time passes between its reads |
| `Cordon.LaterDrainIsOverwritten` | internal/controller/nodeset/slurmcontrol/slurmcontrol.go:190-237 | A drain made after the refresh, while the cache still shows the node undrained, loses its reason |
| `Cordon.MissedDrainIsUndone` | internal/controller/nodeset/nodeset_sync.go:1303-1323 | A cache that misses the node at the first read and finds it at the next leads to an undrain of a foreign drain |
| `Cordon.RequestsAreProper` | internal/controller/nodeset/nodeset_sync.go:1157-1334 | Through every run, every reason sent carries the operator's prefix, and an undrain goes out for a pod on an unschedulable Kubernetes node only if looking that node up failed |
| `Cordon.UndrainsUnschedulableIff` | internal/controller/nodeset/nodeset_sync.go:1303-1334 | Exactly when an operation undrains such a pod: the uncordon after a failed lookup, if its three reads say the drain is ours and the annotation is off or comes off |
| `Cordon.UndrainsUnschedulableCalm` | internal/controller/nodeset/nodeset_sync.go:1325-1334 | The same on the cached node when nothing happens between the reads |
| `Cordon.ProperUpdate` | internal/controller/nodeset/slurmcontrol/slurmcontrol.go:190-286 | Drain and undrain requests are proper if their caller's reason is not empty |
| `Cordon.ForeignReasonAloneIsNotSafe` | internal/controller/nodeset/nodeset_sync.go:1157-1200 | Without DRAIN a foreign reason is overwritten when the pod is condemned |
| `Cordon.KeptCondemnedDeletedIff` | internal/controller/nodeset/nodeset_sync.go:824-824 | Exactly when a pod that is both kept and condemned is deleted, on the cached and the real node |
| `Cordon.DaemonCondemnedStays` | internal/controller/nodeset/nodeset_sync.go:800-825 | In DaemonSet mode such a pod with our reason on a node that is not unschedulable is not deleted in any number of reconciles whose update does not pick it, whatever its jobs do between any two reads and whichever reads fail |
| `Cordon.DaemonCondemnedGoesIff` | internal/controller/nodeset/nodeset_sync.go:106-113 | Exactly when it goes, over every sequence of reconciles with nothing between their reads: some update picks it while its node has no work |
| `DaemonUpdate.UpToDateDaemonNeverGoes` | internal/controller/nodeset/nodeset_sync.go:1337-1353 | A condemned daemon pod of the revision wanted, or under OnDelete, is never deleted |
| `DaemonUpdate.DaemonGoesIff` | internal/controller/nodeset/nodeset_sync.go:1355-1384 | The same exact condition on the update step's own pods and sorts |
| `DaemonUpdate.OldDaemonGoes` | internal/controller/nodeset/nodeset_sync.go:1355-1384 | A lone old pod under any percentage from 1 to 100 is deleted in its first calm reconcile without work |
| `DaemonUpdate.PicksOldOnly` | internal/controller/nodeset/nodeset_sync.go:1363-1381 | The update condemns old pods only |
| `Cordon.StatefulCondemnedGoes` | internal/controller/nodeset/nodeset_sync.go:1029-1074 | In StatefulSet mode an idle condemned pod is gone after the second reconcile |
| `SlurmNodes.Prefixed` | internal/controller/nodeset/slurmcontrol/slurmcontrol.go:190-286 | A reason, if there is one, gets the operator's prefix and stays non-empty |
| `CordonController.CondemnedPod.Drain` | internal/controller/nodeset/slurmcontrol/slurmcontrol.go:190-237 | The request sent, the node after it and the error, for every lookup and answer |
| `CordonController.CondemnedPod.Undrain` | internal/controller/nodeset/slurmcontrol/slurmcontrol.go:240-286 | The same for the undrain |
| `CordonController.CondemnedPod.CordonAndDrain` | internal/controller/nodeset/nodeset_sync.go:1157-1231 | Annotation first, then drain only if the node does not drain yet |
| `CordonController.CondemnedPod.UncordonAndUndrain` | internal/controller/nodeset/nodeset_sync.go:1233-1301 | Annotation first, then undrain only if the node drains |
| `CordonController.CondemnedPod.PropagateCordon` | internal/controller/nodeset/nodeset_sync.go:314-397 | syncCordon for one pod, all skip conditions included; a foreign drain its cache shows is left alone, and what it sends is proper |
| `CordonController.CondemnedPod.Uncordon` | internal/controller/nodeset/nodeset_sync.go:1303-1334 | syncPodUncordon: nothing for a Kubernetes node found cordoned or a foreign reason; the same two promises |
| `CordonController.CondemnedPod.Condemn` | internal/controller/nodeset/nodeset_sync.go:1029-1074 | Deletes only when drained or not registered, otherwise cordons and drains; the same two promises |
| `Placement.PlacementStabilises` | internal/controller/nodeset/nodeset_sync.go:693-772 | From any pods on a node and for any list order and sort result, as many rounds outside the backoff as failed pods plus two reach exactly one running pod on a should-run node, at most one on a continue-only node, none elsewhere |
| `Placement.StableForever` | internal/controller/nodeset/nodeset_sync.go:693-772 | A stable node stays exactly as it is through every further round |
| `Placement.QuietIffStable` | internal/controller/nodeset/nodeset_sync.go:704-769 | Stable is exactly: nothing to create, nothing to delete, nothing on its way out |
| `Placement.DistanceFalls` | internal/controller/nodeset/nodeset_sync.go:704-769 | The distance to stability never rises and falls in every round outside the backoff |
| `Placement.WaitsForFailedPods` | internal/controller/nodeset/nodeset_sync.go:717-738 | A node with failed pods only runs nothing until each had its round outside the backoff |
| `Placement.KeepsTheYoungest` | internal/controller/nodeset/nodeset_sync.go:752-759 | Of duplicates alike but for age the youngest comes first in the order, and first is what stays |
| `Placement.PodsShouldBeOnNode` | internal/controller/nodeset/nodeset_sync.go:693-772 | The decision for one node, as sets of pods; never a create together with a delete; the running pod that stays is the first in deletion order, the youngest of pods alike but for age |
| `Placement.CreatesIff` | internal/controller/nodeset/nodeset_sync.go:646-687 | A pod is created exactly on an empty node whose name and affinity fit and where no taint against scheduling or running is untolerated |
| `Placement.SurvivesIff` | internal/controller/nodeset/nodeset_sync.go:678-684 | The running pod kept survives exactly where name and affinity fit and no taint against running is untolerated; elsewhere every pod goes that is not on its way |
| `Placement.ContinuingPods` | internal/controller/nodeset/nodeset_sync.go:708-759 | For a node that may keep a pod: one failed pod outside the backoff, all succeeded ones, all running ones but one |
| `Placement.TerminalPods` | internal/controller/nodeset/nodeset_sync.go:711-750 | The switch over a node's pods: only the first failed pod of a round goes |
| `Placement.LeavingPods` | internal/controller/nodeset/nodeset_sync.go:761-768 | For a node the NodeSet must leave: every pod not already on its way out |
| `Placement.GroupByNode` | internal/controller/nodeset/nodeset_sync.go:622-644 | A node is in the map exactly when a pod that is not gone targets it, with its pods in list order |
| `Placement.OnNodeIff` | internal/controller/nodeset/nodeset_sync.go:622-644 | The pods of a node are the listed ones that target it, less those deleted and stopped |
| `ActivePods.LessIsKeyLess` | internal/controller/nodeset/utils/sort.go:33-121 | Less is the lexicographic order on an explicit key, except for two cordoned pods tied before the cordon key |
| `ActivePods.PhaseDecides` | internal/controller/nodeset/utils/sort.go:41-48 | Among pods alike assigned, a running pod goes last and one of unknown phase before it only |
| `ActivePods.KeysDecide` | internal/controller/nodeset/utils/sort.go:50-74 | Readiness, deletion cost, deadline and cordon decide in this order, and which way |
| `ActivePods.LateKeysDecide` | internal/controller/nodeset/utils/sort.go:76-121 | Then ordinal, ready time and creation time, and which way, with times never set first |
| `ActivePods.AsymmetricIff` | internal/controller/nodeset/utils/sort.go:70-74 | It fails to be asymmetric, or irreflexive, exactly there |
| `ActivePods.StrictWeakOrder` | internal/controller/nodeset/utils/sort.go:33-99 | Elsewhere Less and incomparability are transitive |
| `ActivePods.SortExists` | internal/controller/nodeset/utils/sort.go:129-129 | Every list has a sort result as assumed |
| `ActivePods.SplitActivePods` | internal/controller/nodeset/utils/sort.go:123-134 | The caller's list is left sorted; clamped size, multiset conserved, no pod of the second part strictly preferred for deletion over one of the first; of assigned pods none running is given up while one neither running nor unknown is kept |
| `ActivePods.SplitOfSort` | internal/controller/nodeset/utils/sort.go:129-133 | The same of any cut of any sort result |
| `ActivePods.SplitUnhealthyPods` | internal/controller/nodeset/utils/sort.go:155-171 | The caller's list is left sorted by age; as many pods as are unhealthy, none younger than the rest, multiset conserved; they are the unhealthy ones exactly when every unhealthy pod is older than every healthy one |
| `ActivePods.AgeIsOrder` | internal/controller/nodeset/utils/sort.go:147-152 | Creation time, then name, is a strict weak order that tells pods of different names apart |
| `ActivePods.OlderMeans` | internal/controller/nodeset/utils/sort.go:147-152 | Earlier creation is older; of pods created together, the smaller name in byte order |
| `ActivePods.AgeSortExists` | internal/controller/nodeset/utils/sort.go:166-166 | Every list has a sort by age as assumed |
| `ActivePods.UnhealthyTakenIff` | internal/controller/nodeset/utils/sort.go:155-171 | The exact condition, on creation times, names and health of the input pods |
| `RollingUpdate.FindUpdatedPods` | internal/controller/nodeset/nodeset_sync.go:1432-1444 | New and old pods in order, terminating ones left out |
| `RollingUpdate.NewAndOldAre` | internal/controller/nodeset/nodeset_sync.go:1432-1444 | New and old by revision, terminating pods neither, and what counts as unavailable |
| `RollingUpdate.SplitUpdatePods` | internal/controller/nodeset/nodeset_sync.go:1387-1429 | The split is a front of the sorted old pods of the budget's length; nothing for OnDelete |
| `RollingUpdate.SplitIsBudgetedPartition` | internal/controller/nodeset/nodeset_sync.go:1399-1425 | Condemned plus kept is the non-terminating pods as a multiset, no current-revision pod is condemned, and condemned plus unavailable stays within max(maxUnavailable, unavailable) |
| `RollingUpdate.UpdateProgresses` | internal/utils/mathutils/math.go:22-28 | From 1% to 100% of a positive total, with every new pod available and an old pod left, at least one is condemned |
| `RollingUpdate.ScaledValueIs` | internal/utils/mathutils/math.go:22-28 | The number itself, the percentage rounded up, or one if unreadable |
| `RollingUpdate.BudgetIs` | internal/controller/nodeset/nodeset_sync.go:1413-1415 | What the budget leaves after the unavailable new pods, as far as there are old ones |
| `RollingUpdate.AbsoluteBudgetIsSpent` | internal/controller/nodeset/nodeset_sync.go:1413-1415 | With nothing unavailable an absolute budget is spent in full |
| `RollingUpdate.SyncRollingUpdate` | internal/controller/nodeset/nodeset_sync.go:1355-1384 | Hands on only old pods, none twice: the oldest, as many as are unhealthy, and a budgeted front of the rest; a burst of each is condemned |
| `RollingUpdate.UpdateWithinBudgetIff` | internal/controller/nodeset/nodeset_sync.go:1363-1381 | Exactly when all that the update step condemns, bursts included, with the unavailable new pods is within the NodeSet's maxUnavailable, in both scaling modes |
| `RollingUpdate.FitsBelowBurst` | internal/controller/nodeset/nodeset_sync.go:880-880 | That condition in plain terms for up to 250 old pods and one budget |
| `RollingUpdate.UpdateMaxIsMax` | internal/controller/nodeset/nodeset_sync.go:1409-1413 | The update's own budget differs from the NodeSet's only for a percentage in DaemonSet mode, and is then smaller |
| `RollingUpdate.UnhealthyAreNotBudgeted` | internal/controller/nodeset/nodeset_sync.go:1365-1372 | More unhealthy old pods, up to a burst, than the budget always exceed it |
| `UpdateAndUncordon.SparedIff` | internal/controller/nodeset/nodeset_sync.go:1091-1100 | For every list of distinct pods, cordon ties or not: exactly when a cut of it holds no kept pod, for every way it can be sorted |
| `UpdateAndUncordon.SparedByCutIff` | internal/controller/nodeset/nodeset_sync.go:1091-1100 | Where `Less` is strict on the old pods, what the uncordons kept is spared exactly when the update takes no more than were held back and no tie reaches across the cut, although the pods are sorted again after uncordoning |
| `UpdateAndUncordon.Overtakes` | internal/controller/nodeset/utils/sort.go:129-131 | A pod with fewer than k pods before it is among the first k of some sort |
| `UpdateAndUncordon.CordonTieSparesNothing` | internal/controller/nodeset/utils/sort.go:70-74 | With a cordon tie in the list any pod can come first |
| `UpdateAndUncordon.TiedPodsMaySwap` | internal/controller/nodeset/utils/sort.go:33-99 | Two pods alike but for UID and name are a tie, and neither is spared |
| `UpdateAndUncordon.UpdateDoesNotFightUncordon` | internal/controller/nodeset/nodeset_sync.go:1363-1381 | With distinct UIDs, every new pod available, a strict order and no tie across the cut, what was kept is spared, in both scaling modes |
| `UpdateAndUncordon.UpdateSparesKept` | internal/controller/nodeset/nodeset_sync.go:1363-1381 | Where it is spared, the update condemns no pod on the keep list, new pods included |
| `UpdateAndUncordon.UpdateAfterUncordon` | internal/controller/nodeset/nodeset_sync.go:1091-1100 | The keep list, the uncordons and the update step of a reconcile that does not scale, one after the other: with every old pod healthy and the kept ones spared, nothing just kept is condemned |
| `UpdateAndUncordon.ScaleInFights` | internal/controller/nodeset/nodeset_sync.go:856-860 | In a scale-in of old pods an update with a budget above the surplus condemns a pod just uncordoned, whatever the orders |
| `UpdateAndUncordon.DaemonScaleFightsIff` | internal/controller/nodeset/nodeset_sync.go:823-825 | In DaemonSet mode a reconcile that scales uncordons every pod, and its update fights it exactly when it condemns any |
| `RollingUpdate.BudgetsAgree` | internal/controller/nodeset/nodeset_sync.go:1409-1415 | The budget over the old pods is at most the one over all pods; in DaemonSet mode by monotonicity of the scaled value |
| `UpdateAndUncordon.FightWhileUnavailable` | internal/controller/nodeset/nodeset_sync.go:1399-1425 | With a new pod unavailable and old pods enough the two do overlap |
| `MathUtils.Clamp` | internal/utils/mathutils/math.go:14-18 | In range, unchanged inside it, the nearer bound outside it, whichever way round the bounds come |
| `Conditions.CalculateNodeStatus` | internal/controller/nodeset/slurmcontrol/slurmcontrol.go:427-534 | Total, every counter and every node's conditions are those of the listed nodes that belong to pods |
| `Conditions.BaseCountersPartition` | internal/controller/nodeset/slurmcontrol/slurmcontrol.go:458-489 | The seven base counters and the nodes without base state add up to the total |
| `Conditions.ReportedIff` | internal/controller/nodeset/slurmcontrol/slurmcontrol.go:460-530 | A state is reported exactly when the node has it and no earlier base state hides it |
| `Conditions.BaseIsFirst` | internal/controller/nodeset/slurmcontrol/slurmcontrol.go:460-489 | The base state reported is the first in the switch's order that the node has |
| `Conditions.UpdateConditions` | internal/controller/nodeset/nodeset_sync_status.go:243-271 | The two loops compute the function the lemmas below are about |
| `Conditions.SlurmConditionIff` | internal/controller/nodeset/nodeset_sync_status.go:243-271 | After the update a Slurm condition is true exactly when the node reports it, whatever the pod said before |
| `Conditions.ConditionCarriesReason` | internal/controller/nodeset/slurmcontrol/slurmcontrol.go:654-660 | A state's condition carries the node's reason |
| `Conditions.ReadByName` | pkg/conditions/conditions.go:11-59 | Busy and drain are read off the five conditions of these names |
| `Conditions.OthersUntouched` | internal/controller/nodeset/nodeset_sync_status.go:247-263 | All other conditions keep their values and their order |
| `Conditions.ConditionsTruthfulIff` | pkg/conditions/conditions.go:34-59 | Busy and drained read off the conditions agree with the Slurm states exactly when no work is hidden |
| `Conditions.OneBaseHidesNothing` | internal/controller/nodeset/slurmcontrol/slurmcontrol.go:460-489 | With at most one base state no work is hidden |
| `Conditions.FilterMultiplies` | internal/controller/nodeset/nodeset_sync_status.go:247-263 | The exact length of the filtered list |
| `Conditions.PodStatuses.UpdateNodeSetPodConditions` | internal/controller/nodeset/nodeset_sync_status.go:236-282 | Pods before the first patch that is not stored are rewritten, the others untouched; only a refused patch is an error |
| `Conditions.PodStatuses.UpdateNodeSetPodPDBLabels` | internal/controller/nodeset/nodeset_sync_status.go:314-355 | A pod reached carries the label exactly when its conditions say busy and protection is on; which pods a failing read or patch leaves unreached, and that a vanished pod is no error |
| `Conditions.PodStatuses.SyncNodeSetPodStatus` | internal/controller/nodeset/nodeset_sync_status.go:213-232 | After the status sync: label iff the node works and protection is on, drained readings agree, foreign conditions kept, unregistered pods unprotected, and exactly what happens to pods behind a vanished one |
| `OwnerRefs.RepairIsFixedPoint` | internal/controller/nodeset/podcontrol/podcontrol.go:358-519 | For references that match by name exactly when they match by UID: one repair brings the claim up to date, a second changes nothing, foreign references survive in order |
| `OwnerRefs.RepairedIff` | internal/controller/nodeset/podcontrol/podcontrol.go:358-519 | For every policy pair, cordon state and list: exactly when one repair is enough |
| `OwnerRefs.RepeatIff` | internal/controller/nodeset/podcontrol/podcontrol.go:476-519 | Exactly when a second repair changes nothing, for claims without aliases |
| `OwnerRefs.TwoRepairsSuffice` | internal/controller/nodeset/podcontrol/podcontrol.go:476-519 | Without aliases two repairs always do it |
| `OwnerRefs.SettledOwners` | internal/controller/nodeset/podcontrol/podcontrol.go:476-519 | Over the policy fields as written: which owner a coherent claim without foreign controller carries once settled, as a controller under its own name |
| `OwnerRefs.ForeignControllerWins` | internal/controller/nodeset/podcontrol/podcontrol.go:417-448 | A coherent claim somebody else controls ends up with no owner of ours |
| `OwnerRefs.StaleIsLeft` | internal/controller/nodeset/podcontrol/podcontrol.go:358-375 | A claim whose first reference under our name carries another UID is left alone |
| `OwnerRefs.OneControllerAtMost` | internal/controller/nodeset/podcontrol/podcontrol.go:564-573 | From at most one controller the repair leads to at most one |
| `OwnerRefs.RepairShape` | internal/controller/nodeset/podcontrol/podcontrol.go:463-519 | The repair is the foreign references in order plus at most the one owner wanted |
| `OwnerRefs.Claim.Repair` | internal/controller/nodeset/podcontrol/podcontrol.go:476-519 | The claim is mutated to exactly that |
| `OwnerRefs.Claim.RemoveOurRefs` | internal/controller/nodeset/podcontrol/podcontrol.go:463-471 | The filter keeps the foreign references in order |
| `OwnerRefs.Claim.FindUnexpectedController` | internal/controller/nodeset/podcontrol/podcontrol.go:417-448 | Finds an unexpected controller exactly when there is one |
| `OwnerRefs.Claim.RepairIfNeeded` | internal/controller/nodeset/podcontrol/podcontrol.go:194-238 | For one claim: changes nothing that is up to date, leaves coherent claims up to date, and with the owner the policy asks for |
| `Names.RoundTripIff` | internal/controller/nodeset/utils/utils.go:228-257 | Parsing a pod name gives back NodeSet name and ordinal exactly for ordinals below 2^31 and names of one line, for every padding |
| `Names.ParsedFromOwnText` | internal/controller/nodeset/utils/utils.go:233-245 | Every ordinal parsed is the value of the digits after the last dash |
| `Names.NoOrdinalIff` | internal/controller/nodeset/utils/utils.go:233-245 | A name has no ordinal exactly if it does not end in a dash and digits below 2^31 |
| `Names.PodNamesInjective` | internal/controller/nodeset/utils/utils.go:254-257 | Pod names tell NodeSets and ordinals apart whatever the paddings |
| `Names.ClaimNamesEqualIff` | internal/controller/nodeset/utils/utils.go:353-358 | Exactly when two claim names are equal |
| `Names.ClaimNamesInjective` | internal/controller/nodeset/utils/utils.go:353-358 | Within one NodeSet claim names tell template and ordinal apart |
| `Names.ClaimNamesClash` | internal/controller/nodeset/utils/utils.go:353-358 | Across NodeSets they can clash |
| `Names.HostnamesInjective` | internal/controller/nodeset/utils/utils.go:106-121 | Slurm node names without host networking are injective in the ordinal |
| `Names.HostnameReads` | internal/controller/nodeset/utils/utils.go:109-118 | A hostname is the prefix and the digits of the ordinal, or the pod name |
| `Names.PaddedDigits` | internal/controller/nodeset/utils/utils.go:248-251 | A padded ordinal is all digits and has the ordinal's value |
| `Names.PaddedWidth` | internal/controller/nodeset/utils/utils.go:248-251 | Padding reaches its width and adds nothing beyond it |
| `Names.PrintedExamples` | internal/controller/nodeset/utils/utils.go:248-257 | Decimal, zero padded, a sign counted towards the width |
| `WorkerPods.WorkerPod.UpdateIdentity` | internal/controller/nodeset/utils/utils.go:124-136 | The repair mends an identity exactly when the name belongs to the NodeSet |
| `WorkerPods.WorkerPod.InitIdentity` | internal/controller/nodeset/utils/utils.go:106-121 | Name, hostname and labels of a new pod |
| `WorkerPods.WorkerPod.NewOrdinalPod` | internal/controller/nodeset/utils/utils.go:29-56 | A new ordinal pod needs no repair exactly when its name parses back; then its Slurm node is named for the ordinal |
| `WorkerPods.WorkerPod.UpdateStorage` | internal/controller/nodeset/utils/utils.go:140-162 | For every range order: the claims' volumes, then the others in order; the storage matches exactly when the pod has an ordinal or needs none |
| `WorkerPods.WorkerPod.IsStorageMatch` | internal/controller/nodeset/utils/utils.go:289-321 | The by-name map and the scan decide exactly whether each template is mounted from its claim |
| `WorkerPods.PersistentVolumeClaims` | internal/controller/nodeset/utils/utils.go:326-351 | Template name to claim name, whatever the order or repetition of templates |
| `WorkerPods.OrdinalPodsOwnClaims` | internal/controller/nodeset/utils/utils.go:326-358 | Pods of different ordinals mount different claims |
| `WorkerPods.DaemonPodsOwnClaims` | internal/controller/nodeset/utils/utils.go:360-365 | Daemon pods of different hostnames mount different claims |
| `WorkerPods.RepairedMatches` | internal/controller/nodeset/utils/utils.go:140-162 | The repair makes IsStorageMatch true, with the exact exception |
| `WorkerPods.UnclaimedKept` | internal/controller/nodeset/utils/utils.go:156-160 | Every volume no claim names survives, in order |
| `WorkerPods.RepairTwice` | internal/controller/nodeset/utils/utils.go:140-162 | Repairing twice is repairing once up to order, and exactly once for the same range order |
| `History.HistoryInvariant` | internal/controller/nodeset/nodeset_history.go:75-136 | Over every sequence of template edits and rollbacks with any truncations and any lookups that did not take effect: data and numbers stay pairwise distinct, and after one that did the current template's revision is the newest |
| `History.SyncedKeeps` | internal/controller/nodeset/nodeset_history.go:96-120 | One lookup keeps the invariant and no stored data or label changes |
| `History.RevisionStore.CreateControllerRevision` | internal/utils/historycontrol/historycontrol.go:66-106 | Terminates at the first count whose name is free or holds the same data, or at an API error; never overwrites, only raises the count, and an error leaves the store as it was |
| `History.RevisionStore.GetNodeSetRevisions` | internal/controller/nodeset/nodeset_history.go:75-147 | Unchanged, renumbered or created, as the stored data say; the label and the name after a collision |
| `History.RevisionStore.UpdateControllerRevision` | internal/utils/historycontrol/historycontrol.go:108-133 | For every course of writes, conflicts and reads: whether the number of that one revision is stored and what is reported |
| `History.PretendedIff` | internal/utils/historycontrol/historycontrol.go:117-132 | Exactly when success is reported for a number that was not stored |
| `History.WrittenIff` | internal/utils/historycontrol/historycontrol.go:117-132 | Exactly when the number is stored |
| `History.NextRevision` | internal/controller/nodeset/nodeset_history.go:141-147 | One more than the greatest stored number, 1 if there is none |
| `History.RevisionStore.TruncateHistory` | internal/controller/nodeset/nodeset_history.go:25-67 | Deletes exactly the surplus front of the non-live revisions, a front of it if a delete fails, and fails for a negative limit; never the current or update revision or one whose name a pod carries |
| `History.StillLowest` | internal/controller/nodeset/nodeset_history.go:48-65 | The revisions deleted are the lowest numbered of the non-live ones, also in the store the lookup renumbered |
| `History.PodsDoNotProtect` | internal/controller/nodeset/nodeset_history.go:45-53 | A revision the operator created and every pod runs is deleted when the limit is zero |
| `History.PodsProtectIff` | internal/controller/nodeset/nodeset_sync.go:135-144 | Pods keep their revision exactly when its hash label is its name |
| `History.RevisionStore.ReconcileHistory` | internal/controller/nodeset/nodeset_sync.go:86-118 | Lookup and truncation of one reconcile together keep the invariant, leave the template's revision newest unless its number was not stored, and delete the lowest numbered of the non-live revisions |
| `Ordinals.AllocateOrdinals` | internal/controller/nodeset/nodeset_sync.go:831-855 | The loop terminates and yields the smallest unused naturals, increasing |
| `Ordinals.LeastFreeUnique` | internal/controller/nodeset/nodeset_sync.go:831-855 | The reference definition has exactly one solution |
| `Ordinals.BurstsAgree` | internal/controller/nodeset/nodeset_sync.go:880-881 | Creating in bursts over observed reconciles ends with the same ordinals as one unbounded burst |
| `SlowStart.SlowStartBatch` | internal/utils/tools.go:29-55 | The calls are a prefix of the indices, all of them without error; a failure stops them at the end of its batch, the batches doubling, so one at f before 2f + initial; successes are calls minus failures |
| `SlowStart.FailureSurfaces` | internal/utils/tools.go:29-55 | A failing index below the count always surfaces as an error |
| `Token.FreshTokenNeverDueIff` | internal/controller/token/token_sync.go:89-99 | A fresh token is before its refresh time, and that not after expiry, at every issue time exactly from 1.249999999 s of lifetime up to the int64 maximum |
| `Token.FreshTokenFar` | internal/controller/token/slurmjwt/token.go:34-60 | From there a fresh token is more than a fifth of its lifetime from expiring, despite clamp and whole seconds |
| `Token.BornExpiredIff` | internal/controller/token/slurmjwt/token.go:36-60 | Every token is born expired exactly for lifetimes that are not positive |
| `Token.TokenNeverExpires` | internal/controller/token/token_sync.go:46-112 | Through every run of prompt reconciles no stored token expires before it is replaced |
| `Token.SafeNext` | internal/controller/token/token_sync.go:79-107 | One reconcile keeps time for the next |
| `Token.ExpiredIsReplaced` | internal/controller/token/token_sync.go:80-94 | A token found expired is replaced |
| `Token.RewrittenForever` | internal/controller/token/token_sync.go:89-107 | A lifetime that is not positive rewrites the Secret in every reconcile |
| `Token.TokenSecret.Sync` | internal/controller/token/token_sync.go:46-127 | The requeue, the Secret and the error of one sync, for a missing, unreadable, unlimited or expiring token, refreshed or not |
| `Token.SyncIsNext` | internal/controller/token/token_sync.go:74-110 | For an expiring token that is refreshed, a sync is the reconcile of the run theorem |
| `Token.MissingIsMade` | internal/controller/token/token_sync.go:59-71 | A missing Secret is made, refreshed or not, with a token more than a fifth of its lifetime from expiring; not seeing it yet is an error to the refresh only |
| `Token.NotDueIsLeft` | internal/controller/token/token_sync.go:89-99 | A token neither due nor expired is left alone and looked at again at its refresh time |
| `Token.UnreadableIsLeft` | internal/controller/token/token_sync.go:49-52 | A Secret that cannot be read is left alone: an error, or another look in thirty seconds |
| `Token.ExpiryIs` | internal/controller/token/slurmjwt/token.go:34-60 | The expiry in whole seconds, for the lifetime clamped to what Slurm takes for infinite |
| `Token.RefreshTimeIs` | internal/controller/token/token_sync.go:91-91 | A fifth of the lifetime before expiry |
| `Token.NoExpiryReplacedIff` | internal/controller/token/token_sync.go:149-155 | Exactly when a token without exp is replaced, given the clock readings of the step and of the expiry read |
| `Token.UnrefreshedIsLeft` | internal/controller/token/token_sync.go:75-77 | A token not to be refreshed is never replaced, and exactly when nothing wakes its Token any more |

## Left out

Assumptions about the environment:

- slurmctld starts no work on a draining node, reports a node busy exactly while it has work, and nobody but the operator takes a drain back.
- The NodeSet's Slurm client does not come or go in the middle of a reconcile, and the Kubernetes node of a pod does not change within one operation.
- A write of the operator to slurmctld is seen by its own next read; reads of pods after a status patch see the patch.
- UID-tracking expectations follow the Kubernetes library: setting deletions resets creates, a deletion is observed once per key.
- Sorting returns a permutation, sorted if the comparison is a strict weak order on the list.
- Revision names are injective in the collision count for fixed data, and all stored revisions are listed.
- A rewritten Secret is an event for the token's work queue.

Not modelled:

- Builders, defaults, webhooks and the reconcilers of other kinds: field assembly with one-branch facts.
- Services, the disruption budget object, SSH configuration, taints, topology and deadline annotations: writes around easy conditions.
- The node-migration IDLE write and the pod-info comment: their effect is decided inside slurmctld.
- Taint, affinity and toleration matching, and the backoff clock: four answers per node and a flag per round.
- JWT signing, hashing and JSON: a timestamp and equality of data; that two hash labels that happen to be numbers are compared as well is not modelled.
- The goroutines inside one slow-start batch: the calls of a batch are taken in index order.
- Switching a NodeSet between scaling modes.
- `calculateReplicaStatus`: counters with one-branch facts.
- Strategic merge of duplicate conditions in the API server: a patch stores the list it was computed from.
- Printing widths above one million, which Go's formatting refuses, and overflow of collision counts and revision numbers.
- Placement.PlacementStabilises: deletes and creates take effect within the round and nodes do not change; that a condemned daemon pod may in fact be kept alive by the uncordon is the subject of DaemonUpdate.
