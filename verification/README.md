# A verified model of the kvrocks operator's decision logic

The operator keeps kvrocks instances running on Kubernetes. A cluster is a list of
shards; each shard is an OpenKruise StatefulSet whose pods carry ordinals, and
kvrocks-controller keeps a table of shards, nodes and slots. This project models
what the operator decides with these and proves properties of it, for all inputs,
all runs and all patterns of failing calls.

| file | what it holds |
|---|---|
| `Text.dfy`, `Counting.dfy` | decimal numbers, splitting, finite sets, sorting |
| `SlotRanges.dfy` | the slot range codec (`SlotsToString`, `SlotsToInt`) |
| `Ordinals.dfy` | which ordinals a StatefulSet runs, as an algorithm and as a description |
| `Topology.dfy` | nodes, the persisted topology, save and load |
| `ShrinkPlanner.dfy`, `ShrinkCorrect.dfy` | the three scale-down planners and when their plan is right |
| `ShrinkReload.dfy` | plan, save, apply, reload: who gets whose record |
| `Scaling.dfy`, `ShrinkRuns.dfy`, `WholeShrink.dfy` | scale-up, applying plans with crashes and spec edits, whole runs of a shard, whole-cluster shrinks |
| `ClusterReplication.dfy` | the operator's own choice of a master in each shard |
| `FailoverMerge.dfy`, `FailoverPods.dfy` | merging a failover into the topology, clearing failover flags, whose pods are deleted |
| `StatusProtocol.dfy`, `StatusSafety.dfy`, `StatusWrites.dfy` | the KVRocks object shared by reconcilers, failover handlers and users; its safety over every run; what each accepted write persists |
| `ShardTable.dfy`, `Reconcile.dfy` | `updateCluster`, `ensureSetNodeID`, choosing a migration |
| `Migration.dfy` | moving slots with retries |
| `FailoverQueue.dfy`, `LatePutBack.dfy` | the failover queue, and when a message goes back late |
| `StandardReplication.dfy` | replication in standard mode |
| `Claims.dfy` | claim clean-up |
| `Routing.dfy` | names from instance to failover message and back |

Calls to Kubernetes, kvrocks-controller and the redis servers are methods of small
objects that may fail at any time (a havocked flag), where it matters with or
without having taken effect. A panic of the Go code (an index or slice out of range)
is an outcome of its own. Loops are loops, lists and maps that the code mutates are
fields, arrays or local variables that the methods update; each such method is proved
against a function of its inputs, and the properties are lemmas about that function.
Concurrency is a state machine over the actors' steps.

## What turned out to hold only under a condition

Each of these is proved as an if-and-only-if, with a failing input where there is a name
in parentheses after "fails".

- A master's pod survives the application of a recorded plan exactly when it is not in
  the plan and fewer ordinals that are neither reserved nor planned lie below it than
  replicas are applied; a master's pod runs throughout a run exactly when that holds at
  each application (`MasterAlwaysRunsIff`), and always in a run where scale-ups and
  failovers wait for a pending plan and no application undercuts its plan
  (`OrderlyKeepsMaster`). A failover between recording and applying a
  plan can promote a pod that is to go (`PromotedStaysIff`, fails: `PromotedPickIsEvicted`),
  and a lowered `Spec.Replicas` can evict the master the plan was made for
  (`AppliedKeepsIff`, fails: `LoweredSpecEvictsMaster`), and a clean-up from an old copy
  can evict a later one (fails: `StaleCopyEvictsMaster`).
- A dropped shard's StatefulSet is gone exactly when the lookup before its deletion was
  answered in some attempt (`ReplayIsOnce`, fails: `UnansweredLookupsLeaveAll`).
- `ensureReplication` ends with one master in a shard exactly when no other master shares
  the chosen one's id or names it as its own master (`OneMasterIff`, fails: `RivalStays`).
- The planner uses a pod ordinal as a list index. It returns exactly when the highest
  slave's ordinal is below the number of pods (`ReturnsIff`, fails: `GapPanics`), and it
  empties the right positions exactly when nothing is reserved at or below that ordinal
  (`NilsItsOwnIff`, `ShrinkThenReload`, fails: `GapDropsMaster`). Starting with nothing
  reserved, that stays so exactly when every plan is recorded while the master's ordinal
  is below its target (`StaysContiguousIff`).
- `ensureFailover` names the pod it deletes by list position too. It deletes the right
  pods exactly when nothing is reserved at or below the last one that is down; otherwise
  it deletes a pod that should stay (`DeletesOwnPodsIff`, fails: `HealthyPodDeleted`).
- The reserve plan is right, whatever was reserved before, exactly when no more masters
  than replicas are listed and no slave, master, slave, master follow each other such that
  fewer slaves than have to go lie above the lowest of the four (`PlanIff`, fails:
  `TangledDropsMaster`); with one master and at least one replica it always is
  (`PlanKeepsMaster`). The comment on `checkSpecification` asks for replicas greater
  than zero, the code does not check it.
- Standard mode overwrites the reserve list, which is right exactly when nothing was
  reserved below a pod that stays (`FreshReserveIff`, fails: `FreshDropsMaster`).
- A handler that decides in time to put its message back can send it after its deadline
  exactly when the channel is full at the decision (`PutBackLateIff`).
- `updateCluster` converges, and a second run is silent, exactly when no pod address
  contains a colon (`ConvergesIff`, `SilentIffConverged`, fails: `Ipv6NeverConverges`).
- The codec gives the sorted slots back exactly when none is negative (`RoundTrip`, fails:
  `NegativeSlotIsLost`).
- After a failover merge in which every entry is known to the controller there is
  exactly one master if the new master has an entry, and none otherwise
  (`MergedMasters`, fails: `MasterWithoutEntry`).
- A migration's record of the remaining slots is right exactly when the moved slots
  were the first ones recorded (`RecordedIff`, fails: `WrongSlotsOnRecord`).
- A failover notice reaches its shard exactly when neither the system id nor the name
  of the instance contains a dash (`RouteIff`, fails: `DashedNameIsLost`).

## Model

| member | source | states |
|---|---|---|
| SlotRanges.SlotsToString | pkg/client/kvrocks/kvrocks_client.go:108-132 | sorts its argument in place and returns the printed runs of the sorted list |
| SlotRanges.SlotsToInt | pkg/client/kvrocks/kvrocks_client.go:134-150 | reads a list of range strings, unreadable numbers as zero |
| SlotRanges.UnreadableRange | pkg/client/kvrocks/kvrocks_client.go:134-150 | a string that is no number reads as slot 0, a range that ends before it begins as no slot |
| SlotRanges.LoneSlot | pkg/client/kvrocks/kvrocks_client.go:120-127 | a slot without a neighbour is printed as its number alone, without a dash |
| SlotRanges.RoundTrip | pkg/client/kvrocks/kvrocks_client.go:108-150 | reading what was printed gives the sorted slots, duplicates included, if and only if no slot is negative |
| SlotRanges.NegativeSlotIsLost | pkg/client/kvrocks/kvrocks_client.go:108-150 | slot -1 does not come back |
| SlotRanges.PrintAfterParse | pkg/client/kvrocks/kvrocks_client.go:108-150 | for slots that are not negative, printing what was read from a printed list gives that list |
| SlotRanges.EncodeInjective | pkg/client/kvrocks/kvrocks_client.go:108-132 | two lists without negative slots print alike if and only if they hold the same slots equally often |
| SlotRanges.Minimal | pkg/client/kvrocks/kvrocks_client.go:108-150 | for a list without duplicates, no shorter list of strings whatsoever reads as the same set of slots |
| Topology.EnsureStatusTopoMsg | pkg/controllers/cluster/kubernetes.go:146-182 | the nested loops write one entry for each node that is not nil, skip shards that are nil, and leave every slot list sorted in memory |
| Topology.SaveAgain | pkg/controllers/cluster/kubernetes.go:164-171 | the sorting a save does in memory does not change what the next save writes |
| Topology.SavedNames | pkg/controllers/cluster/kubernetes.go:152-179 | when no shard is nil, partition i carries the name of StatefulSet i and the number i; the entry of the node at position j is named after j and has its address, role, id and master and no flag, nodes set to nil closing up |
| Topology.LoadTopology | pkg/controllers/cluster/kubernetes.go:123-140 | entries go to the pods by position; out of range exactly when an entry has no pod at its position, so a surplus partition without entries is passed over |
| Topology.UnlistedPod | pkg/controllers/cluster/kubernetes.go:106-109 | a pod without an entry has its address and ordinal, no role, id, master, slots or migrations, and no flag |
| Topology.SaveLoad | pkg/controllers/cluster/kubernetes.go:123-182 | with one pod per node and no negative slot, saving and loading restores role, id, master, sorted slots and migrations of every node; only the failover flag is gone |
| ShrinkPlanner.Scan | pkg/controllers/cluster/kubernetes.go:262-276 | the downward scan yields the picks and masterID |
| ShrinkPlanner.NilAndReserve | pkg/controllers/cluster/kubernetes.go:277-284 | sets the picks' positions to nil and reserves those not above the master; fails if and only if a position is out of range |
| ShrinkPlanner.GetReserveIndex | pkg/controllers/cluster/kubernetes.go:257-287 | returns nil without surplus, otherwise the plan, and leaves the list emptied at the picks' positions |
| ShrinkPlanner.ResizeStatefulSet | pkg/controllers/common/kubernetes.go:8-42 | the common copy computes the same plan and empties the same positions |
| ShrinkPlanner.ResizeStandard | pkg/controllers/standard/kubernetes.go:85-112 | the standard copy reserves picks upwards until the first above the master |
| ShrinkCorrect.PickedAreHighest | pkg/controllers/cluster/kubernetes.go:264-276 | the picks are distinct, none is a master, and every other non-master lies below all of them |
| ShrinkCorrect.PickIff | pkg/controllers/cluster/kubernetes.go:264-276 | a pod is picked if and only if it is no master and fewer non-masters than have to go lie above it |
| ShrinkCorrect.ScanMasterIsLowest | pkg/controllers/cluster/kubernetes.go:263-276 | masterID ends as the lowest master with a pick below it, and keeps its initial value when there is none |
| ShrinkCorrect.PlanIff | pkg/controllers/cluster/kubernetes.go:257-287 | for any roles and any reserve list: with the plan added the StatefulSet runs exactly the pods not picked, if and only if no more masters than replicas are listed and no slave, master, slave, master follow each other with too few slaves above the lowest |
| ShrinkCorrect.TangledDropsMaster | pkg/controllers/cluster/kubernetes.go:257-287 | slave, master, slave, master shrunk to two replicas: the upper master goes |
| ShrinkCorrect.PlanKeepsMaster | pkg/controllers/cluster/kubernetes.go:257-287 | with one master and at least one replica exactly the surplus goes, the master stays, and the StatefulSet runs what is left |
| ShrinkCorrect.CopiesAgree | pkg/controllers/standard/kubernetes.go:105-112 | on sorted pods the copy that breaks and the copies that continue give the same list |
| ShrinkCorrect.FreshReserveIff | pkg/controllers/standard/kubernetes.go:89-114 | writing the plan as the whole reserve list keeps the same pods if and only if nothing was reserved below a master or below a slave with enough slaves above it |
| ShrinkCorrect.FreshDropsMaster | pkg/controllers/standard/kubernetes.go:89-114 | ordinals 0, 2, 3 with the master at 3: the fresh list evicts the master |
| ShrinkCorrect.ReturnsIff | pkg/controllers/cluster/kubernetes.go:277-279 | the planner returns if and only if the highest non-master's ordinal is below the number of pods |
| ShrinkCorrect.GapPanics | pkg/controllers/cluster/kubernetes.go:277-279 | ordinals 0 and 3 with the master at 0: shrinking to one replica indexes out of range |
| ShrinkCorrect.NilsItsOwnIff | pkg/controllers/cluster/kubernetes.go:277-279 | the emptied positions are those of the picked pods if and only if nothing is reserved at or below the highest non-master |
| ShrinkCorrect.GapDropsMaster | pkg/controllers/cluster/kubernetes.go:277-279 | with ordinals 0, 2, 3, ordinal 1 reserved and the master at 3, shrinking to two replicas empties the master's position |
| ShrinkReload.RecordsKeptIff | pkg/controllers/cluster/kubernetes.go:154-175 | the records that survive are those of the pods that stay if and only if nothing is reserved at or below the highest non-master |
| ShrinkReload.ShrinkThenReload | pkg/controllers/cluster/kubernetes.go:195-251 | plan, save, apply, reload one shard: there is one record for each remaining pod, and each pod gets its own back if and only if nothing was reserved at or below the highest non-master |
| Scaling.ScaleUp | pkg/controllers/cluster/kubernetes.go:63-74 | drops one reserved ordinal from the front for each added replica while there are any |
| Scaling.ScaleUpPodsIff | pkg/controllers/cluster/kubernetes.go:63-74 | which ordinals run after a scale-up: those not listed behind the released ones, with fewer unlisted ones below than replicas; as many are released from the front as replicas are added, or all |
| Scaling.ScaleUpReleases | pkg/controllers/cluster/kubernetes.go:63-74 | each released ordinal that is not listed again and lies below a running pod runs afterwards, and no ordinal still listed does |
| Scaling.ScaleUpKeepsPods | pkg/controllers/cluster/kubernetes.go:63-74 | scaling up never evicts a running pod, whatever the reserve list holds |
| Scaling.Kubernetes.DeleteIfExists | pkg/client/k8s/statefulset.go:93-102 | a lookup that fails for any reason deletes nothing and reports success |
| Scaling.Kubernetes.CleanStatefulSet | pkg/controllers/cluster/kubernetes.go:227-251 | one attempt, cut short anywhere or complete: exactly the listed partitions it reached are gone, in a complete attempt those whose lookup was answered; only listed plans are applied, a complete attempt applies them all |
| Scaling.ReplayIsOnce | pkg/controllers/cluster/kubernetes.go:227-255 | after any number of interrupted attempts and a complete one, each reading Spec.Replicas afresh: a listed partition is gone if and only if some attempt reached it, and every planned StatefulSet runs the pods of a single application with the last value |
| Scaling.UnansweredLookupsLeaveAll | pkg/client/k8s/statefulset.go:93-102 | a clean-up whose lookups all go unanswered completes and leaves every StatefulSet |
| Scaling.AppliedKeepsIff | pkg/controllers/cluster/kubernetes.go:244-248 | a pod the plan keeps still runs, whatever number of replicas is applied, if and only if fewer pods the plan keeps lie below it than that number |
| Scaling.LoweredSpecEvictsMaster | pkg/controllers/cluster/kubernetes.go:244-248 | planned for two replicas and applied with one, the master at ordinal 2 goes |
| ShrinkRuns.OrderlyKeepsMaster | pkg/controllers/cluster/kubernetes.go:52-255 | over every run in which scale-ups and failovers happen only while no plan is pending, targets are at least one and no application uses fewer replicas than its plan's target, the master's pod always runs, however often applications are repeated |
| ShrinkRuns.FixedMasterStays | pkg/controllers/cluster/kubernetes.go:52-255 | the same from a shard with nothing pending and no failover: the master the run started with always runs |
| ShrinkRuns.MasterAlwaysRunsIff | pkg/controllers/cluster/kubernetes.go:52-255 | over every run of scale-ups, recorded plans, applications (repeated, with any replicas, also from an old copy) and failovers in any order, the current master's pod always runs if and only if each application meets a condition on the plan and the ordinals reserved below the master |
| ShrinkRuns.StaleCopyEvictsMaster | pkg/controllers/cluster/kubernetes.go:227-254 | a shard shrunk by one and grown back: a clean-up from the old copy evicts the new pod after it became master |
| ShrinkRuns.ApplySurvivesIff | pkg/controllers/cluster/kubernetes.go:227-251 | one application: the current master's pod stays if and only if it is not in the plan and few enough unreserved ordinals lie below it |
| ShrinkRuns.PromotedStaysIff | pkg/controllers/cluster/kubernetes.go:195-251 | a pod promoted between recording and applying a plan stays if and only if it was the master before or at least as many slaves as had to go lay above it |
| ShrinkRuns.PromotedPickIsEvicted | pkg/controllers/cluster/kubernetes.go:195-251 | three pods, master 0, shrink to two, pod 2 promoted in between: it is evicted |
| ShrinkRuns.GapOpensIff | pkg/controllers/cluster/kubernetes.go:257-287 | from an empty reserve list a shrink leaves ordinals 0..target-1, and reserves nothing, if and only if the master's ordinal is below the target |
| ShrinkRuns.StaysContiguousIff | pkg/controllers/cluster/kubernetes.go:52-255 | over every run with a running master, nothing is ever reserved if and only if every plan is recorded with the master's ordinal below its target and no old copy brings a plan that reserves anything; then ordinals never have a gap |
| WholeShrink.EnsureShrink | pkg/controllers/cluster/kubernetes.go:195-225 | the recorded message is exactly the shards beyond Spec.Master and the plans of the shards with a surplus; nothing is recorded only when there is nothing to do; a monitor that cannot be removed ends the call |
| WholeShrink.DecisionThins | pkg/controllers/cluster/kubernetes.go:203-219 | what is saved with a shrink only drops shards and nodes |
| WholeShrink.ShrinkKeepsMasters | pkg/controllers/cluster/kubernetes.go:195-255 | a whole shrink with interrupted clean-ups and edits of Spec.Replicas: a dropped shard is gone if and only if some attempt reached it, exactly which pods of every other shard run, and its planned master runs if and only if fewer kept pods lie below it than replicas were applied last |
| WholeShrink.ShrinkThenReloadAll | pkg/controllers/cluster/kubernetes.go:123-255 | the whole topology saved with a shrink and loaded on the pods left: each shard gets its own records back if and only if it had no surplus or nothing was reserved at or below its highest non-master |
| FailoverMerge.FindMaster | pkg/controllers/events/handler.go:132-139 | the id of the first master listed, empty when there is none |
| FailoverMerge.FirstMasterFound | pkg/controllers/events/handler.go:132-139 | with any number of masters it is the id of the first one |
| FailoverMerge.NoMasterFound | pkg/controllers/events/handler.go:132-139 | empty when no node is a master |
| FailoverMerge.MergeTopology | pkg/controllers/events/handler.go:152-165 | the nested loop in place is the entry-wise merge |
| FailoverMerge.MergeEntryIs | pkg/controllers/events/handler.go:152-165 | whatever the node order: the failed address ends flagged, other matched entries unflagged with the controller's role, matched slaves point at the new master, the rest stays |
| FailoverMerge.MergedMasters | pkg/controllers/events/handler.go:132-165 | when every entry matches, there is exactly one master if the new master has an entry and none otherwise |
| FailoverMerge.MasterWithoutEntry | pkg/controllers/events/handler.go:152-165 | a partition that loses its only master because the new one has no entry |
| FailoverMerge.FailoverShard | pkg/controllers/cluster/kvrocks.go:140-173 | a pass over one shard, complete or stopped at a failed deletion, is the turn-by-turn pass up to the node it stopped at; the claim of that node may be gone already |
| FailoverMerge.PassIs | pkg/controllers/cluster/kvrocks.go:140-173 | up to any node: exactly these flags are cleared, exactly the unflagged silent nodes are reported and the flagged silent ones deleted, by position |
| FailoverPods.EnsureFailover | pkg/controllers/cluster/kvrocks.go:140-173 | over all shards: every flag is cleared, exactly the unflagged silent nodes are reported and the flagged silent ones deleted; a pass that fails has handled the shards before completely |
| FailoverPods.NodeIsHandled | pkg/controllers/cluster/kvrocks.go:140-173 | a complete pass clears the flag of every node and changes nothing else of it; an unflagged node that does not answer is reported, for a flagged one the pod named after its position is deleted; nobody who answers is reported |
| FailoverPods.DeletesOwnPodsIff | pkg/controllers/cluster/kvrocks.go:151-157 | only pods of flagged silent nodes are deleted, and then all of them, if and only if nothing is reserved at or below the last such node; otherwise that node keeps its pod and another one loses its own |
| FailoverPods.HealthyPodDeleted | pkg/controllers/cluster/kvrocks.go:151-157 | ordinals 0, 2, 3 with node 3 down: the pod of node 2 is deleted |
| ClusterReplication.EnsureReplication | pkg/controllers/cluster/kvrocks.go:81-109 | over all shards: the first master, or the first node when there is none with an id, is chosen, and every node that neither shares its id nor names it becomes its slave |
| ClusterReplication.FirstMasterLeads | pkg/controllers/cluster/kvrocks.go:84-98 | the first master, when it has an id, stays as it is; every node with another id ends naming it, as a slave if it did not name it before, and as master only if it was a master that did |
| ClusterReplication.FirstNodePromoted | pkg/controllers/cluster/kvrocks.go:90-98 | without a master, or when the first one has no id, node 0 becomes master and every node with another id ends naming it |
| ClusterReplication.OneMasterIff | pkg/controllers/cluster/kvrocks.go:81-109 | a shard ends with exactly one master if and only if no other master shares the chosen node's id or names it as its own master |
| ClusterReplication.RivalStays | pkg/controllers/cluster/kvrocks.go:81-109 | two masters of which the second names the first: both stay |
| ClusterReplication.ReplicatedSamePods | pkg/controllers/cluster/kvrocks.go:81-109 | addresses and flags stay, as the protocol of the shared object expects |
| StatusProtocol.EnsureVersion | pkg/controllers/cluster/kvrocks.go:112-137 | bumps unless count, address and role of every node are unchanged |
| StatusProtocol.BumpIffMatrixChanges | pkg/controllers/cluster/kvrocks.go:112-137 | no bump if and only if a topology is persisted and its (Ip, Role) matrix is that of the nodes |
| StatusProtocol.SavedMatrix | pkg/controllers/cluster/kubernetes.go:146-182 | saving shards that all have nodes persists their matrix |
| StatusSafety.ActorGood | pkg/controllers/cluster/handler.go:48-89 | every stage of a reconciler, from a copy however stale, and every failover handler keeps the invariant of the history |
| StatusSafety.HandlerGood | pkg/controllers/events/handler.go:77-167 | a failover handler's write, merge or surrender, keeps the invariant of the history; what it writes is HandlerMerges and HandlerGivesUp |
| StatusWrites.HandlerMerges | pkg/controllers/events/handler.go:132-167 | an accepted merge: in the partition of the message every entry with the failed address is flagged, every entry the controller knows has its role, the slaves among them name the first master; all other fields, entries and partitions stay, the version rises by one |
| StatusWrites.HandlerGivesUp | pkg/controllers/events/handler.go:95-150 | a failed shard failover, or a shard without a master, makes the object Failed and drops its topology |
| StatusWrites.HandlerSkips | pkg/controllers/events/handler.go:82-85 | nothing is written to a Failed or deleted object or from a copy that is not current |
| StatusWrites.MergeIsLoaded | pkg/controllers/cluster/kubernetes.go:123-140 | the reconciler that loads after a merge sees the pod with the failed address flagged and every pod the controller knows in its role |
| StatusWrites.LoadReads | pkg/controllers/cluster/kubernetes.go:115-141 | a pod with an entry is loaded with its role, id, master and flag, and the persisted version is taken over; a copy that is no longer current ends the pass |
| StatusWrites.SaveWrites | pkg/controllers/cluster/kvrocks.go:112-137 | the save after ensureVersion persists a topology that loads back to the nodes; the version rises by one unless the (Ip, Role) matrix is the persisted one |
| StatusWrites.ChangeIsSeen | pkg/controllers/cluster/kvrocks.go:112-137 | one differing role or address makes the version rise |
| StatusWrites.FailoverWrites | pkg/controllers/cluster/kvrocks.go:140-173 | what ensureFailover saves loads back to the nodes with their flags cleared, under a new version |
| StatusWrites.MigrateWrites | pkg/controllers/cluster/rebalance.go:53-58 | what a migration saves loads back to the nodes, under the same version |
| StatusWrites.ShrinkWrites | pkg/controllers/cluster/kubernetes.go:223-224 | a shrink's save marks the shrink pending, keeps version and phase and saves the nodes left |
| StatusWrites.RolesWrites | pkg/controllers/cluster/kvrocks.go:196-217 | once roles are assigned the object is Running and otherwise as it was |
| StatusWrites.CleanWrites | pkg/controllers/cluster/kubernetes.go:252-254 | the clean-up ends the pending shrink with a new version and leaves topology and phase; with nothing pending nothing is written |
| StatusWrites.GateWrites | pkg/controllers/kvrocks_controller.go:131-142 | an invalid spec makes the object Failed, a new object becomes Creating, the rest stays; a Failed object is left alone |
| StatusSafety.StepKeepsOk | pkg/controllers/kvrocks_controller.go:85-155 | every step of any actor or user keeps the invariant and only appends to the history |
| StatusSafety.VersionDeterminesMatrix | pkg/controllers/cluster/kvrocks.go:112-137 | in every interleaving: Failed is absorbing, the version never falls before it, and two objects not Failed that agree on version and pending shrink have the same matrix |
| StatusSafety.ShrinkIsTheOnlyWindow | pkg/controllers/cluster/kubernetes.go:220-254 | the matrix moves without the version only when a shrink starts, and a pending shrink ends only with a new version |
| StatusSafety.FlagsAreNotLost | pkg/controllers/cluster/kubernetes.go:158-166 | although a save omits the failover flag, a flag disappears only with ensureFailover's save, a failover merge, or a handler that gives the instance up as Failed |
| ShardTable.SimplyIpOfAddr | pkg/controllers/cluster/kvrocks.go:337-339 | the address built for a pod is cut back to its IP if and only if the IP has no colon |
| ShardTable.ServerPort | pkg/client/kvrocks/kvrocks_client.go:18 | the address built for a pod is its IP, a colon and 6379 |
| ShardTable.Controller.DeleteStale | pkg/controllers/cluster/kvrocks.go:284-297 | deletes exactly the nodes without a pod, in order; cut short, a prefix of those calls was made |
| ShardTable.Controller.AddMissing | pkg/controllers/cluster/kvrocks.go:302-320 | appends a node with the pod's address and role for exactly the pods without one, in order; cut short, a prefix of those calls was made |
| ShardTable.Controller.UpdateCluster | pkg/controllers/cluster/kvrocks.go:265-335 | when every call succeeds and every read is answered, the calls made and the resulting table are those of the specification; a run cut short anywhere made a prefix of those calls |
| ShardTable.Controller.RemoveTurn | pkg/controllers/cluster/kvrocks.go:267-298 | one StatefulSet in the first loop; a read answered with another status than 200 creates its shard a second time |
| ShardTable.Controller.TrimPhase | pkg/controllers/cluster/kvrocks.go:323-333 | surplus shards go from the top; when their list is not answered they stay and no error is reported |
| Reconcile.ConvergesIff | pkg/controllers/cluster/kvrocks.go:265-339 | from any table: one shard per StatefulSet with exactly its addresses afterwards, if and only if no pod address contains a colon |
| Reconcile.SharedNodesKeepIds | pkg/controllers/cluster/kvrocks.go:284-297 | a node that has a pod keeps its record and id, and its shard its slots |
| Reconcile.NewPodIsListed | pkg/controllers/cluster/kvrocks.go:300-320 | a pod without a node gets one at its address and port, in its role when the shard was there before |
| Reconcile.SilentIffConverged | pkg/controllers/cluster/kvrocks.go:265-335 | a run makes no mutating call if and only if the table already matches the pods |
| Reconcile.Ipv6NeverConverges | pkg/controllers/cluster/kvrocks.go:265-339 | a pod at fd00::1: no run makes the table match and the next one is not silent |
| Reconcile.EnsureSetNodeID | pkg/controllers/cluster/kvrocks.go:220-263 | over all shards: error without a master; otherwise the records are those described by ListedPodSlots and ListedPodRecord and every pod is labelled with its role; wherever it stops, a prefix of the labels was written |
| Reconcile.ListedPodSlots | pkg/controllers/cluster/kvrocks.go:237-252 | when the shard prints slots that are not negative, every pod with a node in it ends with these slots, sorted; any other pod keeps its record |
| Reconcile.ListedPodRecord | pkg/controllers/cluster/kvrocks.go:237-252 | with distinct addresses a pod takes the id and role of the node at its address; a slave names the first master; address, ordinal, flag and migrations stay |
| Reconcile.PodIsLabelled | pkg/controllers/cluster/kvrocks.go:253-257 | a complete pass labels the pod, by its ordinal, with the role the controller gives it |
| Reconcile.SetNodesMakeStar | pkg/controllers/cluster/kvrocks.go:226-252 | the records of a shard form a star around the controller's master |
| Reconcile.FindMigration | pkg/controllers/cluster/rebalance.go:10-26 | the first master with a migration, and its position in the list of masters |
| Reconcile.PositionIsShardIff | pkg/controllers/cluster/rebalance.go:13-25 | the position of every listed master is its shard number if and only if no shard has two masters and none without one precedes one with one |
| Reconcile.MigrationSourceIsShard | pkg/controllers/cluster/kvrocks.go:220-335 | after updateCluster and ensureSetNodeID with one master per controller shard, the position used as migration source is that master's shard |
| Migration.SlotTable.MoveSlot | pkg/controllers/cluster/rebalance.go:35-52 | at most six attempts and 111110 ms of waiting; success means the slot moved, failure means six attempts |
| Migration.SlotTable.MoveBatch | pkg/controllers/cluster/rebalance.go:32-52 | the slots of one migration in order: exactly the first so many moved, all of them on success; each attempt from the source to its shard, at most six for each slot |
| Migration.SlotTable.ReBalance | pkg/controllers/cluster/rebalance.go:31-61 | whatever fails, the table is that of a prefix of the migrations and of the slots of the next one, the slots stay partitioned, and the record drops the batches done and as many slots; the sort of each save changes nothing; a nil return means every batch moved |
| Migration.StoppedOwner | pkg/controllers/cluster/rebalance.go:31-61 | wherever it stops, a slot no migration names keeps its owner and any other is with its old owner or a shard given for it |
| Migration.SavedIsSorted | pkg/controllers/cluster/kubernetes.go:164-171 | what a save leaves in memory is sorted, as a migration expects |
| Migration.MoveKeepsPartition | pkg/controllers/cluster/rebalance.go:39-39 | a move keeps every slot of 0..16383 with exactly one owner |
| Migration.OwnerIsTarget | pkg/controllers/cluster/rebalance.go:32-59 | after a completed migration every named slot is owned by exactly the shard the last migration naming it gives, every other slot by its old owner |
| Migration.DistinctTarget | pkg/controllers/cluster/rebalance.go:32-59 | a slot named once goes to the shard of that migration |
| Migration.RecordedIff | pkg/controllers/cluster/rebalance.go:53-54 | for a record without duplicates, the node left after any number of batches records the old slots minus the moved ones if and only if the moved ones were the first |
| Migration.WrongSlotsOnRecord | pkg/controllers/cluster/rebalance.go:53-54 | moving slot 2 of 0, 1, 2 leaves 1 and 2 on record |
| FailoverQueue.MessageQueue.AddMessage | pkg/controllers/events/event.go:71-76 | one message per known address; the key is set first and a full channel leaves the sender waiting |
| FailoverQueue.AddAccepts | pkg/controllers/events/event.go:71-76 | a message for an address that is queued, in flight or waiting changes nothing; any other is accepted, last in the channel, or waiting when that is full |
| FailoverQueue.MessageQueue.ConsumeMessage | pkg/controllers/events/handler.go:55-59 | the first message leaves the channel and is in flight |
| FailoverQueue.ChannelIsFifo | pkg/controllers/events/handler.go:55-59 | messages are taken in the order they were sent, and a waiting one is sent behind all others |
| FailoverQueue.MessageQueue.FinishHandler | pkg/controllers/events/handler.go:68-76 | on a retryable error before the deadline the message goes back, or waits for room in the channel with the lock held; otherwise its key is freed |
| FailoverQueue.FinishFrees | pkg/controllers/events/handler.go:70-74 | a handler without an error, told not to requeue, or at its deadline frees the address everywhere and puts nothing back |
| FailoverQueue.FinishPutsBack | pkg/controllers/events/handler.go:70-72 | an error with time left keeps the address; the message is last in the channel, or waits with the lock when that is full |
| FailoverQueue.MessageQueue.SendWaiting | pkg/controllers/events/handler.go:70-71 | a waiting message enters the channel as soon as there is room, whatever the time |
| FailoverQueue.QueueIsSafe | pkg/controllers/events/handler.go:55-76 | in every run the keys are the addresses queued, in flight or waiting, one message each, no message lost or duplicated, every put-back decided before its deadline, at most one goroutine waiting with the lock |
| LatePutBack.PutBackLateIff | pkg/controllers/events/handler.go:70-71 | a retry decided in time can be sent at or after its deadline if and only if the channel is full at the decision |
| FailoverQueue.NeverStuck | pkg/controllers/events/handler.go:55-76 | while a key is set, the consumer, a waiting goroutine or a handler can take a step |
| FailoverQueue.Drains | pkg/controllers/events/handler.go:55-76 | after the deadlines and without adds, each step takes one off 2 x channel + in flight + 3 x waiting whatever the handlers answer, some step is possible until it is zero, and it is zero exactly when the key set is empty |
| StandardReplication.Servers.SlaveOfMaster | pkg/controllers/standard/kvrocks.go:126-141 | the server replicates from the master and its pod is labelled slave |
| StandardReplication.Servers.Create | pkg/controllers/standard/kvrocks.go:46-64 | on success the first pod is the master, all others replicate from it, labels agree, and the object is marked running; on failure only listed servers and labels changed |
| StandardReplication.Servers.Maintain | pkg/controllers/standard/kvrocks.go:65-94 | two masters are an error, none a requeue; on success all replicate from the one master; in any case no server becomes or stops being a master and only listed pods are relabelled |
| StandardReplication.RewiredIsStar | pkg/controllers/standard/kvrocks.go:44-94 | the resulting servers and labels form a star |
| StandardReplication.ReplaySameStar | pkg/controllers/standard/kvrocks.go:46-64 | replaying a creation cut short anywhere ends in the servers and labels the first pass would have made |
| Claims.IndicesOfClaim | pkg/resources/statefulset.go:162-172 | shard and ordinal printed into a name are read back, whatever the instance is called |
| Claims.ShouldRemove | pkg/controllers/cluster/kubernetes.go:302-311 | the binary search decides exactly as membership would |
| Claims.CleanClaims | pkg/controllers/cluster/kubernetes.go:289-319 | nothing during a shrink; a completed pass deletes exactly the claims without a pod, any pass only such claims |
| Claims.DeletedIffDead | pkg/controllers/cluster/kubernetes.go:297-317 | a completed pass deletes a pod's claim if and only if its shard is gone or its ordinal is not listed |
| Routing.ParseIff | pkg/resources/kvrocks.go:56-65 | parsing an instance name gives system id and name back if and only if the system id has no dash |
| Routing.TooFewFields | pkg/resources/kvrocks.go:56-65 | a name with fewer than four fields has no parts |
| Routing.ListenIff | pkg/controllers/events/handler.go:29-48 | a notice is understood if and only if the monitored name has no dash of its own |
| Routing.PassedOverIff | pkg/controllers/events/handler.go:29-48 | a notice is passed over if and only if the monitored name has no dash, as that of a standard instance; otherwise it goes to the instance named before the first dash and the shard numbered after it |
| Routing.RouteIff | pkg/controllers/events/handler.go:29-48 | from instance name through sentinel and notice back to instance and shard, if and only if neither system id nor name contains a dash |
| Routing.DashedNameIsLost | pkg/controllers/events/handler.go:29-48 | an instance called my-app is not found from its notices |

## Assumptions about the world outside

- A StatefulSet with `replicas` replicas and a list of reserved ordinals runs the first
  `replicas` naturals not reserved (OpenKruise).
- An update of the KVRocks object is refused when its resource version is not the current
  one, and makes no new version when nothing changes. Reads may be stale. Users edit
  the spec and the migrations in the status, nothing else of the status.
- kvrocks-controller appends new shards and gives nodes of a shard distinct ids. A migrate
  call that reports success has moved the slot; one that reports failure may have.
- `ensureSetNodeID` gets the rows of the table: a read answered with another status than
  200 would be a nil dereference there.
- A server answers pings alike during one pass.
- At least `Spec.Master` StatefulSets are listed when the later stages run: the pass is
  requeued otherwise.
- Instance names, addresses and ports contain no space.

## Left out

- GetReserveIndex: 32-bit replica counts are unbounded integers here, and so are all other Go integers.
- UpdateCluster: when a call fails it says which calls were made but nothing about the table, since the failed call may or may not have taken effect; after a read that went unanswered it says no more than RemoveTurn and TrimPhase do.
- AddMessage: checking and setting a key is one step, although SendFailoverMsg does it without the lock.
- RolesStep: the roles that initCluster and the controller assign, after ensureReplication, are arbitrary in the protocol of the shared object; the stages after it hold for all of them.
- Password and configuration updates, and labels outside ensureSetNodeID: straight-line calls.
- Image changes, which replace a StatefulSet together with its reserve list.
- Sentinel monitors, cron subscription and pub/sub beyond the names in their messages.
- Creating and removing etcd and kvrocks-controller.
- Builders of ConfigMaps, Services, Deployments, containers and affinity; label merging.
- parseNodeInfo and SetClusterNodeId.
- Claim clean-up in standard mode: membership in a map instead of a search; only the ordinal in the name is modelled.
- Data races in the sense of the Go memory model.
