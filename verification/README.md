# CKE in Dafny

CKE keeps a Kubernetes cluster as its configuration says. One leader repeats rounds: it reads the
configuration, the state of the machines and two queues kept in etcd, decides on a list of operations, and
runs them. Administrators add to the queues and take from them at any time. A second component derives the
configuration itself from the machines that sabakan knows. This project models the parts of CKE where a
wrong step would break a cluster, and proves that the steps are right: over every run, for every order of
interleaved storage calls, for every behaviour of the machines and of the API server.

The model follows the source in form. Decisions that the source computes in loops are methods with
invariants, each proved equal to a function. The rules then say of these functions, without naming them, when
each operation is decided: both directions, from the fields of entries, the configuration and the time. The
theorems over runs are about the same functions. The generator is a class
whose methods move machines between its fields. The protocols are state machines whose runs are sequences
of events; an event that does not apply leaves the state as it is, so that every sequence is a run.

| file | part |
|---|---|
| `Config.dfy`, `Entries.dfy`, `Seqs.dfy` | configuration, queue entries, filtered sequences |
| `RebootDecide.dfy`, `RepairDecide.dfy` | which entries of the two queues advance |
| `RebootRules.dfy`, `RepairRules.dfy`, `DecisionRules.dfy` | when each operation is decided, told from the stored entries, the observations and the time |
| `Endpoints.dfy`, `Strategy.dfy` | endpoint slices, and the phases of one decision |
| `Controller.dfy`, `Plans.dfy`, `BackOff.dfy` | the leader and the administrators as one state machine, what a round sets about, and what failures lead to |
| `RebootSafety.dfy`, `CrossQueue.dfy`, `RepairSteps.dfy`, `RepairLimits.dfy`, `OffRounds.dfy`, `Withdrawals.dfy` | inductive invariants over whole runs |
| `Runs.dfy`, `Rounds.dfy` | runs whose events can really happen, and how to build them |
| `Progress.dfy`, `Rebootable.dfy`, `RepairProgress.dfy`, `RepairRounds.dfy` | runs in which requests go through, and which can |
| `Limits.dfy`, `OneByOne.dfy`, `Separation.dfy`, `LateResets.dfy`, `LateResetRuns.dfy` | where the rules of repairs and reboots stop, with exact conditions and general runs |
| `Counterexamples.dfy` | the same on a small configuration that validation accepts |
| `EntryKey.dfy`, `Storage.dfy` | keys of the queues, and concurrent clients of etcd |
| `NodeAttrs.dfy` | labels, annotations and taints of node objects |
| `Eviction.dfy` | clearing a node of its Pods |
| `Machines.dfy`, `Allocation.dfy`, `Racks.dfy`, `Selection.dfy`, `Current.dfy`, `Generator.dfy` | the generator |

`Controller.dfy` takes each register, update and delete of a queue entry as one step. `Storage.dfy` is why
it may: there the same calls are loops of reads and compare-and-swap transactions of many clients, and every
run of those is shown to act on the queue like the atomic actions.

What the machines, the API server, SSH, the clocks and the health checks answer is a parameter of every
decision and of every event, so the theorems hold for all answers. The runs that show where a rule stops are
held to more: `Runs.Realistic` asks that the clock does not go back, that a back-off lasts at least 300 seconds,
that only reachable machines are reported running and only running API servers healthy, that the queues are
not read without one, that Kubernetes knows nodes by their names alone, and that entries are written back as
they were stored.

Where the code and its comments or documents differ, the model does what the code does:

- The comment beside the repair decision says that a machine is not repaired twice at once. The set meant to
  ensure this is never filled (`server/strategy.go:795`). `Limits.OneRepairPerMachine` has the exact condition
  for decisions and `OneByOne.OneRepairPerMachineExactly` the one for runs.
- API servers are said to be repaired one by one. A decision keeps to it (`RepairDecide.SlotLimits`), but an
  entry that backs off from a failed drain is not counted meanwhile (`server/strategy.go:741-743`).
  `RepairLimits.RepairsAreLimited` proves the limits for all runs in which no decision meets a back-off, and
  `OneByOne.ApiServersOneByOneExactly` shows that they hold over all runs exactly if no repair step needs a
  drain. `Limits.AnotherApiServerChosen` says when a single decision turns to another API server.
- The repair decision looks up reboots by node name although reboot entries hold addresses
  (`server/strategy.go:780`, `server/strategy.go:949`). `Separation.SeparateExactlyWhenNamedByAddress` shows for
  every cluster that repairs and reboots of API servers stay apart exactly if the nodes go by their addresses.
- Nodes are registered in Kubernetes under their host names if they have any (`op/k8s/kubelet_boot.go:366`), and
  the reboot code asks for them by address (`op/reboot.go:142`, `op/reboot_decide.go:420`).
  `Rebootable.RebootableExactly` says which nodes can ever be rebooted.
- The command that resets the back-off of reboots writes entries back as it has read them
  (`pkg/ckecli/cmd/reboot_queue_reset_backoff.go:18-33`). `LateResetRuns.LateResetExactly` says when no run after
  that can become unsafe, counting what the leader has read or still has to do, and
  `LateResetRuns.LateResetBreaksSafety` and `LateResetBreaksLater` are runs that do.
- A request can be withdrawn, but the leader writes entries as it has read them, not as they are stored by then
  (`op/reboot.go:135-142`, `op/repair_execute.go:62-70`). `Withdrawals.CancelledStaysOut` and `DeletedStaysOut` prove
  that a withdrawal holds for good if the leader has not read the entry before it or set about it;
  `Withdrawals.RevivedExactly` and `RestoredExactly` say which of its actions undo one.
- A reboot entry is meant to back off for five to twenty minutes, plus a random time. The seconds are computed by a shift that
  overflows (`op/reboot.go:695-700`); `BackOff.BackOffLastsExactly` lists the counts for which they are as meant.
- A candidate for reboot is held back in the endpoint slice of the API servers only while all API servers
  are reachable and healthy (`server/strategy.go:131-177`). `Strategy.DisturbedNodeInMasterSlice` is an
  equivalence, and `Counterexamples.DrainedWhileReady` a decision on its false side for every cluster.
- The document says that all healthy machines become nodes. With a control plane template that has no role
  beside worker templates that have one, generation can fail instead; `Generators.SafeTemplates` says exactly
  for which templates it never does.

## Model

| member | source | states |
|---|---|---|
| `RebootSafety.RebootsAreSafe` | op/reboot_decide.go:273-329 | In every run with one validated configuration, whatever administrators do between any two storage calls: at most one API server is Draining or Rebooting, never beside any other node, at most the configured number of nodes are, and no node is in progress through two entries. |
| `RebootSafety.StepKeepsInv` | op/reboot.go:117-201 | Every step of the leader and of administrators keeps the invariant behind it: entries in progress, or about to be by what the leader still has to do, are exclusive and are the earliest entries of their nodes, so deduplication never hides one. |
| `RebootSafety.CandidateFits` | op/reboot_decide.go:309-328 | The next candidate together with all entries in progress in the snapshot still obeys the rules. |
| `CrossQueue.RepairAndRebootAreSeparate` | server/strategy.go:698-871 | In every run with one configuration, control planes named by their addresses and the reboot queue left on, no API server is under repair while a different API server is Draining or Rebooting. |
| `CrossQueue.StepKeepsInv` | server/strategy.go:90-106 | Every step keeps machines under repair, or about to be, compatible with nodes under reboot, or about to be. |
| `CrossQueue.ApiRepairBlocksReboot` | server/strategy.go:90-106 | An API server under repair in the store makes the round a repair round, so the reboot phase is not reached. |
| `RepairSteps.StepsRunInOrder` | op/repair_execute.go:62-70 | In every run, under any configuration changes, the steps stored as executing for a repair entry are 0, 1, 2 and so on, without gap or repetition. |
| `OffRounds.OffRoundBeginsNothing` | server/strategy.go:832-846 | From the moment the leader reads that the repair queue is off until its next round, whatever happens, switching the queue on included: no step is executed, and no machine comes under repair. |
| `OffRounds.OffRoundRebootsNothing` | server/strategy.go:884-886 | Likewise for the reboot queue: no further node is drained or rebooted. |
| `Withdrawals.CancelledStaysOut` | pkg/ckecli/cmd/reboot_queue_cancel.go:16-31 | In every run: a reboot cancelled while the leader has neither read it as something else nor set about it stays cancelled until it leaves the queue, whatever follows short of resetting its back-off. |
| `Withdrawals.RevivedExactly` | op/reboot.go:117-201 | The next action of the leader can undo a cancellation exactly when it stores that entry as draining, rebooting or backing off. |
| `Withdrawals.DeletedStaysOut` | pkg/ckecli/cmd/repair_queue_delete.go:14-35 | Likewise, a repair whose removal is asked for stays marked until it leaves the queue. |
| `Withdrawals.RestoredExactly` | op/repair_execute.go:62-70 | The next action of the leader can undo the mark exactly when it stores that entry without it. |
| `BackOff.BackOffLastsExactly` | op/reboot.go:695-700 | In 64-bit arithmetic, the seconds of the n-th back-off are within 300 and 1200 exactly for n up to 55 and for 57, 58 and 60. |
| `BackOff.EarlyBackOffs` | op/reboot.go:695-700 | Up to the 55th they are 300, 600 and then always 1200. |
| `BackOff.LateBackOffs` | op/reboot.go:695-700 | From the 56th on they are 1200 for those three counts, and none or negative for all others. |
| `BackOff.BacksOff` | op/reboot.go:681-707 | Backing off puts the entry back in the queue with its count and expiry, unless it was cancelled, and then leaves it. |
| `BackOff.FailedCordon` | op/reboot.go:133-176 | A node that could not be cordoned is backed off next, its Pods are not evicted, and the other nodes go on. |
| `BackOff.FailedEviction` | op/reboot.go:178-198 | So is one whose Pods could not be evicted. |
| `BackOff.FailedRepairDrain` | op/repair_drain_start.go:103-136 | A failed eviction for a repair leaves the entry waiting for the same step, backing off. |
| `BackOff.FailedCommand` | op/repair_execute.go:62-110 | A repair whose command fails has failed. |
| `RepairSteps.FinishedStays` | op/repair_finish.go:66-98 | In every run, an entry that succeeded or failed keeps that status until its removal is asked for. |
| `RepairLimits.RepairsAreLimited` | server/strategy.go:735-806 | In every run with one validated configuration and the reboot queue left on, in which no decision is made while a repair backs off: at most the configured number of entries are under repair, at most one of them for an API server. |
| `RepairLimits.StepKeepsInv` | op/repair_drain_start.go:73-149 | Every step keeps the invariant behind it: the entries a repair is engaged in stay within the limits after each remaining task of the leader, and an API server among them is the only one that may be under reboot. |
| `Progress.RebootGoesThrough` | op/reboot.go:117-201 | For every cluster with an API server and reboot commands and every node of it whose address is a name that Kubernetes knows, a request alone in the queue can be drained, rebooted and removed, in this order: a realistic run of whole rounds for each stage. |
| `Rebootable.OnlyKnownNodesReboot` | op/reboot_decide.go:331-371 | In every realistic run, whatever administrators do, a node is Rebooting only if the cluster has an API server and both commands, and the request names an address of the cluster under which Kubernetes knows a node. |
| `Rebootable.RebootableExactly` | op/reboot.go:136-160 | A node can be rebooted in some realistic run exactly under that condition. |
| `Runs.Built` | server/get_status.go:17-109 | What is built event by event is a run of the controller with one configuration, and each of its events can happen where it stands. |
| `RepairProgress.RepairRunsAllSteps` | server/strategy.go:808-864 | For every configuration with an API server and every request it has an operation for, a realistic run in which all steps of the operation are executed in order, each after its drain if it needs one and after the watch of the one before, and the entry then fails. |
| `RepairProgress.RepairEndsWhenWell` | server/strategy.go:728-734 | And a realistic run in which the machine is well after the first step, the entry succeeds and no other step is executed. |
| `RebootDecide.Dedup` | reboot.go:49-59 | The loop over a map of seen nodes yields the first entry of each node. |
| `RebootDecide.DedupKeepsEarliest` | reboot.go:49-59 | On a queue read in the order of registration, an entry survives exactly when it is the earliest of its node. |
| `RebootDecide.ClassifyEntries` | op/reboot_decide.go:280-307 | The loop sorts entries into API servers and workers, in progress and drainable, leaving out strangers and entries that back off. |
| `RebootDecide.ChooseRebootCandidates` | op/reboot_decide.go:273-329 | The choice equals the declarative one that the rules are proved about; on a queue in the order of registration, no drainable entry of the chosen one's kind, API server or worker, comes before it. |
| `RebootDecide.CandidateIsEarliest` | op/reboot_decide.go:309-328 | The candidate has the smallest index among the drainable entries of its kind. |
| `RebootRules.NoCandidateExactly` | op/reboot_decide.go:309-328 | There is no candidate exactly when an API server is in progress, or no worker is drainable and either a worker is in progress or no API server is drainable, or workers are drainable and those in progress have reached the limit, which is one if not configured. |
| `RebootRules.CandidateKind` | op/reboot_decide.go:309-328 | A candidate is the only one, and a worker exactly when a worker is drainable. |
| `RebootRules.SnapshotExactly` | op/reboot_decide.go:331-405 | Of the stored entries, those that are the earliest of their node count. A drain is complete exactly when neither Pods nor volumes are left, overdue exactly when it is not and took longer than configured, or than 600 seconds; exactly what left the cluster or came up again is dequeued; exactly the cancelled are cancelled. |
| `RebootRules.SnapshotCandidate` | op/reboot_decide.go:273-329 | Over the stored queue, the candidate is drainable and the earliest of its kind among the entries that count. |
| `RebootRules.ProcessingExactly` | server/strategy.go:943-960 | A node counts as being rebooted exactly when the queue is on and an entry for it is in progress. |
| `RebootRules.MarkedExactly` | server/strategy.go:962-972 | The nodes held back are those of the candidates while the queue is on. |
| `RebootDecide.CandidateRules` | op/reboot_decide.go:309-328 | At most one candidate, queued and out of back-off; none beside an API server in progress; an API server only when no worker is in progress or drainable; a worker only below the limit. |
| `RebootDecide.CheckDrainCompletion` | op/reboot_decide.go:331-371 | Fails exactly without a connection or when the volumes of a cleared node cannot be told; otherwise Draining entries are completed or timed out, never both, by Pods, volumes and the timeout. |
| `RebootDecide.FindRebootProcessing` | server/strategy.go:943-960 | The search answers for the node's first entry, and with no for a disabled queue. |
| `RebootDecide.FirstIsOnly` | server/strategy.go:943-960 | On a deduplicated queue, asking for a node's first entry overlooks no entry in progress. |
| `RepairDecide.RunStepLoop` | server/strategy.go:808-864 | The loop with its jump back ends and computes what an entry holding a slot does; while the queue is off, that begins nothing. |
| `RepairDecide.SortEntries` | server/strategy.go:717-757 | One pass yields the removals and completions, and the four buckets in order. |
| `RepairDecide.RunSlots` | server/strategy.go:768-864 | The counting loop hands out the slots that the declarative choice does. |
| `RepairDecide.RepairOps` | server/strategy.go:698-871 | The repair decision equals the function that the theorems are about, with its phase flag; while the queue is off, it starts no drain and runs no command. |
| `RepairDecide.OffBeginsNothing` | server/strategy.go:832-846 | While the queue is off, every operation removes an entry, finishes one or gives up a drain. |
| `RepairRules.SettledExactly` | server/strategy.go:719-732 | Exactly the entries marked deleted are removed, and exactly the unfinished ones found well succeed. |
| `RepairRules.TimedOutExactly` | server/strategy.go:842-854 | An entry with a slot gives up its drain exactly when the queue is off, or the drain is not complete and took longer than configured, or than 600 seconds. |
| `RepairRules.ExecutedExactly` | server/strategy.go:832-863 | It runs the command of a step exactly when the queue is on and it waits for a step without a drain, or its drain is complete, or the watch of the step before is over, by time or for lack of one, and the next step has no drain. |
| `RepairRules.DrainStartedExactly` | server/strategy.go:832-863 | It starts the drain of a step exactly when the queue is on, the machine is in the cluster, the step needs a drain, and it waits for the step or the watch of the one before is over. |
| `RepairRules.FailedExactly` | server/strategy.go:808-828 | It fails exactly when it has no step left, or none after the one whose watch is over. |
| `RepairRules.RepairRoundExactly` | server/strategy.go:829-870 | A round is a repair round exactly when there is an operation, or an entry with a slot has a step, even if it only waits. |
| `RepairRules.SlotsGoByUrgency` | server/strategy.go:735-806 | Slots go to API servers in progress, others in progress, queued API servers, other queued entries, in this order and then by registration; an entry is overtaken only if another API server is being rebooted or has a slot. |
| `RepairRules.SlotOrHeldBack` | server/strategy.go:768-806 | While slots are left, every entry to be worked on has one, unless it is for an API server and another is being rebooted or has a slot. |
| `RepairRules.OnlyUrgentGetSlots` | server/strategy.go:717-800 | Deleted, finished, well and backing-off entries get no slot, nor does an API server while another is being rebooted. |
| `RepairRules.RepairSnapshotExactly` | op/status.go:588-635 | A machine counts as well exactly through an unfinished entry with an operation whose check says so, and as drained exactly when it is being drained and is not in the cluster or has no Pod left to evict. |
| `RepairRules.OperationExactly` | repair.go:82-102 | The first procedure for the machine's type decides, and in it the first operation of the name. |
| `RepairDecide.SlotLimits` | server/strategy.go:758-806 | A decision hands out at most the configured number of slots, at most one of them to an API server. |
| `RepairDecide.OneOpPerEntry` | server/strategy.go:717-871 | A decision has at most one operation per entry, and at most as many from slots as there are slots. |
| `RepairDecide.FinishedOnlyDequeued` | server/strategy.go:724-734 | The only operation for a finished entry is its removal. |
| `RepairDecide.PassedOver` | server/strategy.go:768-806 | While slots are left, an entry is passed over only by the rules for API servers. |
| `RepairDecide.OngoingBeforePending` | server/strategy.go:758-806 | A queued entry gets a slot before one in progress only by the rules for API servers. |
| `RepairDecide.BegunForcesPhase` | server/strategy.go:808-871 | A repair that was begun, does not back off and is not held up by a reboot makes the round a repair round. |
| `Limits.OneRepairPerMachine` | server/strategy.go:768-864 | For every configuration with an operation to ask for: no decision starts a drain or a command for one machine twice, exactly when at most one repair is allowed at a time. |
| `Limits.ApiSlotExactly` | server/strategy.go:758-806 | Which API server entry gets a slot, for every decision: the earliest in progress that is neither backing off nor held up by a reboot, even if a later one is being worked on; failing that the earliest queued one, if other machines in progress leave a slot. |
| `Limits.AnotherApiServerChosen` | server/strategy.go:735-806 | For every API server entry under repair, held up or not: a decision gives the slot to a different API server exactly when that choice is for another address. |
| `OneByOne.LimitedWithoutDrains` | server/strategy.go:808-841 | If no operation has a step that needs a drain, no entry ever backs off, and the limits of repairs hold over every run with the reboot queue on. |
| `OneByOne.TwoUnderRepair` | server/strategy.go:735-757 | For every configuration with a drain step and every two requests for API servers, the same or different ones, a realistic run that ends with both under repair, however small the limit. |
| `OneByOne.LimitedExactlyWithoutDrains` | server/strategy.go:735-806 | For every configuration with an API server: the limits of repairs hold over all runs with the reboot queue on exactly when no operation has a drain step. |
| `OneByOne.ApiServersOneByOneExactly` | server/strategy.go:735-806 | For every configuration with two API servers: never are two different ones under repair at once, over all such runs, exactly when no operation has a drain step. |
| `OneByOne.OneRepairPerMachineExactly` | server/strategy.go:768-800 | No machine is under repair for two entries, over all such runs, exactly when there is one repair slot and no operation has a drain step. |
| `Counterexamples.TwoApiServersUnderRepair` | server/strategy.go:735-757 | On a configuration that validation accepts, with one repair slot, a realistic run that ends with two different API servers under repair. |
| `Separation.RepairBesideReboot` | server/strategy.go:776-793 | For every cluster that can reboot and repair: while one API server is Draining for a reboot, another is taken into repair if the reboot queue was switched off, or if the reboot is looked up as one of at most that other server; a realistic run for each. |
| `Separation.SeparateExactlyWhenNamedByAddress` | server/strategy.go:943-960 | For every such cluster with two API servers: repairs and reboots of API servers are separate over all runs with the reboot queue on exactly when the control plane nodes go by their addresses. |
| `Separation.SwitchingOffMixes` | server/strategy.go:776-793 | For every such cluster, however its nodes are named, a run in which switching the reboot queue off lets a repair in beside a reboot. |
| `Counterexamples.MixedOnAcceptedCluster` | server/strategy.go:776-793 | Both failures on configurations that validation accepts. |
| `Counterexamples.PairIsAccepted` | cluster.go:464-492 | The configurations of these runs have dotted IPv4 addresses, users and positive limits, and meet the conditions of the exact results. |
| `LateResets.SafeWithLateResets` | op/reboot_decide.go:273-329 | The safety of reboots holds over every run in which entries are also written back late, as long as each write brings back no reboot, or one that fits beside those in progress and those the leader is about to begin; and, if the leader has read the queue, beside those of every decision it can come to. |
| `LateResetRuns.LateResetExactly` | pkg/ckecli/cmd/reboot_queue_reset_backoff.go:18-33 | In every run and for every entry as it was read some time before: every continuation after writing it back is safe exactly under that condition. |
| `LateResetRuns.LateResetBreaksSafety` | pkg/ckecli/cmd/reboot_queue_reset_backoff.go:18-33 | For every cluster that can reboot and every two nodes that must not be rebooted together, a realistic run in which such a late write leaves both in progress. |
| `LateResetRuns.LateResetBreaksLater` | pkg/ckecli/cmd/reboot_queue_reset_backoff.go:18-33 | And one in which nothing is in progress and the state is still safe right after the write, but not after the drain that the leader has already decided on. |
| `Counterexamples.LateResetOnAcceptedCluster` | pkg/ckecli/cmd/reboot_queue_reset_backoff.go:18-33 | The same on a configuration that validation accepts. |
| `Endpoints.DecideSliceOp` | server/strategy.go:552-606 | The comparison loops decide whether the observed slice matches the wanted one. |
| `Endpoints.QuietSliceIsExact` | server/strategy.go:422-501 | When nothing is rewritten, the observed slice lists an address as ready, or as not ready, exactly as wanted, and has the wanted port and service. |
| `Endpoints.OneRewriteSettles` | server/strategy.go:552-606 | Once the decided slice is stored, nothing is rewritten any more. |
| `DecisionRules.ReadyExactly` | server/strategy.go:364-419 | An API server is listed as ready exactly when it is healthy, not being rebooted and not marked; for etcd, health does not matter. |
| `Strategy.SplitByReadiness` | server/strategy.go:364-419 | Nodes under reboot or marked are not ready, the others are. |
| `Strategy.DecideMasterEndpoints` | server/strategy.go:364-388 | The loop yields the operations for the endpoints of the API servers. |
| `Strategy.DecideUncordon` | server/strategy.go:925-941 | The loop uncordons the cordoned nodes that no queue is working on. |
| `Strategy.UncordonedNodesAreFree` | server/strategy.go:925-983 | A node is uncordoned only if it was cordoned and is under neither reboot nor repair. |
| `DecisionRules.UncordonedExactly` | server/strategy.go:925-983 | A node is uncordoned exactly when it is cordoned, not being rebooted, and not under repair. |
| `Strategy.RebootOpsAreGuarded` | server/strategy.go:873-923 | Removals come alone; a drain is started exactly for the candidates, with the queue on, both commands set, no removal pending, and no more nodes out of reach, those under reboot apart, than the constraint allows; a reboot only for drained entries. |
| `DecisionRules.RebootPhaseExactly` | server/strategy.go:873-923 | From the stored queue: a node is rebooted exactly when its drain is complete, a drain is backed off exactly when it is overdue, both only with nothing to remove and the queue on; an entry is removed exactly when it is cancelled, up again or not of the cluster. |
| `Strategy.QueueOpsComeFromOnePhase` | server/strategy.go:23-109 | A decision that touches the queues is a repair decision with etcd fit for repairs or a reboot decision with etcd in sync, never both, the latter only without anything to repair, and either only when no earlier phase had anything to do. |
| `DecisionRules.RepairIssuedExactly` | server/strategy.go:90-97 | A repair operation is issued exactly when the repair decision asks for it, the queues are next, and etcd is fit for repairs. |
| `DecisionRules.RebootIssuedExactly` | server/strategy.go:99-106 | A reboot operation is issued exactly when the reboot decision asks for it, the queues are next, no repair holds the round, and etcd is in sync. |
| `Plans.RebootWorkExactly` | server/strategy.go:873-923 | From the entries the leader has read, the time and the observations to its tasks: a node is rebooted exactly when its drain is complete, and a drain backed off exactly when it is overdue, in a round that reaches the queue with nothing to remove. |
| `Plans.DrainWorkExactly` | server/strategy.go:904-917 | A drain is set about exactly for the candidate, in such a round and with few enough nodes out of reach; marking and eviction go together. |
| `Plans.RemovalWorkExactly` | server/strategy.go:873-882 | An index is removed from the reboot queue exactly when its entry is cancelled, up again or not of the cluster, in a round that reaches the queue. |
| `Plans.RepairWorkExactly` | server/strategy.go:90-97 | A repair task other than a removal is set about exactly when the repair decision asks for it, the queues are next and etcd is fit for repairs. |
| `Plans.RepairRemovalExactly` | server/strategy.go:719-723 | An index is removed from the repair queue exactly when its entry is marked for that, under the same conditions. |
| `DecisionRules.QueuesAreNextExactly` | server/strategy.go:23-89 | The queues are next exactly when every earlier phase has nothing to do, where the upkeep of etcd is passed over while a control plane is unreachable. |
| `DecisionRules.ServersQuietExactly` | server/strategy.go:131-190 | The API servers need nothing exactly when none that answers is stopped or outdated in ill health, and either all are up, none is outdated and the endpoints hold back the next candidate, or not all are up and the endpoints are right if any is healthy. |
| `DecisionRules.UpdatedOneByOne` | server/strategy.go:164-171 | With all up, one outdated API server is restarted and held back in the endpoints. |
| `Strategy.DisturbedNodeIsOutOfEtcdSlice` | server/strategy.go:390-419 | A decision that drains or reboots a control plane node implies that the observed etcd slice already lists it as not ready. |
| `Strategy.DisturbedNodeInMasterSlice` | server/strategy.go:131-177 | For the slice of the API servers the same holds exactly if the operation is not a drain start, or all API servers are reachable and healthy, or the node's own API server is unhealthy; without any healthy API server the decision is the same whatever the slice lists. |
| `Counterexamples.DrainedWhileReady` | server/strategy.go:131-177 | For every cluster that can reboot, with two API servers, a decision to drain one of them while the other is unreachable, and so neither running nor healthy, in which the slice of the API servers lists it as ready. |
| `EntryKey.KeyOrder` | storage.go:786-788 | Sixteen-digit keys are injective and strictly monotone on all non-negative 64-bit indices. |
| `EntryKey.SortedReadInRegistrationOrder` | storage.go:894-919 | Keys come sorted exactly when indices come in the order of registration. |
| `EntryKey.SortCompactSpec` | server/strategy.go:422-501 | Sorting and compacting addresses keeps exactly the same addresses, strictly ascending. |
| `Storage.StepRefines` | storage.go:792-870 | Every read, transaction and delete of any client acts on the queue like one atomic action, or not at all; a call that ends has just had its action, or was an update of an entry that is gone. |
| `Storage.RegistrationEnds` | storage.go:792-832 | A registration goes on with the same data until a transaction has put it in the queue under the next index. |
| `Storage.UpdateEnds` | storage.go:837-870 | An update goes on with the same record until it has replaced the entry, or has found it gone and changed nothing. |
| `Storage.RegistrationsAreConserved` | storage.go:792-832 | In every run, as many registrations have ended as indices were handed out, and every one that began has ended or still goes on. |
| `Storage.RunsAreLinearizable` | storage.go:792-935 | Under any interleaving the stored queue is what the same actions yield one after another. |
| `Storage.RegistrationsAreConsecutive` | storage.go:792-832 | Successful registrations get 0, 1, 2 and so on, and every stored index is below the write index. |
| `Storage.OnlyFreshIndicesAppear` | storage.go:834-870 | An entry appears only by a registration under a fresh index: an update never brings back a deleted entry. |
| `Storage.UndisturbedRegisters` | storage.go:792-832 | From every reachable state of the store, a client left alone for a read and a transaction registers its entry under the next index. |
| `Storage.UndisturbedUpdates` | storage.go:837-870 | Likewise for an update, which ends without effect if the entry is gone. |
| `NodeAttrs.LabelsExact` | server/node_filter.go:768-862 | Labels count as current exactly when merging changes nothing and the configured labels can be met. |
| `NodeAttrs.AnnotationsExact` | server/node_filter.go:768-862 | Annotations count as current exactly when merging changes nothing. |
| `NodeAttrs.MergeLabelsStable` | server/node_filter.go:718-729 | Merging labels twice is merging once, and labels that CKE does not own survive unchanged. |
| `NodeAttrs.MergeAnnotationsStable` | server/node_filter.go:731-739 | The same for annotations. |
| `NodeAttrs.Reconcile` | server/node_filter.go:717-760 | The loops over labels, annotations and taints build the merged object. |
| `NodeAttrs.MergedTaintsSettle` | server/node_filter.go:701-862 | Merged taints count as current exactly when the configured taints do not contradict each other. |
| `NodeAttrs.OneUpdateSettles` | server/node_filter.go:701-862 | One update makes any object current exactly for configurations that do not contradict themselves. |
| `NodeAttrs.RebootMarkSurvives` | server/node_filter.go:731-739 | The annotation of a node cordoned by CKE survives an update unchanged. |
| `NodeAttrs.RebootMarkIsCurrent` | server/node_filter.go:768-862 | And it does not make an object outdated. |
| `NodeAttrs.OwnLeftoversGo` | server/node_filter.go:701-766 | Of the other names in CKE's domain and of the roles it sets, the updated object has exactly those labels and annotations that are configured, besides the label of a control plane, and only configured taints, besides the one of a control plane. |
| `NodeAttrs.ForeignNamesSurvive` | server/node_filter.go:718-739 | Labels and annotations of others survive, unless they are configured. |
| `NodeAttrs.ForeignTaintsSurvive` | server/node_filter.go:701-766 | Taints that CKE does not own survive an update, in order. |
| `NodeAttrs.OutdatedAttrsNodes` | server/node_filter.go:701-766 | The loop updates exactly the outdated objects, each to its merge, and no other. |
| `Eviction.EvictPod` | op/reboot_decide.go:146-217 | Against any API server: at most max(1, attempts) evictions, a deletion only after a refused eviction outside protected namespaces, success exactly when the last reply settles the Pod; it gives up on a budget only for a protected Pod, with all attempts used up or the caller gone. |
| `Eviction.DeleteJobPod` | op/reboot_decide.go:217-242 | A protected Job Pod fails the pass untouched; another is deleted, but not in a dry run. |
| `Eviction.EvictOrDeleteNodePod` | op/reboot_decide.go:127-243 | For every list of Pods: success means that every Pod that must leave was removed or found gone and no protected Job runs; evictions stay bounded per Pod; deletions obey protection; a dry run deletes nothing; failure has a cause; all replies are those of the API server. |
| `Eviction.CheckPodDeletion` | op/reboot_decide.go:262-269 | The check passes exactly when no Pod that must leave is left. |
| `Machines.FilterHealthyMachinesByRole` | sabakan/score.go:54-67 | The loop keeps exactly the healthy machines of the role, in order. |
| `Machines.ScoreByDays` | sabakan/score.go:14-35 | The days score lies within three points and is at least that of any smaller number of days. |
| `Machines.DaysScoreRises` | sabakan/score.go:14-35 | It is zero at zero and rises by one at exactly 251, 501, 1001, -250, -500 and -1000 days. |
| `Machines.DaysScoreOrders` | sabakan/score.go:14-35 | It orders numbers of days exactly by the thresholds they pass. |
| `Machines.DaysInSeconds` | sabakan/score.go:40 | Which numbers of remaining seconds pass a threshold of days, rounding toward zero. |
| `Machines.RemoveMachine` | sabakan/generator.go:220-227 | Removes the first occurrence; the machine is required to be there, and every caller proves it, so there is no panic. |
| `Machines.ValidateTemplate` | sabakan/template.go:10-38 | A template passes exactly when it has one control plane and at least one worker, and several workers have different, non-empty roles. |
| `Selection.MachineMap` | sabakan/generator.go:128-137 | The machines by address: none without an address, the last of several. |
| `Selection.IsTaintedInCluster` | sabakan/generator.go:608-630 | True exactly for a machine with a taint that is neither ignored nor tolerated. |
| `Selection.FilterSpareNodes` | sabakan/generator.go:642-656 | Lists exactly the machines whose node carries the spare taint. |
| `Selection.SelectControlPlane` | sabakan/generator.go:242-260 | Picks an eligible machine, a spare one if there is any, none only if none is eligible: no other such machine is in a rack with fewer control planes, nor in one with as few and past a threshold of remaining days that the chosen one does not reach. |
| `Selection.SelectedIsBest` | sabakan/generator.go:252-259 | Exactly such a machine has the highest score. |
| `Selection.ChooseWorkerTmpl` | sabakan/generator.go:176-198 | Picks a template with machines available whose fill rate no other is below. |
| `Selection.SelectWorker` | sabakan/generator.go:231-238 | Picks the first healthy machine for that template, and none exactly if there is none. |
| `Selection.CountAvailable` | sabakan/generator.go:297-309 | The loop counts all machines acceptable as workers, less the control planes if these are taken from them. |
| `Selection.GeneratedAddressesDiffer` | sabakan/generator.go:329-335 | No two generated nodes share an address. |
| `Selection.HasValidTaint` | sabakan/generator.go:658-687 | The first state taint is the one the machine's state calls for. |
| `Selection.GetWorkerTmpl` | sabakan/generator.go:200-211 | Finds the template of a role, and has none exactly when there are several and none has the role. |
| `Current.NodesToMachines` | sabakan/generator.go:579-590 | Splits nodes into their machines and the nodes without one. |
| `Current.GetUnusedMachines` | sabakan/generator.go:592-606 | Lists, without repetition, exactly the healthy machines that no node uses. |
| `Current.CurrentPools` | sabakan/generator.go:447-471 | Machines of current nodes and unused machines are disjoint, known and cover all healthy machines. |
| `Allocation.LaggingHasCandidate` | sabakan/generator.go:311-319 | While workers are missing, the role with the lowest fill rate has an unused machine, unless control planes clash with workers. |
| `Allocation.NothingLeft` | sabakan/generator.go:297-319 | When as many workers as available are placed, they are exactly the acceptable machines that are not control planes. |
| `Racks.ScoreOrder` | sabakan/score.go:37-44 | Scores order machines by the control planes in their racks first and by the thresholds of remaining days second. |
| `Racks.HealthScoreOrder` | sabakan/score.go:46-52 | With health, ill health comes first, as long as no rack holds more than 100 control planes. |
| `Racks.HighestInEmptiestRack` | sabakan/score.go:37-44 | The machine with the highest score is in a rack with the fewest control planes among the candidates. |
| `Racks.ChoiceKeepsBalance` | sabakan/generator.go:252-259 | Choosing by score keeps the racks balanced. |
| `Racks.LowestIsUnhealthy` | sabakan/score.go:46-52 | If the lowest score is a healthy machine's, all are healthy, as long as no rack holds more than 100 control planes. |
| `Generators.Generator.AppendNextWorker` | sabakan/generator.go:737-740 | Appends the worker and keeps the counters equal to the true counts per role. |
| `Generators.Generator.RemoveNextWorker` | sabakan/generator.go:742-745 | Removes the worker and keeps the counters equal to the true counts per role. |
| `Generators.Generator.FillControlPlanes` | sabakan/generator.go:277-295 | Appends eligible machines until enough; takes a worker only when no unused machine is eligible; stops short only when none is left; moves machines and loses none; keeps racks balanced. |
| `Generators.Generator.FillWorkers` | sabakan/generator.go:297-319 | Appends acceptable machines until as many as available; stops short only when the lagging role has none. |
| `Generators.Generator.BuildNodes` | sabakan/generator.go:329-343 | The nodes are the control planes and then the workers, each from its template; a worker without a template is reported, and a refusal by validation means that these nodes do not pass it. |
| `Generators.Generator.Fill` | sabakan/generator.go:276-343 | No control plane is ever given up, a worker leaves only to be promoted, no machine is lost or doubled, and each outcome, success and every failure, has its cause in the machines it leaves. |
| `Generators.NodesAreDetermined` | sabakan/generator.go:329-335 | The chosen machines determine the nodes, so a choice that validation refuses cannot be generated. |
| `Generators.Generator.Generate` | sabakan/generator.go:346-357 | For every order of the map: as many control planes as demanded, all eligible and rack-balanced, and as workers exactly the other acceptable machines; not available exactly when eligible machines run out or on a clash; invalid only for nodes that validation refuses. |
| `Generators.GeneratesExactlyWhenEnough` | sabakan/generator.go:276-357 | With templates in the usual form and a validation that accepts everything, generation succeeds exactly when there are as many eligible machines as control planes demanded. |
| `Generators.WorkersRunOutOnClash` | sabakan/generator.go:276-319 | For the control planes that a fill has chosen: it runs out of workers exactly when one of them is taken from machines that the worker count does not discount, whatever the order of the map. |
| `Generators.WorkersNeverRunOut` | sabakan/generator.go:297-319 | Generation never runs out of workers if the control plane template has a role, or the sole worker template has none. |
| `Generators.SafeTemplates` | sabakan/generator.go:297-319 | For all valid templates: no input with them runs out of workers once its control planes are found, exactly when the control plane template has a role or the sole worker template has none; otherwise there is an input with them that runs out in whichever order generation goes. |
| `Generators.Generator.Regenerate` | sabakan/generator.go:361-386 | Fails exactly when a current node has no machine; otherwise keeps all machines, control planes in place. |
| `Generators.Generator.RemoveNonExistentNode` | sabakan/generator.go:447-479 | Refuses exactly when half or more of the control planes are gone; otherwise takes over the existing machines. |
| `Generators.Generator.DecreaseControlPlanes` | sabakan/generator.go:493-511 | Demotes down to the demanded number. No remaining control plane of the same rack and health misses a threshold of remaining days that a demoted one passes; given racks of at most 100, a healthy one is demoted only when no unhealthy one remains, and no remaining one of the same health is in a rack fuller by two. |
| `Generators.Generator.IncreaseWorkers` | sabakan/generator.go:513-551 | Hires acceptable unused machines until the healthy workers are all healthy machines less the control planes, no more than that, or the lagging role has none left; changes nothing if none is acceptable. |
| `Generators.Generator.DecreaseWorkers` | sabakan/generator.go:553-577 | Drops exactly one worker, the first that is retired longer than the wait, with the minimum rate of workers left; otherwise changes nothing, for a stated reason. |
| `Generators.Generator.Update` | sabakan/generator.go:390-445 | Fails for missing control planes exactly when half or more are gone; otherwise every existing control plane stays, except when there were too many, every worker stays unless promoted or dismissed, a dismissed one is not taken back, and no change means that nothing was left to do. |
| `Generators.UpdateKeepsQuorum` | sabakan/generator.go:447-511 | An update keeps more than half of the current control planes, or exactly the demanded number of them when there were more. |
| `Generators.GenerateThenUpdate` | sabakan/generator.go:346-445 | Updating what was just generated changes nothing, exactly when at least one control plane is demanded and no generated node carries a state taint; in particular if no template has a state taint. |
| `Generators.UnstainedTemplates` | sabakan/generator.go:329-335 | Templates without a state taint give nodes without one. |

## Left out

- RebootSafety.RebootsAreSafe: a reset of the back-off is a step only if it does not bring back a reboot that is no longer in progress, because the rule fails with later ones, as `LateResetRuns.LateResetBreaksSafety` shows; `LateResets.SafeWithLateResets` and `LateResetRuns.LateResetExactly` are about the others.
- CrossQueue.RepairAndRebootAreSeparate: needs the reboot queue on and control planes named by their addresses, both of which `Separation` shows to be necessary; an entry whose removal was asked for no longer counts as under repair, although its command may still run.
- RepairSteps.StepsRunInOrder: a reset of a repair entry's back-off is one atomic step, although the command reads and writes the whole entry.
- RepairDecide.SlotLimits: about one decision; `RepairLimits` and `OneByOne` say when the limits hold over runs.
- RepairLimits.RepairsAreLimited: needs the reboot queue on and no decision during a back-off; entries whose removal was asked for do not count.
- Limits.OneRepairPerMachine: about one decision; `OneByOne.OneRepairPerMachineExactly` is about runs.
- Strategy.DecideMasterEndpoints: whether the Endpoints object of the API servers must be rewritten is one flag; the endpoint slice is modelled.
- Machines.ValidateTemplate: the general validation of the template as a configuration is not part of it.
- Racks.LowestIsUnhealthy: needs racks of at most 100 control planes, the number the score itself is built on.
- Racks.HealthScoreOrder: likewise.
- Generators.Generator.Update: a negative number of control planes is excluded, since the source indexes an empty slice then.
- Selection.ChooseWorkerTmpl: fill rates are compared as exact fractions, not as floating-point numbers.
- Generators.Generator.DecreaseWorkers: the rate of workers is an exact fraction, not a floating-point number.
- Storage.RegistrationsAreConsecutive: indices are unbounded; the source's are 64-bit numbers.
- EntryKey.KeyOrder: covers the non-negative 64-bit indices that registration hands out.
- Leader election and the expiry of leases: there is one leader; the theorems allow it to stop and start at any step.
- BackOff.BackOffLastsExactly: about the seconds before a random number is added and the sum is turned into a duration; in the runs the expiry is any time.
- Withdrawals.CancelledStaysOut: a reset of the same entry's back-off is excluded, since it writes the entry as it was read before.
- Withdrawals.RevivedExactly: about the next action of a leader at work; `CancelledStaysOut` covers all that follow.
- Sharing of entries by reference: an operation takes the entry as it was when the round was decided; the source's commands change the entry in memory before storing it.
- Phases other than endpoints, uncordoning, repairs and reboots: whether each has anything to do is a parameter of the decision.
- Endpoints objects: compared like endpoint slices in the source, here one flag each.
- The selection of Kubernetes labels for protected Job Pods and namespaces: a predicate and a set.
- Labels, annotations and users of generated nodes: copied from machine and template without a decision.
- Cluster validation after generation: beyond distinct addresses, which are proved, it is a predicate.
- NewGenerator with a cluster status: it indexes the first address of every machine, also of one without addresses; the taints by address are a parameter here.
- A worker whose role no template has: the source panics; here generation reports it.
- SSH, Vault, certificates, containers, HTTP, DNS, metrics, logging and the command line: outside the decisions modelled here.
- Sabakan queries, the repair requests made from them, and waiting for changes: the machines and the requests are inputs here.
