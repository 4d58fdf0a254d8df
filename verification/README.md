# A verified model of azure-k8s-autopilot

The autopilot runs two cron jobs against a Kubernetes cluster on Azure. The *repair* job looks for unhealthy nodes and
restarts, redeploys, reimages or deletes their machines; the *update* job takes outdated scale set instances through
mark, drain, update, redeploy, uncordon, unmark and lock. What keeps them safe is spread over in-memory lock caches,
annotations on the nodes, and a node list that a watch keeps up to date and both jobs share. This project models those
parts and proves what they guarantee, for all configurations, inputs, interleavings, failures and crashes, and it shows
where the code as written does not guarantee what it is for.

`dafny verify dfyconfig.toml` checks everything.

## How it is built

* **Values.** `Text`, `JsonPointer`, `JsonPatch`, `ProviderId`, `ProviderIdRoundTrip`, `ProviderIdShape`, `Provisioning`, `Nodes`,
  `Settings`: strings, RFC 6901 tokens, RFC 6902 patches on annotation maps, Azure resource IDs, provisioning states,
  nodes and their lock annotations, the configuration. `TimedCaches` is the part of go-cache the program uses.
* **Step machines.** `Jobs` gives each job as a state (lock cache, place in the program) and a function `Step`; every
  decision inside the process and every answer from outside is an event at an instant. The janitor's sweep may come at
  any time.
* **The program.** `JobRunner` has the loops and calls of the source in imperative form, over a lock cache that is
  changed in place. `Surroundings` gives arbitrary answers and remembers them. The record of a runner is a run of the step
  machine; every method only adds to it, and its calls are exactly the answers of the outside, so that the contracts
  say which calls were made. `NodeView` has the shared node list with its heap objects, `SelfEviction` the two cron
  objects.
* **Runs of one job.** `Budget`, `SyncExact`, `UpdateProtocol`, `OwnNode`, `UpdateCandidates`, `RepairProtocol` and `LockedUpdates`
  are about all runs of one job.
* **The world.** `World` puts both jobs, the cluster as the API server has it, other actors, process death and a
  non-decreasing clock together. `OneOngoing`, `Recovery`, `LockWindow`, `LockLimit`, `JobLimits`, `TakenLocks`,
  `UncordonWindow`, `DrainGuard`, `UpdateUnderMark`, `UpdateStates` and `ScaleDown` are about all its behaviours;
  `Projection` shows that each job in it runs as if alone.
* **Counterexamples.** `Plays`, `Ticks` (one node), `Crowds` and `UpdateCrowds` (any number of nodes) build behaviours step
  by step, with current lists, from an idle process. `LiteralLocks`, `LiteralLimit`, `LockGivenUp`, `LockSwept`,
  `UpdateSwept`, `LockRenewed`, `UncordonWindow`, `DrainGuard`, `UpdateStates` and `ScaleDown` use them to show what fails, each for a
  whole family of configurations, nodes and times. No call fails in them and no janitor sweeps (`Plays.Fair`), but for one
  failing call in `UncordonWindow.DrainedNodeReopened`, one sweep in `LockRenewed.RenewedLockBreaksLimit` and in
  `UpdateSwept.JanitorBreaksUpdateLimit`, and one sweep
  and, if the repair is to fail, one failing call in `LockSwept.JanitorBreaksLimit`.

## Hypotheses

Each theorem names those it needs in its `requires` clauses.

* A list is *current* (`World.Current`) where a theorem says so: it shows every node of the cluster as it is at that
  instant. Other lists may be stale. The list that candidates are collected from may have been current at any instant since
  Cleanup of the update job: it is taken before the Azure listing, which may take as long as it likes.
* A patch is atomic. `replace` creates a missing annotation (`JsonPatch.Upsert`), although section 4.3 of RFC 6902
  wants the target to exist; `remove` needs its target (section 4.2 of RFC 6902). A call that reports an error may have
  taken effect all the same.
* A job never overlaps with itself, but with the other job in every way.
* The six annotation names the program writes or reads are different (`Config.DistinctAnnotations`).
* `AnnotationLockCheck` is a parameter (`Nodes.Reading`): `Since` is the code as written, `Remaining` the time left,
  which is what the callers take it for. Theorems hold for both unless they say otherwise.

## Where the code is not what it looks like

* `time.Since` in `AnnotationLockCheck` is negative while a lock is live. So live locks are taken off and expired ones
  put back (`LiteralLocks.SurvivesIff`, `LiteralLocks.OldLockLocksAgain`), nodes are uncordoned while their lock is
  live (`LiteralLocks.CallersIff`), a node with a live lock is repaired again at the next tick
  (`LiteralLocks.LockedNodeRepairedAgain`), a node that a failed update left drained is made schedulable again at the next
  tick (`UncordonWindow.DrainedNodeReopened`), and two ticks within one lock duration repair up to twice as many nodes as
  the limit says (`LiteralLimit.TicksBreakLimit`).
* `GetHealthStatus` lets the last condition decide alone (`Nodes.LastConditionDecides`).
* The update loop never asks whether a candidate is locked. A locked node is updated in some run exactly if updates are
  on and their limit is not one (`LockedUpdates.LockedUpdateIff`); the budget holds nevertheless
  (`Budget.RunStaysWithinBudget`).
* With the time left as the check, the limit of a job bounds its live locks over time (`LockLimit.LiveLocksWithinLimit`),
  but for three ways in which an entry leaves the lock cache in a run although its annotation is live. The janitor sweeps an
  entry that the run has made, because the annotation is stamped later than the entry; this can break every limit
  (`LockSwept.JanitorBreaksLimit`, `UpdateSwept.JanitorBreaksUpdateLimit`), but not while the sweeps come within a lock duration after the first entry of the run
  (`JobLimits.TimelyIsAssumed`). A healthy node gives its lock up; this can break the limit of the repair job exactly
  if it is not one (`LockGivenUp.HealthyNodesBreakLimitIff`). And the janitor sweeps the entry of a lock that the run has
  renewed, because `Add` keeps the old expiry of a live entry; this can break the limit of the update job exactly if it is
  not one (`LockRenewed.RenewedLocksBreakLimitIff`), and the repair job renews no lock (`JobLimits.RepairRenewsNothing`).
* Updates are admitted by the provisioning states configured for repairs; nothing reads those configured for updates.
  Some update happens in a state not configured for updates exactly if the list for repairs is not within the list for
  updates (`UpdateStates.UpdatesUnaskedIff`): for example in any state longer than every entry for updates, if "*" is
  configured for repairs alone (`UpdateStates.Witness`).
* Which list a repair run has taken decides whether it leaves a drained node alone: a later one does
  (`DrainGuard.DrainedNodeNotRepaired`), an earlier one need not (`DrainGuard.EarlierListMayRepair`).
* The scale-down ban of an update in flight stands as long as Cleanup of the repair job sees no outdated expire
  annotation on the node (`ScaleDown.BanStandsInFlight`), and every expire annotation that gets outdated meanwhile can
  lift it (`ScaleDown.CleanupMayUnprotect`), also if Cleanup has seen it before the mark
  (`ScaleDown.LateMarkUnprotected`). As written, the lock of a repair writes such an annotation
  (`ScaleDown.RepairLockUnprotects`).
* `checkSelfEviction` stops the update cron only if there is a repair cron, and panics if there is no update cron then
  (`SelfEviction.Crons.CheckSelfEviction`).

## Model

| member | source | states |
|---|---|---|
| OneOngoing.OneOngoingUpdate | autopilot/task.update.go:62-147 | over all behaviours, with any call failing, lost answers and the process dying anywhere, at most one node that is not excluded carries the ongoing annotation, given that nobody else writes it or the exclude annotation and that the list candidates are collected from was current at some instant since the update job's Cleanup, while both jobs and others go on during the Azure listing |
| OneOngoing.OngoingIsResumedAlone | autopilot/task.update.go:80-94 | while a node is ongoing, the candidates of a current list are that node alone |
| Recovery.DrainedStaysMarked | autopilot/task.update.go:119-144 | from a drain on that has cordoned the node, until it is made schedulable or replaced, the node is cordoned and carries the ongoing annotation, through failures of any call, deaths and restarts, unless somebody else takes the annotation away |
| Recovery.DrainedIsResumed | autopilot/task.update.go:80-94 | with at most one ongoing node, the candidates of a current list are then that drained node alone, unless it is gone or excluded |
| LockWindow.LockWindow | autopilot/main.go:433-462 | after a repair whose lock annotation was taken by the API server, the repair job does not turn to Azure about the node again until less than a second before the time of the lock plus its duration, through flushes, healthy nodes giving locks up, sweeps, both jobs interleaved, and restarts |
| LockWindow.StampedTime | k8s/node.go:91-97 | the lock time that is written is later than the instant plus the duration minus one second, and not later than their sum |
| LockWindow.StaysProtected | autopilot/task.repair.go:48-117 | the protection of a node (annotation in the cluster, entry in the cache, or still to be restored) is kept by every step of every behaviour |
| LockLimit.LiveLocksWithinLimit | autopilot/main.go:306-312 | with the time left as the check and a limit, for either job: the nodes with a live lock annotation of the job stay within its limit in every behaviour, over ticks and restarts, if syncNodeLockCache takes current lists, nobody else writes the annotation, and no sweep in a run takes out an entry that the run has made while its annotation is live or about to be written; for limits above one also if no healthy node gives up a live lock and no sweep does so with the entry of a lock that the run has renewed |
| JobLimits.RepairLocksWithinLimit | autopilot/task.repair.go:54-57 | the same for the repair job, with nothing to be asked about renewed locks |
| JobLimits.RepairRenewsNothing | autopilot/task.repair.go:48-53 | in every behaviour, no run of the repair job enters a node that has a live entry |
| JobLimits.TimelyIsAssumed | autopilot/main.go:438-458 | for either job, the hypothesis about sweeps holds if every sweep in a run comes before an entry made when the run locked its first node can expire; before that there is no condition on sweeps |
| JobLimits.TimelySweepsKeepLimit | autopilot/task.repair.go:54-57 | so, in terms of times, the limit of the repair job holds if its runs are over, or not swept any more, within a lock duration after their first lock, and for limits above one if no healthy node gives up a live lock |
| JobLimits.UpdateLocksWithinLimit | autopilot/task.update.go:36-41 | the same for the update job, with nothing to be asked about healthy nodes |
| LockRenewed.RenewedLocksBreakLimitIff | autopilot/task.update.go:150-157 | for every limit of the update job, and every cluster of a node with a live lock and as many without as the limit, all of them candidates: a behaviour from an idle process in which no sweep harms an entry the run has made gets above the limit exactly if the limit is not one |
| LockRenewed.RenewedLockBreaksLimit | autopilot/task.update.go:36-72 | for every limit above one: the locked node is updated, its entry keeps the old expiry and is swept, the others are updated, and there is one live lock more than the limit; no call fails |
| LockGivenUp.HealthyNodesBreakLimitIff | autopilot/task.repair.go:54-57 | for every limit, and every cluster of a healthy node with a live lock and as many broken ones without as the limit: a behaviour from an idle process under all the other hypotheses gets above the limit exactly if the limit is not one |
| LockGivenUp.HealthyNodeBreaksLimit | autopilot/task.repair.go:114-118 | in every such cluster and for every limit above one: one tick with current lists and no failure leaves one live lock more than the limit |
| LockSwept.JanitorBreaksLimit | autopilot/task.repair.go:96-110 | for every limit, and every cluster of one broken node more, whether the first repair succeeds or fails: if its annotation is stamped late enough after its cache entry, one sweep between their ends, and nothing else of what the theorem excludes, leads to one live lock more than the limit |
| UpdateSwept.JanitorBreaksUpdateLimit | autopilot/task.update.go:150-157 | the same for the update job: for every limit, and every cluster of one candidate more without locks, one sweep between the end of the first entry and the end of its annotation, and no failing call, leads to one live lock more than the limit |
| TakenLocks.TakenWithinLimit | autopilot/task.repair.go:48-113 | with the time left as the check, and nobody else touching locks and nodes, the nodes that were repaired and locked so far and whose lock is not over are never more than the limit |
| LiteralLimit.TicksBreakLimit | k8s/node.go:142-158 | as written, for every limit and every cluster of two groups of broken nodes without locks, the first as large as the limit and the second not larger: two ticks, the second at any time before the locks of the first are over, repair and lock both groups, with current lists and no failure |
| LiteralLocks.LockedNodeRepairedAgain | k8s/node.go:142-158 | with the check as written, in every configuration: for every broken node whose lock, if any, is taken for outdated, and every time up to the lock time that the first tick writes, there is a behaviour from an idle process in which two ticks both repair it, although all lists are current and all calls succeed |
| LiteralLocks.SurvivesIff | autopilot/main.go:438-458 | a lock comes back into the cache exactly while it is live if the check means the time left, and exactly when it is over as written |
| LiteralLocks.CallersIff | autopilot/main.go:468-473 | the same for the uncordoning of cordoned nodes and for Cleanup |
| UncordonWindow.UncordonWindow | autopilot/main.go:464-484 | with the time left as the check: after the last update lock annotation of a node that the API server took, autoUncordonExpiredNodes does not turn to the node until less than a second before the time of the lock plus its duration, through ticks, restarts, the other job and failures, if its lists are current and nobody else writes an earlier lock |
| UncordonWindow.DrainedNodeReopened | autopilot/main.go:470-479 | as written, in every configuration with draining and for every node: the node is drained, the Azure update fails, the node is locked for the error duration, and the next tick, at any time before that lock is over, makes it schedulable |
| LiteralLocks.OldLockLocksAgain | autopilot/main.go:450-455 | as written, an expired lock locks the node again for as long as it has been expired |
| Budget.RunStaysWithinBudget | autopilot/task.repair.go:48-117 | with a limit, one run of either job acts on at most limit plus (entries swept as expired during the run) different nodes |
| Budget.CacheStaysWithinLimit | autopilot/main.go:306-312 | in a run that its guard let in the lock cache never has more entries than the limit, expired ones included, under any interleaving of sweeps |
| LockedUpdates.LockedUpdateIff | autopilot/task.update.go:36-46 | for every node that can be updated: some run of the update job starts updateNode on it while it has a live lock exactly if it is no dry run, the failed threshold is positive and the limit is not one |
| UpdateStates.UpdatesUnaskedIff | config/opts.go:73 | for every node that can be updated: some behaviour from an idle process updates it in a provisioning state not configured for updates exactly if the list for repairs is not within the list for updates, where "*" stands for everything and entries are equal up to case |
| UpdateStates.UpdatesAsForRepairs | autopilot/lib.azure.go:162-190 | in every behaviour, for every Azure update call: the same updateNode has asked for the instance before, and found it in a state that the list for repairs admits |
| UpdateStates.UpdatePlayed | autopilot/lib.azure.go:215-227 | every state that the list for repairs admits lets an update go ahead in some behaviour without failures |
| UpdateStates.AdmitsNoMoreIff | config/opts.go:58 | for all lists, one admits no state that the other does not exactly if the other has "*", or it has none and each of its entries equals one of the other up to case |
| UpdateStates.AsConfiguredIff | autopilot/lib.azure.go:216-222 | updates are admitted exactly in the states configured for them if and only if each list is within the other |
| Projection.JobRuns | autopilot/main.go:285-365 | as long as the process lives, what happens to one job in the world is a run of that job alone |
| Projection.CacheWithinLimitInWorld | autopilot/main.go:348-354 | the limit holds in the world with both jobs interleaved |
| Projection.RunWithinBudgetInWorld | autopilot/task.update.go:36-73 | the budget of a run holds in the world with both jobs interleaved |
| Projection.SyncRebuildsInWorld | autopilot/main.go:433-462 | the exact rebuilding of the lock cache holds in the world with both jobs interleaved |
| DrainGuard.DrainedNodeNotRepaired | autopilot/lib.azure.go:174-211 | a repair run that takes a current list after a successful drain outside of a dry run, and before the node is made schedulable again, never turns to Azure about the node |
| DrainGuard.EarlierListMayRepair | autopilot/task.repair.go:32-36 | for every node that both jobs may take up there is a behaviour from an idle process, with current lists and no failure, in which a repair run takes its list, the update job marks and drains the node, and the run then repairs it |
| UpdateProtocol.CallsInOrder | autopilot/task.update.go:115-147 | wherever updateNode is, its calls so far are a word of the protocol: mark, accepted state, accepted drains, update, redeploy if configured, uncordon |
| UpdateProtocol.AzureCallsComeLate | autopilot/lib.azure.go:148-211 | every Azure update or redeploy comes after a successful mark (ongoing annotation and scale-down ban), an accepted state and, if draining is enabled, a drain accepted by the retry and ignore rules, with nothing else in between; a redeploy only if the action is "update+reimage", and after the update |
| UpdateProtocol.DrainedNext | autopilot/lib.k8s.go:27-57 | every drain attempt either completes an accepted word of drains, or asks for the one retry, or ends updateNode |
| UpdateProtocol.UncordonComesLast | autopilot/task.update.go:131-139 | the uncordon of the protocol comes after all Azure calls, which succeeded |
| UpdateProtocol.NilMeansComplete | autopilot/task.update.go:62-72 | updateNode ends with the lock for a success exactly if every step succeeded, uncordon and removal of the ongoing annotation included; otherwise with the lock for an error and no more candidates |
| UpdateProtocol.FailureEndsTheRun | autopilot/task.update.go:63-67 | after a failed updateNode no node is attempted in the run any more |
| OwnNode.OwnNodeNotUpdated | autopilot/task.update.go:43-46 | in every run from rest, wherever updateNode is, it is not about the node the autopilot runs on |
| OwnNode.OwnNodeEndsRun | autopilot/task.update.go:43-46 | a run that comes to its own node ends idle there, without a call |
| OwnNode.OwnNodeCutsOff | autopilot/task.update.go:37-47 | every node attempted in a run stands before the own node among the candidates |
| OwnNode.UpdateLook | autopilot/task.update.go:38-53 | the look at a candidate, in this order: the limit or the own node ends the run, an ID that cannot be parsed is passed over, any other node is taken up |
| UpdateUnderMark.AzureUpdatesUnderMark | autopilot/task.update.go:119-131 | in every behaviour, at an update or redeploy call the node carries the ongoing annotation in the cluster, unless somebody else took it away or the node is gone |
| UpdateCandidates.CandidatesAre | autopilot/task.update.go:77-113 | the candidates are the first ongoing node that is not excluded, alone, or all outdated nodes that are not excluded, once each and in the order of the list |
| RepairProtocol.RepairsAreDue | autopilot/task.repair.go:20-113 | every repair call is the action configured for the kind of machine, and one known for it, on a node that was, in this order, seen with a last condition other than Ready/True and an old enough heartbeat and not cordoned, without a live lock, below the limit outside of a dry run and not the own node, and in an accepted state; a success or an error decides the duration of the lock |
| RepairProtocol.FreeLook | autopilot/task.repair.go:54-83 | after the lock check, in this order: the limit and an ID that cannot be parsed pass the node over, a dry run locks it, the own node ends the run, and otherwise Azure is asked |
| RepairProtocol.LockEntry | autopilot/task.update.go:151 | for either job, what a lock does to the cache: a live entry stays, otherwise there is one for the duration; it is followed by the annotation, except in a dry run |
| RepairProtocol.RefusedRepairLocks | autopilot/task.repair.go:93-102 | an instance that is missing or in a state not accepted, or an action not known for the machine, leads to the lock for an error |
| ScaleDown.BanHasAnEnd | autopilot/task.update.go:119-128 | with a scale-down lock time, when the update job is done with a node it tried to update, a scale-down ban on it has an expiry, whatever the repair job's Cleanup did meanwhile, if the API server took the lock patches |
| ScaleDown.BanStandsInFlight | autopilot/task.update.go:119-128 | from the taken mark on, as long as the update job stays with the node, the node keeps the scale-down ban in every behaviour, if nobody else removes it and Cleanup of the repair job is not already removing it and sees no outdated expire annotation on the node |
| ScaleDown.CleanupMayUnprotect | k8s/node.go:30-40 | for every expire annotation that is not outdated when the update job cleans up but is when the repair job does, there is a behaviour from an idle process, with current lists and no failure, in which the update call goes to a node without the ban |
| ScaleDown.LateMarkUnprotected | k8s/node.go:30-40 | for every such expire annotation there is also a behaviour in which Cleanup of the repair job has seen it outdated before the mark is taken and sends its patch afterwards: nothing else lifts the ban, and the update call goes to a node without it |
| ScaleDown.RepairLockUnprotects | k8s/node.go:99-116 | as written, the lock of a repair is enough for that, at any time before lock and ban are over |
| SyncExact.SyncRebuilds | autopilot/main.go:433-462 | from any cache: the new entries are the listed nodes with a positive duration when they were looked at, minus those swept since; all of them expire; removal is attempted exactly for nodes with an unreadable or non-positive check, in order |
| JobRunner.Runner.SyncNodeLockCache | autopilot/main.go:433-462 | takes a list, flushes the cache in place and rebuilds it exactly (SyncExact.Rebuilt, on a record that only grows) |
| JobRunner.Runner.SyncNode | autopilot/main.go:442-457 | one patch that removes the lock exactly if it is there but no time, or one that the check takes for over; otherwise no call, and a node without the annotation loses its entry |
| JobRunner.Runner.AutoUncordonExpiredNodes | autopilot/main.go:464-484 | takes a list and adds to the record what the step machine does with it, node by node |
| JobRunner.Runner.UncordonLook | autopilot/main.go:470-479 | one uncordon exactly if the node is cordoned and its update lock is there but no time, or one that the check takes for over; otherwise no call |
| JobRunner.Runner.Cleanup | k8s/nodelist.go:134-142 | takes a list and adds to the record what the step machine does with it, node by node, up to the place where the run takes its own list |
| JobRunner.Runner.CleanupLook | k8s/node.go:30-40 | one patch that removes both autoscaler annotations exactly if the expire annotation is there but no time, or one that the check takes for over at this instant; otherwise no call |
| JobRunner.Runner.CleanupNode | k8s/node.go:33 | sends exactly one patch, which removes both autoscaler annotations or none |
| JobRunner.Runner.RepairRun | autopilot/task.repair.go:12-120 | Cleanup, a list, and the loop over it: adds a run of the step machine to its end to the record |
| JobRunner.Runner.RepairLook | autopilot/task.repair.go:26-44 | due exactly if the node is not cordoned, its last condition is not Ready/True, and its heartbeat is at least as old as the threshold; a node whose last condition is Ready/True, and no other, loses its entry |
| JobRunner.Runner.RepairNode | autopilot/task.repair.go:48-113 | lock check, limit, parsing, dry run, self eviction, repair and lock as steps added to the record; calls only about this node, and none in a dry run, for the own node, or for an ID that cannot be parsed |
| JobRunner.Runner.AzureRepair | autopilot/lib.azure.go:15-145 | asks for the instance, and for the action configured for the kind of machine exactly if the instance is accepted and the action known for that kind; the answer decides between lock duration and error duration |
| JobRunner.Runner.UpdateRun | autopilot/task.update.go:14-75 | Cleanup, candidates, threshold, dry run and loop: adds a run of the step machine to its end to the record; after the list was collected nothing is asked if that failed, the threshold is reached, or in a dry run |
| JobRunner.Runner.UpdateCandidates | autopilot/task.update.go:36-73 | limit and self eviction before every node, end after the first failure, as steps added to the record; every call is about a candidate that stands before the own node |
| JobRunner.Runner.UpdateNode | autopilot/task.update.go:115-148 | nil exactly if the calls made are a complete word of the protocol; the last three are then the redeploy if the action is "update+reimage" and else the update, the uncordon, and the removal of the ongoing annotation; nil leads to the lock duration and the next candidate, an error to the error duration and the end |
| JobRunner.Runner.LockNode | autopilot/task.update.go:150-157 | the cache gets the entry go-cache would make at one instant, the clock is read twice after it, and then exactly one patch is sent that sets the lock by the first reading and, with a scale-down lock time, ban and expiry by the second; errors change nothing in what follows |
| JobRunner.Runner.AzureVmssInstanceUpdate | autopilot/lib.azure.go:148-212 | no error exactly if its calls, after the mark, are an accepted state, accepted drains, the update and the configured redeploy, all successful and in this order; the last is then the redeploy if the action is "update+reimage", and else the update |
| JobRunner.Runner.K8sDrainNode | autopilot/lib.k8s.go:15-58 | no error exactly if the drain calls made are an accepted word: none if disabled; one retry without eviction; a failure may be ignored |
| JobRunner.Runner.AnnotationLockSet | k8s/node.go:91-119 | reads the clock twice, in this order, and sends exactly one patch, with the lock by the first reading and the expiry of the ban by the second |
| JobRunner.Runner.PatchSetApply | k8s/node.go:160-175 | sends exactly one patch, whose operations implement the change the step machine asks for at this place |
| JobRunner.Runner.RepairJob | autopilot/main.go:297-317 | one tick of the repair job is added to the record, ends idle, and its run, later than everything before, is within the budget |
| JobRunner.Runner.UpdateJob | autopilot/main.go:336-359 | one tick of the update job is added to the record, ends idle, and its run, later than everything before, is within the budget |
| JobRunner.Runner.GuardedRun | autopilot/main.go:306-316 | adds to the record, from the guard on, no run if the cache holds as many entries as the limit, and otherwise one within the budget |
| SelfEviction.Crons.CheckSelfEviction | autopilot/main.go:387-416 | which crons are stopped, that both are unless only the update cron exists, and exactly when it panics |
| WatchReplay.ReplayedIsLast | k8s/nodelist.go:97-129 | after any events a name is listed with an object exactly if the last event with a say about the name added or modified an Azure node with that object |
| WatchReplay.ReplayedAreAzure | k8s/nodelist.go:103-106 | keys are node names and all listed nodes are Azure nodes |
| NodeView.NodeList.Watch | k8s/nodelist.go:77-132 | the event loop, from an empty list, leaves exactly the replay of its events |
| NodeView.NodeList.Handle | k8s/nodelist.go:98-128 | one event; a new object has no instance attached, all other objects stay the same |
| NodeView.NodeList.Snapshot | k8s/nodelist.go:144-154 | in any order of the map: every node once, distinct names, current with respect to the list |
| NodeView.NodeList.NodeListWithAzure | k8s/nodelist.go:156-172 | on success every node returned has the cached instance with its own ID attached in place, or keeps what it had; without watch events meanwhile, an instance listed for a scale set in use whose ID behind "azure://" is the provider ID of a node, up to case, makes that node get an instance with that ID as it was just listed, unless the node is looked up later than a cache lifetime after the start; whatever is attached has the provider ID of its node; on failure nothing is attached; nodes that came in meanwhile are bare |
| NodeView.NodeList.RefreshAzureVmssCache | k8s/nodelist.go:183-215 | on success every scale set in use was listed to its end, and under "azure://" and the lower-cased ID of every listed instance there is one that was just listed, for at least a cache lifetime from the start |
| NodeView.NodeList.NodeCountByProvisionState | k8s/nodelist.go:217-226 | the number of nodes of the list with an attached instance whose provisioning state is known and equals the given one up to case |
| NodeView.NodeList.UpdatePlan | autopilot/task.update.go:16-35 | join, candidates, failed count and threshold decide as the step machine does, with watch events coming in all the time; the run goes on exactly if the list was complete, fewer nodes than the threshold are in state "Failed" up to case, and it is no dry run; the count is exact if no event came in, and at most that otherwise |
| NodeView.NodeList.GetAzureVmssList | k8s/nodelist.go:228-253 | succeeds exactly if every node can be parsed, and then has one entry for each scale set in use and no other |
| NodeView.KeysTellApart | k8s/nodelist.go:241-246 | slash-free segments joined by slashes give different keys for different scale sets |
| NodeView.UpdateCollectCandidates | autopilot/task.update.go:77-113 | the two loops over shared nodes compute the candidates of the step machine: the first node with the ongoing and without the exclude annotation, alone; if there is none, a node is a candidate exactly if it has no exclude annotation and an instance that is known not to have the latest model |
| JsonPointer.EscapeIsCharMap | k8s/patch.go:23-27 | the two passes are one map over the characters |
| JsonPointer.EscapeRoundTrip | k8s/patch.go:23-27 | unescaping by section 4 of RFC 6901 gives every name back |
| JsonPointer.EscapeInjective | k8s/patch.go:23-27 | different names have different tokens |
| JsonPointer.EscapeIsToken | k8s/patch.go:23-27 | no slash, and no tilde that does not start "~0" or "~1" |
| JsonPointer.SwappedRoundTripIff | k8s/patch.go:23-27 | with the passes swapped, a name comes back exactly if it has no slash |
| JsonPatch.BuildSet | k8s/node.go:77-89 | one operation for each name, on its escaped path; together they change exactly the named annotations, whatever the iteration order of the map |
| JsonPatch.SetAnyOrder | k8s/node.go:80-86 | every iteration order gives the same annotations on every document |
| JsonPatch.StrictSetIff | k8s/node.go:67-75 | under section 4.3 of RFC 6902 itself the patch is taken exactly if all annotations exist already |
| JsonPatch.BuildRemove | k8s/node.go:130-140 | one operation for each name, on its escaped path; together they remove exactly the given names |
| JsonPatch.RemoveAllOrNone | k8s/node.go:130-140 | all names are removed, or the patch is refused because one is missing or named twice |
| Nodes.BuildLockSet | k8s/node.go:91-119 | one or three operations that set the lock and, with a scale-down lock time, the ban and its expiry, with a clock reading for each of the two times |
| Nodes.TruncationLosesLessThanASecond | k8s/node.go:92 | RFC3339 times are whole seconds, less than a second early |
| Nodes.GetHealthStatus | k8s/node.go:49-60 | healthy exactly if there are conditions and the last one has kind "Ready" and status "True", up to case, with the heartbeat of that one; without conditions unhealthy, with the zero time |
| Nodes.LastConditionDecides | k8s/node.go:49-60 | with pairwise different kinds, the result agrees with "some condition says ready" exactly if none does or "Ready" is the last kind in the list |
| Nodes.ReadyNodeCountedUnhealthy | k8s/node.go:50-58 | any other condition behind "Ready" makes a ready node count as unhealthy |
| ProviderId.ExtractNodeInfo | k8s/misc.go:34-86 | success gives non-empty, slash-free fields, and the kind by the scale set mark |
| ProviderId.AzureByScheme | k8s/node.go:43-46 | a node is an Azure node exactly if the first eight characters of its ID are "azure://" up to case |
| ProviderIdRoundTrip.VmssRoundTrip | k8s/misc.go:10-13 | for all segments and every casing of the fixed parts, a scale set ID gives back exactly its four segments, and itself without a lower-case scheme |
| ProviderIdRoundTrip.VmRoundTrip | k8s/misc.go:14 | the same for the three segments of a virtual machine ID |
| ProviderIdShape.RecognisedHead | k8s/misc.go:10-11 | a recognised ID begins with "azure:///subscriptions/", the subscription, "/resourceGroups/" and the resource group, in any casing |
| ProviderIdShape.RecognisedVm | k8s/misc.go:14 | a recognised virtual machine ID ends with the mark of a virtual machine, any character for its dot, and the name |
| ProviderIdShape.RecognisedScaleSet | k8s/misc.go:12 | a recognised scale set ID has the mark, the name of the scale set and a slash |
| ProviderIdShape.RecognisedInstance | k8s/misc.go:13 | and it ends with the mark, one segment, "/virtualMachines/" and the instance |
| ProviderIdShape.KindByMark | k8s/misc.go:56 | a recognised ID is taken for a scale set instance exactly if the scale set mark is somewhere in it, in any casing |
| Provisioning.AcceptedStates | autopilot/lib.azure.go:215-227 | after Init a state is accepted exactly if it is nil, or "*" is configured, or an entry equals it up to case |
| Provisioning.NormaliseStates | autopilot/main.go:112-120 | the loop lower-cases the list in place and finds "*" |
| Provisioning.CheckVmProvisionState | autopilot/lib.azure.go:215-227 | no error exactly for accepted states |
| Provisioning.StringArrayContains | autopilot/misc.go:3-11 | true exactly if the needle is in the array |
| Text.EqualFoldIs | k8s/node.go:51 | strings are equal up to case exactly if they are as long and letter by letter the same or the two cases of one of 26 letters |
| TimedCaches.TimedCache.Add | autopilot/main.go:453 | fails exactly on a live entry, and overwrites an expired one |
| TimedCaches.TimedCache.DeleteExpired | autopilot/main.go:461 | takes exactly the expired entries away |
| TimedCaches.TimedCache.Get | autopilot/task.repair.go:49 | finds exactly the live entries |

## Left out

- LockWindow.LockWindow: for the check as written it needs that no tick looks at the lock before its time; LiteralLocks.LockedNodeRepairedAgain shows that the window breaks otherwise.
- UncordonWindow.UncordonWindow: only for the check that means the time left; UncordonWindow.DrainedNodeReopened shows that the window breaks as written.
- JobRunner.Runner.SyncNodeLockCache: taking the list and flushing the cache are one step.
- JobRunner.Surroundings: gives arbitrary lists with distinct names, and an arbitrary outcome of the Azure listing, instead of calling NodeView, whose Snapshot and UpdatePlan promise just that.
- ProviderIdRoundTrip.VmssRoundTrip: case folding of ASCII letters only; the regular expressions also fold two non-ASCII letters.
- Creating an Azure client and getting the instance are one call that may fail; starting an action and waiting for it are another.
- The cluster holds only the nodes that the watch selects, Azure nodes with the configured labels.
- After a self eviction the crons are not stopped in the step machine; it allows more runs than the program has.
- 64-bit durations: time.Since saturates after 292 years; the model has unbounded integers.
- Seconds as floating point numbers: durations are compared in whole nanoseconds.
- Calendar formats: an annotation value is an instant or does not parse.
- Kubectl command lines, Azure paging and futures, the Kubernetes client, leader election, the HTTP server, metrics, logging, notifications, flag parsing and deployment files.
- Liveness: that Azure ever answers or nodes recover.
