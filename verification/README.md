# mini-cloud: a verified model

This project models the parts of mini-cloud in which state changes hands: the cloud-plane store and the
threads that share it, the node reconciler, the node agent's two loops, the front door, the DNS client,
ingress routing, the OpenTelemetry attribute codec and the host-port retry loop. Code that updates state in
place is modelled as classes and methods with loops; each method is proved equal to a specification function,
and the properties are proved about those functions, over every input, every run and every interleaving.

`dafny verify dfyconfig.toml` checks everything.

## How it is built

- `StoreModel` has the rows of the three tables `services`, `service_runs` and `nodes`, their keys and unique
  constraints, and sums over runs. `StoreSpec` says what each transaction does to the tables, as a function;
  a failed transaction returns the state it was given. `Store.Store` is the store itself: three mutable maps
  and one method per transaction, statement by statement. `Sweep` carries the loops of the offline sweep.
- `StoreTables`, `Generations`, `Placement`, `Ledger`, `Capacity` and `Reports` prove what holds in every run
  of the store: constraints, the generation protocol, placement, the ledger of reservations, capacity, and
  the replay of reports. `Requests`, `Handover` and `Nodes` say, column by column and from one transaction to the
  next, what requests, claims, reports, registrations, heartbeats and the sweep answer and leave behind.
  `Counterexamples` has runs from nothing to where a property fails. `Snapshots` is about the snapshot read in several
  steps.
- `Provisioning` lets the reconciler, one step at a time, interleave with all other threads; the provider is a
  set of live instances. `ReconcileSpec`, `NodeReconciler` and `ScaleToZero` treat one undisturbed round, and `Rounds`
  shows that it is one of those interleavings.
- `Agent` is the node agent: two loops over two shared fields and two locks, interleaved at every call and
  critical section, and a class with the code of those sections.
- `Telemetry`, `FrontDoor`, `Dns`, `Ingress` and `HostPorts` stand for one source file each; `FrontDoorRuns` lets the
  calls of a sync interleave with changes of the services; `Strings` has white space, trimming and sorting.

A *step* is one transaction. What the outside world answers (the provider, the CDN, DNSPod, Docker, node
lookups, clocks, fresh identifiers, the outcome of purely textual validation) is a parameter, so a theorem
holds for every answer unless it says otherwise.

## What the proofs found

- A delete of a pending run that an update left pinned to its node gives back a reservation the run no longer
  holds (service_run.go:238-242 after :105-109). `Counterexamples.PinnedDeleteOvercommits` runs there from the
  empty database; `Ledger.DeleteKeepsCoverIff` and `Capacity.RunKeepsCoverIff` are the exact conditions.
- A reservation is lost for good (until the node is deleted or swept) when an update or a failure mark hits a
  deploying or delete-pending run, and when a running run without a container identifier is deleted. The terms
  are in `Ledger.Leak`, and `Ledger.DriftLaw` shows there are no others.
- Cleaning up stale provisioning is safe only while the row cannot change between the read and the mark
  (`Counterexamples.LateCleanupStrandsRun`); the exact condition is that no active run sits on the node
  (`Placement.MarkDeletedPlacesIff`).
- A create request that fails after it made an instance forgets it (`Provisioning.CreateForgetsIff`). The instance
  comes back only when its agent registers it, as a node that is not elastic and that no pass takes down.
- A create request is made in the name of service and generation, and a provider that answers a repetition with the
  instance it already made loses that instance: it cannot be bound to a second row, so the reconciler deletes it under
  the ready node (`Counterexamples.RepeatedAnswerTakesNodeDown`). `ScaleToZero.WaitingWorkKeepsInstancesIff` says that
  this is the only way for work that waits to cost a ready node its instance.
- The query for the run to buy a node for does not look at the desired state, so a deletion that waits for its full
  node buys one (`Counterexamples.DeletionBuysNode`).
- A delete with a generation below the service's own still deletes, and keeps the greater generation
  (`Generations.StaleDeleteWins`, `Counterexamples.StaleDeleteOutlivesUpsert`).
- A loop of the agent that still holds an old identifier resets the old node after a new one was registered
  (`Agent.StaleLoopResetsOldNode`); `Agent.OneResetPerRegistrationIff` says exactly when it cannot happen. A loop whose
  reset returns after the same node was registered anew lends that reset to the new registration (`Agent.OwnResetIff`).
- A service that changes its host leaves its CDN domain behind untracked: after a sync
  (`FrontDoorRuns.RenameOrphans`), between two calls of one (`RenameDuringSyncOrphans`), and between building the
  routes and the sync (`StaleRoutesOrphan`). `FrontDoorRuns.NeverOrphanedIff` says exactly when nothing is orphaned.
- Deleting a service's DNS records without naming a purpose misses records beyond the first 3000 of the zone
  (`Dns.CrowdedZoneKeepsOne`). It would also miss records whose purpose contains a blank; the two purposes the
  control plane uses (frontdoor_dns.go:12-13) contain none.

## Model

| member | source | states |
|---|---|---|
| Store.Store.UpsertService | internal/cloudplane/infra/store/service.go:41-155 | the tables end exactly where the upsert says (stale and early-return paths, first run, superseding run, rollback on a unique violation), and every constraint still holds |
| Store.Store.UpsertServiceRun | internal/cloudplane/infra/store/service_run.go:56-207 | a running run is freed on its node, keeps the node and (if it has one) the container; any other loses both without freeing; an equal or newer run stays as it is |
| Store.Store.DeleteService | internal/cloudplane/infra/store/service.go:158-193 | the service is marked deleted at the greater generation and its run is removed, or waits for its agent |
| Store.Store.DeleteServiceRun | internal/cloudplane/infra/store/service_run.go:209-247 | only a running run with node and container waits; pending and deploying pinned runs are freed; a running one without a container is not |
| Store.Store.MarkServiceRunFailed | internal/cloudplane/infra/store/service_run.go:329-349 | a pending or deploying run fails and nothing is freed |
| Store.Store.OldestDelete | internal/cloudplane/infra/store/service_run.go:446-457 | the deletion picked is the least recently updated one waiting on the node, and none is picked only if none waits |
| Store.Store.OldestRun | internal/cloudplane/infra/store/service_run.go:459-470 | the run picked is the oldest one that fits the node's free capacity and is not pinned elsewhere |
| Store.Store.ClaimPendingDeleteRun | internal/cloudplane/infra/store/service_run.go:401-416 | a waiting deletion is claimed without touching the ledger |
| Store.Store.ClaimPendingRun | internal/cloudplane/infra/store/service_run.go:417-444 | a run that fits is claimed and its request is added to the node |
| Store.Store.ClaimServiceRun | internal/cloudplane/infra/store/service_run.go:373-444 | a ready node gets a deletion first, a run only while schedulable, and nothing otherwise |
| Store.Store.UpdateExecutionFromNodeReport | internal/cloudplane/infra/store/service_run.go:590-634 | only a deploying run changes; a final report frees its request; a finished deletion removes the row; anything else is an answer without an effect |
| Store.Store.CreateProvisioningNode | internal/cloudplane/infra/store/node.go:46-76 | an elastic row in provisioning without instance or capacity |
| Store.Store.BindProvisionedNode | internal/cloudplane/infra/store/node.go:78-103 | only a provisioning row is bound, and no instance is bound twice |
| Store.Store.RegisterNode | internal/cloudplane/infra/store/node.go:105-181 | a known instance keeps its row and leaves neither draining nor deleted; an unknown one gets a new row |
| Store.Store.RecordNodeHeartbeat | internal/cloudplane/infra/store/node.go:238-308 | more than the total is refused; otherwise the capacity is recorded and the node is ready unless it is leaving |
| Store.Store.PrepareNodeDeletion | internal/cloudplane/infra/store/node.go:417-479 | a draining node may go; a ready elastic one with an instance and no active run starts draining; any other stays |
| Store.Store.FailServiceRunsForOfflineNode | internal/cloudplane/infra/store/node.go:601-651 | the clamped subtractions, run after run in any order, amount to one clamped subtraction of their sum |
| Store.Store.MarkStaleNodeHeartbeatsOffline | internal/cloudplane/infra/store/node.go:516-599 | the two nested loops end where all stale nodes are offline at once and exactly their unfinished runs have failed |
| Sweep.FreeOneMore | internal/cloudplane/infra/store/service_run.go:750-762 | clamped subtraction of two requests is clamped subtraction of their sum |
| StoreTables.StepKeepsTables | internal/cloudplane/infra/store/service.go:41-193 | every transaction keeps primary keys, unique names, hosts and instances, and references |
| StoreTables.RunKeepsTables | internal/cloudplane/infra/store/service.go:41-193 | so does every run of transactions |
| Requests.UpsertInvalidIff | internal/cloudplane/model/service.go:55-114 | an upsert is invalid exactly for a blank, a generation that is not positive, an unknown class or a port outside 1 to 65535, and then changes nothing |
| Requests.StaleUpsertAnswered | internal/cloudplane/infra/store/service.go:98-119 | one below the generation of the service, or at the one it was deleted at, is answered with the row and changes nothing |
| Requests.UpsertAcceptedIff | internal/cloudplane/infra/store/service.go:41-155 | any other is refused exactly for the name or host of another service or a taken run identifier |
| Requests.UpdatedRunWaits | internal/cloudplane/infra/store/service_run.go:105-133 | an updated run waits: on its node if it was running, with its container if it had one, and anywhere without one otherwise |
| Requests.DeletedRunWaitsIff | internal/cloudplane/infra/store/service_run.go:209-247 | a delete of a known service is accepted; its run waits if and only if it is running with a container, and is removed otherwise |
| Requests.MarkedFailedIff | internal/cloudplane/infra/store/service_run.go:329-349 | a failure mark reaches exactly a pending or deploying run of that service |
| Generations.StepAgrees | internal/cloudplane/infra/store/service_run.go:102-181 | each transaction keeps run generation equal to service generation, a run for every active service, and generations from falling |
| Generations.RunAgrees | internal/cloudplane/infra/store/service.go:82-188 | over every run generations never fall, and a deleted service is active again only at a strictly greater generation |
| Generations.RunDecides | internal/cloudplane/infra/store/service.go:98-188 | upserts and deletes in any order: the service is at the greatest generation asked for, and it is active exactly if after the last accepted delete an accepted upsert topped every generation asked for until then; row and run then hold what that generation says |
| Generations.LastWriterWins | internal/cloudplane/infra/store/service.go:98-188 | whatever the order, duplication and interleaving, deletes included, row and run end with what the greatest accepted upsert asked for if and only if the requests accepted so far leave the service alive |
| Generations.StaleDeleteWins | internal/cloudplane/infra/store/service.go:172-183 | a delete with a generation below the service's own deletes it, at the service's generation |
| Counterexamples.StaleDeleteOutlivesUpsert | internal/cloudplane/infra/store/service.go:172-183 | a run from the empty database in which a delete at generation 1 outlives the upsert at generation 2 before it |
| Generations.OrderDoesNotMatter | internal/cloudplane/infra/store/service.go:98-131 | two histories that accepted the same upserts and end alive end with the same service and requested work |
| Handover.ContainerNamesDiffer | internal/cloudplane/infra/store/service_run.go:538-540 | two generations, of one service or of two, never share a container name |
| Handover.ClaimHandsOut | internal/cloudplane/infra/store/service_run.go:472-588 | the work is a delete if and only if the service is deleted; it carries execution, workload, container and port of the row, which is deploying on the node from then on; no other row changes |
| Handover.ClaimIsAllowed | internal/cloudplane/infra/store/service_run.go:386-439 | a deletion was waiting for this node with its container; a run fits what the schedulable node has left, column by column, and no other node keeps it |
| Handover.DeletionsGoFirst | internal/cloudplane/infra/store/service_run.go:446-457 | a ready node with a deletion waiting for it gets one, the longest waiting |
| Handover.OldestRunGoesNext | internal/cloudplane/infra/store/service_run.go:459-470 | a schedulable node for which a run waits that fits gets work, and if it is a run the one created first |
| Handover.StepKeepsPlace | internal/cloudplane/infra/store/service_run.go:105-207 | no step changes identifier or creation time of a run, so updates keep their place in the queue |
| Handover.RunWorkIsWhatWasAsked | internal/cloudplane/infra/store/service.go:98-188 | over any run of the store, the run handed out for a service is what its greatest accepted upsert asked for, under the container name of that generation, and what that asked for is reserved |
| Handover.ReportWithoutEffect | internal/cloudplane/infra/store/service_run.go:600-613 | a report out of order, or on a run that is not being started, changes nothing; a repetition is confirmed and a contradiction is an error |
| Handover.ReportFromElsewhere | internal/cloudplane/infra/store/service_run.go:686-712 | only the node a run sits on can report on it |
| Handover.ReportIsKept | internal/cloudplane/infra/store/service_run.go:614-684 | container name, container identifier, port and status end in the columns of those names, the work columns stay, and the row goes if and only if a deletion succeeded |
| Handover.ContainerStays | internal/cloudplane/infra/store/service_run.go:590-634 | node and container of a run that waits for no report stay through every run of the store that neither updates nor claims it |
| Handover.DeletionHandsBackContainer | internal/cloudplane/infra/store/service_run.go:446-457 | a container reported running, any steps later, is handed back for deletion to the same node with exactly the name, identifier and port reported |
| Handover.DeletedWhileRunningIsClaimed | internal/cloudplane/infra/store/service_run.go:223-236 | after a delete of a running service its node is handed a deletion |
| Handover.UpdateHandsBackContainer | internal/cloudplane/infra/store/service_run.go:105-133 | an update of a running service, any steps later, is handed to the same node with the container and port to replace |
| Placement.StepPlacesIff | internal/cloudplane/infra/store/node.go:136-156 | a step keeps active runs on ready or registering nodes, and schedulable exactly on those, if and only if it does not mark a node deleted under an active run |
| Placement.MarkDeletedPlacesIff | internal/cloudplane/infra/store/node.go:481-507 | marking a node deleted keeps placement if and only if no active run sits on it |
| Placement.RunPlacesIff | internal/cloudplane/infra/store/service_run.go:386-399 | in each state of a run no deploying or running run sits on a provisioning, offline, draining or deleted node, if and only if no step makes such a mark |
| Placement.StepLeaves | internal/cloudplane/infra/store/node.go:270-300 | draining leads only to deleted, and deleted to nothing, in each step |
| Placement.RunLeaves | internal/cloudplane/infra/store/node.go:428-470 | and in every run |
| Nodes.KnownInstanceRegisters | internal/cloudplane/infra/store/node.go:129-156 | a known instance keeps row, capacity, work and elasticity, takes over what the node says about itself, and stays on its way out |
| Nodes.UnknownInstanceRegisters | internal/cloudplane/infra/store/node.go:116-129 | an unknown one gets a row of its own with the registered totals, empty, schedulable and not elastic |
| Nodes.HeartbeatAcceptedIff | internal/cloudplane/infra/store/node.go:252-268 | a heartbeat is refused exactly for nonsense, an unknown node, or more than the total in either column |
| Nodes.HeartbeatIsKept | internal/cloudplane/infra/store/node.go:270-300 | an accepted one is remembered with its time and capacity; the row counts as updated exactly if capacity, status or schedulability changed |
| Nodes.JoinedNodeOpensCapacity | internal/cloudplane/infra/store/node.go:105-300 | after a registration exactly the heartbeats within its totals are accepted, and open exactly their capacity |
| Nodes.SweptIff | internal/cloudplane/infra/store/node.go:530-575 | the sweep takes offline exactly the provisioning, registering and ready nodes whose last heartbeat lies before the cutoff; every other row stays |
| Nodes.SweptRunsIff | internal/cloudplane/infra/store/node.go:601-651 | exactly the pending, deploying and running runs on those nodes fail |
| Nodes.NobodySilentAfterSweep | internal/cloudplane/infra/store/node.go:530-575 | after a sweep no node that is counted on has been silent since before the cutoff |
| Nodes.BeatSurvivesSweep | internal/cloudplane/infra/store/node.go:238-300 | a heartbeat at or after the cutoff brings node and runs through the sweep untouched |
| Nodes.BeatingNodeStaysOnline | internal/cloudplane/infra/store/node.go:516-599 | over any run of the store a node that keeps beating is never taken offline |
| Nodes.CreatedIff | internal/cloudplane/infra/store/node.go:46-76 | a row to buy a node for is refused exactly for a blank or a taken identifier, and is elastic, empty and closed for work |
| Nodes.BoundIff | internal/cloudplane/infra/store/node.go:78-103 | a row is bound if and only if it is in provisioning and no other row of the provider carries the instance |
| Nodes.MayGoIff | internal/cloudplane/infra/store/node.go:441-475 | a node may go if and only if it drains or is an idle elastic one with an instance, which then starts draining |
| Nodes.LeavingNodeClaimsNothing | internal/cloudplane/infra/store/node.go:428-470 | once a node may go it is handed no work any more, whatever happens |
| Nodes.DeletedRowIsBare | internal/cloudplane/infra/store/node.go:481-507 | a deleted row keeps no address, instance or allocation |
| Ledger.DriftLaw | internal/cloudplane/infra/store/service_run.go:105-133 | allocated minus what is held moves, in every covered step, by exactly the reservations that step forgets, and for all others not at all |
| Ledger.SweepSettles | internal/cloudplane/infra/store/node.go:562-651 | a swept node holds nothing; the requests of pinned pending runs eat its drift down to zero, so an exact ledger ends at exactly zero |
| Ledger.PinnedDelete | internal/cloudplane/infra/store/service_run.go:238-242 | deleting a run that an update left pinned frees although nothing of it was held |
| Ledger.DeleteKeepsCoverIff | internal/cloudplane/infra/store/service_run.go:209-247 | a delete keeps held within allocated if and only if the run is not pinned by an update or its node has the slack |
| Capacity.StepKeepsCoverIff | internal/cloudplane/infra/store/service_run.go:417-439 | a step keeps the sum of held requests within allocated on every live node if and only if it is no delete of a pinned run without slack |
| Capacity.ClaimFits | internal/cloudplane/infra/store/service_run.go:417-439 | a run claim leaves allocated within allocatable, whatever it was before |
| Capacity.OnlyHeartbeatsOverfill | internal/cloudplane/infra/store/node.go:270-300 | only a heartbeat of the node itself can push allocated above allocatable |
| Capacity.RunKeepsCoverIff | internal/cloudplane/infra/store/service_run.go:417-439 | a run keeps the cover, the constraints and the generation agreement in each of its states if and only if every delete in it is harmless where it is taken |
| Capacity.RunFits | internal/cloudplane/infra/store/node.go:270-300 | and allocated stays within allocatable as long as heartbeats do not shrink below it |
| Capacity.NoOvercommit | internal/cloudplane/infra/store/service_run.go:417-439 | from the empty database, while deletes are harmless: the requests held on a live node fit its allocated columns and, without shrinking heartbeats, its capacity |
| Counterexamples.PinnedDeleteOvercommits | internal/cloudplane/infra/store/service_run.go:238-242 | a run from the empty database, sound in all its states, after which one delete leaves a running service uncounted |
| Counterexamples.LateCleanupStrandsRun | internal/cloudplane/control/node_reconciler.go:134-147 | a run of the whole plane from nothing: the cleanup reads the elastic row in provisioning, its node then registers, beats and claims, and the mark strands the run |
| Counterexamples.RepeatedAnswerTakesNodeDown | internal/cloudplane/control/node_reconciler.go:72-104 | a run of the whole plane from nothing: a node that beats with less than the run needs makes the reconciler ask again in the same name; answered with the same instance, it deletes the instance of a ready node |
| Counterexamples.DeletionBuysNode | internal/cloudplane/infra/store/node.go:341-383 | a run of the whole plane from nothing: while a deletion waits for its full node, the reconciler chooses it as the run to buy a node for |
| Reports.SettledIgnoresReports | internal/cloudplane/infra/store/service_run.go:600-634 | once a run has left deploying, no report changes services, runs or nodes |
| Reports.FirstReportSettles | internal/cloudplane/infra/store/service_run.go:600-634 | the first report that has an effect and is not `deploying` settles the run |
| Reports.StepKeepsSettled | internal/cloudplane/infra/store/service_run.go:686-712 | only a new claim makes it wait for a report again |
| Reports.ReportsAreReplays | internal/cloudplane/infra/store/service_run.go:590-634 | until the next claim, dropping all its reports from any run of the store changes nothing |
| Reports.GiveBacksBoundedByClaims | internal/cloudplane/infra/store/service_run.go:600-634 | in every run reports give reservations back at most once per claim |
| Snapshots.ServicesFromSnapshot | internal/controlplane/coordination/service_operations.go:372-397 | the index and the list built in loops are the per-service overlay, guarded by the generation |
| Snapshots.SnapshotCoherent | internal/cloudplane/api/controlplane/snapshot.go:60-70 | with any steps between the two reads, a service shown as anything but pending was active at that generation with a run of it when the executions were read, and it is shown ready, degraded or progressing exactly as that run was running, failed or neither |
| Snapshots.ActiveIsShown | internal/controlplane/coordination/plane_sync.go:158-177 | conversely every active service is shown at its generation, by the run read at that generation (ready exactly if it was running) and as pending if there was none |
| Snapshots.ShownOnce | internal/controlplane/coordination/service_operations.go:382-396 | and no service is shown twice |
| Provisioning.MoveKeepsInv | internal/cloudplane/control/node_reconciler.go:52-107 | every step of the reconciler and of every other thread keeps the invariant of the whole plane |
| Provisioning.EveryInterleaving | internal/cloudplane/control/node_reconciler.go:52-107 | so does every interleaving |
| Provisioning.FromEmptyPlane | internal/cloudplane/infra/store/node.go:341-383 | at most one row per derived name and type is in provisioning, active runs sit on usable nodes, and an instance without a row was made by a create request that went without an answer |
| Provisioning.CreateForgetsIff | internal/cloudplane/control/node_reconciler.go:72-90 | a create request forgets an instance if and only if it goes without an answer and has made one that no row carries |
| Provisioning.ForgottenUntilSeen | internal/cloudplane/infra/store/node.go:136-156 | a forgotten instance stays forgotten, whatever anybody does, exactly until its agent registers it or a create request is answered with it |
| Provisioning.SeenLateIsNotElastic | internal/cloudplane/infra/store/node.go:105-156 | the row its registration makes is not elastic |
| Provisioning.CreationSettles | internal/cloudplane/control/node_reconciler.go:60-106 | when the reconciler returns after creating a row, the row is bound, or it is deleted and the run is given up |
| NodeReconciler.NodeReconciler.ReconcileNodeDeletion | internal/cloudplane/control/node_reconciler.go:194-226 | drain, delete at the provider, mark deleted: one row ends deleted, or draining if the provider refuses, or untouched |
| NodeReconciler.NodeReconciler.ReconcileDeletableNodes | internal/cloudplane/control/node_reconciler.go:173-192 | the loop, in any order and past failures, treats every item; it reports an error exactly if one was refused |
| NodeReconciler.NodeReconciler.ReconcileTerminatingNodes | internal/cloudplane/control/node_reconciler.go:165-171 | all draining elastic nodes are treated |
| NodeReconciler.NodeReconciler.ReconcileIdleNodes | internal/cloudplane/control/node_reconciler.go:149-163 | ready elastic nodes are treated only while no run is pending or deploying |
| NodeReconciler.NodeReconciler.ReconcileStaleProvisioningNode | internal/cloudplane/control/node_reconciler.go:134-147 | instance, row and the pending runs of that name go together, or nothing changes |
| NodeReconciler.NodeReconciler.ReconcileStaleProvisioningNodes | internal/cloudplane/control/node_reconciler.go:109-132 | exactly the rows in provisioning since before the cutoff are cleaned |
| NodeReconciler.NodeReconciler.GetNodeProvisioningCandidate | internal/cloudplane/infra/store/node.go:338-401 | the candidate is the oldest pending run, and there is none only if no run is pending |
| NodeReconciler.NodeReconciler.ReconcilePendingExecutionCapacity | internal/cloudplane/control/node_reconciler.go:52-107 | nothing happens while there is room or a row is being provisioned; otherwise row, instance and run end consistent on every path |
| NodeReconciler.NodeReconciler.ReconcileOnce | internal/cloudplane/control/node_reconciler.go:35-50 | the four passes in order, ending at the first that fails or creates a node |
| Rounds.RoundIsHistory | internal/cloudplane/control/node_reconciler.go:35-226 | every round, however it ends, is a history of the moves that `Provisioning` interleaves with the other threads |
| Rounds.RoundKeepsPlane | internal/cloudplane/control/node_reconciler.go:35-226 | so whole rounds keep constraints, placement and single provisioning, and forget no instance but one an unanswered request of theirs made |
| ReconcileSpec.PassMore | internal/cloudplane/control/node_reconciler.go:173-192 | treating one node more is independent of those treated before |
| ReconcileSpec.CleanMore | internal/cloudplane/control/node_reconciler.go:109-132 | so is cleaning one stale row more |
| ScaleToZero.RoundScalesToZero | internal/cloudplane/control/node_reconciler.go:35-50 | with every run settled and no refusal, one round deletes every superfluous node and leaves runs, services and busy nodes untouched |
| ScaleToZero.RoundKeepsBusyInstances | internal/cloudplane/control/node_reconciler.go:194-232 | the instances of superfluous nodes are gone, those of busy nodes as alive as before |
| ScaleToZero.WaitingWorkKeepsReadyNodes | internal/cloudplane/control/node_reconciler.go:149-156 | while a run is pending or deploying after the first two passes, every node that was ready keeps its row |
| ScaleToZero.WaitingWorkKeepsInstancesIff | internal/cloudplane/control/node_reconciler.go:52-107 | and its instance is lost if and only if the round buys a node, is answered with that very instance, and deletes it because it cannot be bound to a second row |
| ScaleToZero.BoughtOrGivenUp | internal/cloudplane/control/node_reconciler.go:52-107 | the third pass adds a row if and only if the oldest pending run fits no ready schedulable node and no row is in provisioning for it; the row ends bound, or deleted with the run failed |
| ScaleToZero.BoughtForUnclaimable | internal/cloudplane/infra/store/node.go:341-383 | nobody who asks for work could be handed the run a node is bought for |
| ScaleToZero.CleanedIff | internal/cloudplane/control/node_reconciler.go:109-147 | the second pass deletes a row in provisioning if and only if it is elastic, was not written since the cutoff and its instance is not refused |
| ScaleToZero.FreshRowSurvives | internal/cloudplane/control/node_reconciler.go:118-120 | a row made after the cutoff is given more time |
| ScaleToZero.CleanedRunsIff | internal/cloudplane/infra/store/service_run.go:351-371 | with the deleted rows fail exactly the pending runs they were bought for |
| ScaleToZero.RefusedStaysDraining | internal/cloudplane/control/node_reconciler.go:217-219 | a refused draining node keeps row and instance, and the round ends with an error |
| ScaleToZero.RefusedIdleDrains | internal/cloudplane/control/node_reconciler.go:149-226 | a refused idle node is draining after the round |
| ScaleToZero.DrainingGoes | internal/cloudplane/control/node_reconciler.go:165-226 | from any state, a draining node whose instance is not refused is gone after the round |
| ScaleToZero.RetriedNextRound | internal/cloudplane/control/node_reconciler.go:165-226 | a node refused in one round is deleted in the next |
| Agent.StepKeepsInv | internal/nodeagent/daemon/daemon.go:142-334 | every step of either loop keeps the invariant of locks, fields and history |
| Agent.EveryInterleaving | internal/nodeagent/daemon/daemon.go:228-334 | the reset mark is empty or the registered node; work follows a successful reset of its node, if maybe from an earlier registration; the registered node is reset at most once per registration |
| Agent.OwnResetIff | internal/nodeagent/daemon/daemon.go:243-320 | however the loops go on, work of a registration's own epoch follows a reset since that registration, if and only if the other loop does not come back with an older reset of the same node |
| Agent.OneResetPerRegistrationIff | internal/nodeagent/daemon/daemon.go:228-320 | however the loops go on, at most one reset of any node succeeds between a registration and the next registration or clearing, if and only if the other loop is not on its way to reset another node when the registration returns |
| Agent.OneResetAfterClear | internal/nodeagent/daemon/daemon.go:298-334 | between a clearing and the next registration at most one reset succeeds |
| Agent.NoResetUnderWork | internal/nodeagent/daemon/daemon.go:298-320 | no reset of the registered node overlaps a heartbeat or work prepared in the same epoch |
| Agent.StaleLoopResetsOldNode | internal/nodeagent/daemon/daemon.go:298-320 | a run from boot with two successful resets, of two nodes, after one registration |
| Agent.RegistersOnlyFromNone | internal/nodeagent/daemon/daemon.go:228-263 | in every interleaving a node is registered only while none is: between two registrations the first was cleared |
| Agent.UnknownNodeRegistersAnew | internal/nodeagent/daemon/daemon.go:322-334 | a node the cloud plane does not know is forgotten and the next cycle registers; any other answer leaves node and mark alone |
| Agent.Runner.FinishRegistration | internal/nodeagent/daemon/daemon.go:243-263 | a new identifier clears the reset mark |
| Agent.Runner.AlreadyReset | internal/nodeagent/daemon/daemon.go:298-307 | the reset is skipped exactly if the mark names the node |
| Agent.Runner.MarkRuntimeReset | internal/nodeagent/daemon/daemon.go:314-319 | the mark is set only if the node is still the registered one |
| Agent.Runner.HandleNodeError | internal/nodeagent/daemon/daemon.go:322-334 | both fields are cleared, whatever they hold by then |
| Telemetry.SplitAttributes | internal/nodeagent/work/telemetry.go:93-119 | the loop over the escape flag splits at exactly the unescaped commas |
| Telemetry.CutUnescaped | internal/nodeagent/work/telemetry.go:122-138 | cuts at the first unescaped equals sign, or not at all |
| Telemetry.Unescape | internal/nodeagent/work/telemetry.go:140-159 | the loop is the recursive unescaping, a trailing backslash included |
| Telemetry.UnescapeReads | internal/nodeagent/work/telemetry.go:140-159 | a backslash stands for the next character, whichever it is, and at the end for itself |
| Telemetry.ParseAttributes | internal/nodeagent/work/telemetry.go:74-90 | later parts override earlier ones, unusable parts are skipped |
| Telemetry.BlanksAroundPartIgnored | internal/nodeagent/work/telemetry.go:76-80 | blanks around a part count for nothing, not even after a backslash |
| Telemetry.MergeAttributes | internal/nodeagent/work/telemetry.go:52-72 | in whatever order maps are visited, the printed form of the parsed map overridden by the usable entries |
| Telemetry.JoinSplit | internal/nodeagent/work/telemetry.go:93-119 | joining the parts gives back every text |
| Telemetry.UnescapeEscape | internal/nodeagent/work/telemetry.go:140-164 | unescaping inverts escaping |
| Telemetry.ParsePartsTidy | internal/nodeagent/work/telemetry.go:74-90 | parsing yields only trimmed, non-empty keys and values |
| Telemetry.ParsePrintReads | internal/nodeagent/work/telemetry.go:61-90 | what reading back a printed map gives when keys and values have blanks around them |
| Telemetry.ParsePrint | internal/nodeagent/work/telemetry.go:61-90 | parsing what was printed gives back a map of trimmed keys, each value trimmed |
| Telemetry.PrintIsInjective | internal/nodeagent/work/telemetry.go:61-72 | different maps are printed differently |
| Telemetry.RoundTrip | internal/nodeagent/work/telemetry.go:61-90 | printing and parsing are inverse on tidy maps |
| Telemetry.MergeLaw | internal/nodeagent/work/telemetry.go:52-90 | for every text: merge then parse is parse then override, if and only if the usable reserved entries are trimmed |
| Telemetry.MergeIsIdempotentIff | internal/nodeagent/work/telemetry.go:52-72 | merging the same entries again changes not a character of any text, if and only if every key that is taken is also taken without the blanks around it |
| Telemetry.MergeIsCanonical | internal/nodeagent/work/telemetry.go:61-72 | two texts merge to the same text if and only if they parse to the same map under the override, for any reserved entries |
| Telemetry.SanitizeIsTidy | internal/nodeagent/work/telemetry.go:43-50 | a sanitized value is trimmed, non-empty and free of separators |
| Telemetry.IdentityWins | internal/nodeagent/work/telemetry.go:32-40 | the platform's attributes always override the user's, whatever either contains |
| Telemetry.WorkloadIsIdentified | internal/nodeagent/work/telemetry.go:32-40 | the merged attributes read service, execution and platform under their names, and otherwise what the user wrote |
| Telemetry.InjectExporterEnv | internal/nodeagent/work/telemetry.go:15-31 | the exporter variables are set exactly when the endpoint is, the service name only when it is blank, the rest is the user's |
| Telemetry.InjectTelemetryEnv | internal/nodeagent/work/telemetry.go:15-41 | the same, with the identity overriding the user's attributes |
| Strings.TrimIsTrimmed | internal/nodeagent/work/telemetry.go:76-84 | trimming yields trimmed text and leaves exactly that alone |
| Strings.LeqIff | internal/nodeagent/work/telemetry.go:61-66 | the sort order: a prefix comes first, otherwise the first difference decides |
| Strings.SortedIsUnique | internal/nodeagent/work/telemetry.go:61-66 | a set of keys has one sorted listing |
| Strings.SortStrings | internal/nodeagent/work/telemetry.go:61-66 | the sorted listing of the given keys |
| FrontDoor.Service.SyncRoutes | internal/cloudplane/infra/frontdoor/service.go:74-155 | rows and CDN end exactly where the host-by-host specification says, on every failing path |
| FrontDoor.UnderIff | internal/cloudplane/infra/frontdoor/service.go:177-181 | under a domain are the domain and what a dot sets apart from it, not whatever ends in the same letters |
| FrontDoor.PrepareDomain | internal/cloudplane/infra/frontdoor/tencent.go:52-94 | a missing domain is prepared only together with a verification record |
| FrontDoor.EnsureHostFailsIff | internal/cloudplane/infra/frontdoor/service.go:94-121 | a host stops the sync exactly for a call that fails; one not verified or not configured yet does not hold up the others |
| FrontDoor.EnsureHostKeepsIff | internal/cloudplane/infra/frontdoor/service.go:94-121 | ensuring one host orphans nothing, if and only if it does not add the missing domain of a host without a row |
| FrontDoor.ReleaseHostKeeps | internal/cloudplane/infra/frontdoor/service.go:132-151 | a row is cleared only after its domain is gone; desired hosts and hosts outside are not deleted |
| FrontDoor.SyncKeepsTrackIff | internal/cloudplane/infra/frontdoor/service.go:74-155 | one sync of any routes, failing anywhere, orphans nothing, if and only if it adds no domain for a route host without a row |
| FrontDoor.SyncSparesDesired | internal/cloudplane/infra/frontdoor/service.go:132-151 | one sync of any routes deletes no desired host and none outside the base domain, and on success tracks desired hosts only |
| FrontDoor.SyncProgresses | internal/cloudplane/infra/frontdoor/service.go:94-121 | after a success every desired host has gone one step: a configured domain's name is recorded, a missing one has its verification record and, once verified, its domain |
| FrontDoorRuns.AloneIsSync | internal/cloudplane/infra/frontdoor/service.go:74-155 | made one after the other, the calls of a sync amount to `SyncRoutes` |
| FrontDoorRuns.EventKeepsTrackIff | internal/cloudplane/infra/frontdoor/service.go:94-151 | between any two calls of a sync: a call, a start, a new service, a changed host or a change at the CDN orphans nothing, if and only if no host changes while the plane has its domain and no domain is added for a host that no row tracks at that moment |
| FrontDoorRuns.NeverOrphanedIff | internal/cloudplane/infra/frontdoor/service.go:74-155 | over any interleaving of these every existing domain the plane made is tracked at all times, under exactly the same condition |
| FrontDoorRuns.SteadySyncsNeverOrphan | internal/cloudplane/infra/frontdoor/service.go:74-155 | in particular after any sequence of syncs, failing anywhere, whose routes have rows while hosts stay |
| FrontDoorRuns.RenameKeepsTrackIff | internal/cloudplane/infra/store/service.go:84-96 | a change of host keeps track if and only if the plane made no domain for the old host that still exists |
| FrontDoorRuns.RenameOrphans | internal/cloudplane/infra/store/service.go:84-96 | from an empty plane: a service is added, synced and given another host, and its domain is orphaned |
| FrontDoorRuns.RenameDuringSyncOrphans | internal/cloudplane/infra/frontdoor/service.go:98-110 | from an empty plane: the host changes after the record was saved, and the domain added next is orphaned |
| FrontDoorRuns.StaleRoutesOrphan | internal/cloudplane/control/ingress_reconciler.go:47-65 | from an empty plane: the host changes after the routes were built, and the domain of the old host is orphaned |
| Dns.RemarkIsInjective | internal/controlplane/coordination/dns.go:406-413 | for identifiers without blanks two remarks are equal exactly for equal service, plane and purpose |
| Dns.PurposeFromRemark | internal/controlplane/coordination/dns.go:415-422 | the loop finds the first field that names a purpose |
| Dns.PurposeOfRemark | internal/controlplane/coordination/dns.go:406-422 | a remark gives back the first word of its purpose |
| Dns.PurposeReadsBack | internal/controlplane/coordination/dns.go:406-422 | the purpose is read back if and only if it has no blanks |
| Dns.SubdomainIff | internal/controlplane/coordination/dns.go:358-367 | a host has a name in the zone if and only if it is the domain or what a dot sets apart from it, and which |
| Dns.DnsPodClient.EnsureRecord | internal/controlplane/coordination/dns.go:108-136 | the zone ends exactly where list, create, list again and modify lead, with others adding records meanwhile |
| Dns.DnsPodClient.EnsureAgainstExistingRecords | internal/controlplane/coordination/dns.go:220-233 | the first listed record decides: absent, foreign, up to date, or modified |
| Dns.DnsPodClient.DeleteRecord | internal/controlplane/coordination/dns.go:138-163 | the listed records of that owner and value are deleted up to the first failure |
| Dns.DnsPodClient.DeleteServiceRecords | internal/controlplane/coordination/dns.go:165-199 | the records of the page with that or their own purpose are deleted up to the first failure |
| Dns.EnsureTouchesOwn | internal/controlplane/coordination/dns.go:108-136 | only records made for the same plane, service and purpose change, and at most one, its own, is added |
| Dns.DeleteRecordTouchesOwn | internal/controlplane/coordination/dns.go:138-163 | only records whose remark names the same service, plane and purpose, and whose value fits if one is given, go; after a success all such listed ones are gone |
| Dns.DeletedRecordIsGone | internal/controlplane/coordination/dns.go:138-163 | where at most 100 records share name and kind, a success leaves exactly those of other owners or values |
| Dns.FailedDeleteEnds | internal/controlplane/coordination/dns.go:152-162 | the first delete that fails is the last one tried; what is listed after it stays |
| Dns.DeleteServiceTouchesOwn | internal/controlplane/coordination/dns.go:165-199 | no record of another plane or service goes |
| Dns.PurposeGoesIff | internal/controlplane/coordination/dns.go:165-199 | with a purpose exactly the records of that service, plane and purpose among the first 3000 go |
| Dns.ChosenIffOneWord | internal/controlplane/coordination/dns.go:174-192 | without a purpose a record of the service is chosen if and only if its own purpose is one word |
| Dns.AllOfServiceGoIff | internal/controlplane/coordination/dns.go:165-199 | after a success without a purpose all records of the service are gone, if and only if each lay on the first page, had a purpose of one word, and none was added after the listing |
| Dns.CrowdedZoneKeepsOne | internal/controlplane/coordination/dns.go:165-199 | a zone of 3001 records of one service, of which one is left although every delete succeeds |
| Dns.EnsureSettlesIff | internal/controlplane/coordination/dns.go:108-136 | after a success the record is first in its listing with value and remark, if and only if nobody put another one before it between the list and the create |
| Dns.EnsureTwiceIff | internal/controlplane/coordination/dns.go:220-233 | ensuring it again changes nothing and succeeds, under exactly the same condition |
| Dns.ForeignRecordStays | internal/controlplane/coordination/dns.go:226-228 | a foreign first record is left alone and reported |
| Dns.OwnRecordSettled | internal/controlplane/coordination/dns.go:220-233 | a first record of the same owner stays if its value is the one asked for in whatever form, and otherwise gets that value in canonical form |
| Dns.BlankRecordRefused | internal/controlplane/coordination/dns.go:400-404 | a record without plane, service, host, kind or purpose is refused |
| Dns.MadeThenDeleted | internal/controlplane/coordination/dns.go:108-163 | the round trip: what `EnsureRecord` makes, `DeleteRecord` of the same record takes away, and the zone is what it was |
| Dns.MadeThenServiceDeleted | internal/controlplane/coordination/dns.go:108-199 | and `DeleteServiceRecords` takes it away, asked for its purpose, or for none if that is one word |
| Ingress.BuildRoutes | internal/cloudplane/control/ingress_reconciler.go:71-113 | the loop over hosts and map is the per-host filter of the sources; it fails exactly on a node read that fails |
| Ingress.HostsInOrder | internal/cloudplane/control/ingress_reconciler.go:76-86 | every non-blank host once, in first-seen order |
| Ingress.BackendsInOrder | internal/cloudplane/control/ingress_reconciler.go:87-104 | backends keep the order of the sources |
| Ingress.BackendsAreLive | internal/cloudplane/infra/store/service_run.go:249-267 | a route has exactly the backends of running, current-generation runs of active public services on nodes seen ready with an address |
| Ingress.PublicServicesHaveRoutes | internal/cloudplane/infra/store/service_run.go:249-267 | exactly the active public services have routes |
| Ingress.AtMostOneBackend | internal/cloudplane/infra/store/service_run.go:249-267 | unique hosts give at most one backend per route |
| Ingress.BackendIsInjective | internal/cloudplane/control/ingress_reconciler.go:104 | a backend names one address and one port, of either family |
| Ingress.ReportedPortIsRouted | internal/cloudplane/infra/store/service_run.go:249-267 | from a report to a route: a host is sent to the address of the node that reported its run running, at the port reported |
| HostPorts.SelectAvailableHostPort | internal/nodeagent/runtime/docker.go:417-438 | the first port in range that is neither excluded nor busy decides; failure means none, or a probe that would not close |
| HostPorts.Run | internal/nodeagent/runtime/docker.go:66-106 | the unbounded loop ends: distinct ports of the range, each freshly probed, all but the last in conflict, success exactly on the last |
| HostPorts.AttemptsBounded | internal/nodeagent/runtime/docker.go:66-106 | there are at most max - min + 1 attempts |

## Left out

- SQL and Postgres: a transaction is one atomic step; statement-level READ COMMITTED interleavings, `SKIP LOCKED`
  and the integer range of the columns are not modelled.
- Textual validation and normalisation: blank checks, name patterns and IP syntax are one flag (`textOk`);
  identifiers, hosts and record types are taken in their trimmed, lower-case form; invalid UTF-8 is excluded.
- Derived names and identifiers: the md5 of a node name is an arbitrary function, new row identifiers are parameters.
- Time: each operation gets its `now`; a reconciler round has one `now` and one cutoff.
- Status reasons, started/finished times and other columns nothing depends on.
- Store.Store.MarkStaleNodeHeartbeatsOffline: answers the sets of nodes and runs whose sizes the source returns.
- Store.Store.FailPendingRuns: one update instead of a scan for the derived name; its caller computes the matching set.
- Provisioning.EveryInterleaving: cleaning up one stale provisioning row is a single step; with the read apart from
  the mark the property is false (`Counterexamples.LateCleanupStrandsRun`). The provider echoes name and type. A store
  call that fails in the database itself and a process crash between create and bind are not modelled.
- Provisioning.FromEmptyPlane: instances made by unanswered requests are excepted, because it is false for them.
- NodeReconciler.NodeReconciler.ReconcileOnce: runs without other threads in between; `Provisioning` covers interleavings.
  A delete the provider reports as failed leaves the instance; `Provisioning` also has those that took effect.
- Agent.Runner: the calls to the cloud plane and Docker themselves, shutdown and timers; a step boundary stands for each call.
- FrontDoor.Service: a service built without a store, and a failing list of tracked rows (an error before any call).
- FrontDoorRuns.NeverOrphanedIff: the base domain is fixed; domains that others add at the CDN are theirs.
- Dns.AllOfServiceGoIff: between listing and deletes others add records, but do not rewrite the listed ones.
- Dns.DnsPodClient: SDK requests, credentials, and list entries without identifier, value, name or type; the
  canonical form of a value is an arbitrary function, idempotent where a theorem says so.
- Ingress: the order of the query (a collation) is any order of the sources; pushing routes to Caddy.
- HostPorts.Run: image pull, container configuration, start and port detection around the loop.
- The fate of containers behind superseded runs, readiness probes, gRPC, TLS, tokens, HTTP handlers, inventory
  and metrics, configuration, internal/ops and the web UI.
