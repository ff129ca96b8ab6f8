/** Where work may sit over the life of a node: a run that is being started or runs is
    always on a node that is ready or registering. */
module Placement {
  import opened StoreModel
  import opened StoreSpec

  predicate Usable(status: NodeStatus) {
    status == Ready || status == Registering
  }

  predicate Active(status: RunStatus) {
    status == Deploying || status == Running
  }

  ghost predicate ActiveRunsOnUsableNodes(s: State) {
    forall i | i in s.runs && Active(s.runs[i].status) ::
      s.runs[i].node.Some? && s.runs[i].node.value in s.nodes && Usable(s.nodes[s.runs[i].node.value].status)
  }

  /** A provisioning row has no capacity yet (which is what turns heartbeats, and with them
      the sweep, away from it), and a deleted row no instance (which is what turns
      registrations away from it). */
  predicate RowInOrder(row: NodeRow) {
    && (row.schedulable <==> Usable(row.status))
    && (row.status == Provisioning ==> row.total.cpu == 0 && row.total.mem == 0 && row.lastHeartbeat == None)
    && (row.status == Deleted ==> row.instanceId == None)
  }

  ghost predicate Placed(s: State) {
    && ActiveRunsOnUsableNodes(s)
    && forall n | n in s.nodes :: RowInOrder(s.nodes[n])
  }

  /** No row is marked deleted under an active run. */
  predicate Careful(s: State, op: Op) {
    op.OpMarkDeleted? ==> !HasActiveRun(s, op.node)
  }

  /** A row that is being provisioned or drained has no active run to begin with. */
  lemma UnusableIsIdle(s: State, n: NodeId)
    requires Placed(s) && n in s.nodes && !Usable(s.nodes[n].status)
    ensures !HasActiveRun(s, n)
  {}

  // ---- One step ----

  lemma UpsertPlaces(s: State, input: UpsertInput, runId: RunId, now: Time)
    requires Placed(s)
    ensures Placed(UpsertService(s, input, runId, now).0)
  {}

  lemma DeletePlaces(s: State, id: ServiceId, generation: int, textOk: bool, now: Time)
    requires Placed(s)
    ensures Placed(DeleteService(s, id, generation, textOk, now).0)
  {}

  lemma FailsPlace(s: State, id: ServiceId, matching: set<ServiceId>, now: Time)
    requires Placed(s)
    ensures Placed(MarkServiceRunFailed(s, id, now).0)
    ensures Placed(FailPendingRuns(s, matching, now))
  {}

  lemma ClaimPlaces(s: State, n: NodeId, c: ClaimChoice, now: Time)
    requires Placed(s) && ClaimSelects(s, n, c)
    ensures Placed(ClaimServiceRun(s, n, c, now).0)
  {}

  lemma ReportPlaces(s: State, n: NodeId, execution: RunId, input: ReportInput, now: Time)
    requires Placed(s)
    ensures Placed(Report(s, n, execution, input, now).0)
  {
    if i :| Reported(s, n, execution, i) {
    }
  }

  lemma CreatePlaces(s: State, input: ProvisioningInput, id: NodeId, now: Time)
    requires Placed(s)
    ensures Placed(CreateProvisioningNode(s, input, id, now).0)
  {}

  lemma BindPlaces(s: State, n: NodeId, instanceId: string, name: string, instanceType: string, now: Time)
    requires Placed(s)
    ensures Placed(BindProvisionedNode(s, n, instanceId, name, instanceType, now).0)
  {}

  lemma RegisterPlaces(s: State, input: RegisterInput, id: NodeId, now: Time)
    requires Placed(s)
    ensures Placed(RegisterNode(s, input, id, now).0)
  {}

  lemma HeartbeatPlaces(s: State, n: NodeId, cpu: int, mem: int, now: Time)
    requires Placed(s)
    ensures Placed(RecordNodeHeartbeat(s, n, cpu, mem, now).0)
  {}

  lemma PreparePlaces(s: State, n: NodeId, now: Time)
    requires Placed(s)
    ensures Placed(PrepareNodeDeletion(s, n, now).0)
  {
    assert forall i | i in s.runs && s.runs[i].node == Some(n) && Active(s.runs[i].status) :: HasActiveRun(s, n);
  }

  /** Marking a row deleted is safe exactly when no active run sits on it. */
  lemma MarkDeletedPlacesIff(s: State, n: NodeId, now: Time)
    requires Placed(s) && n in s.nodes
    ensures Placed(MarkNodeDeleted(s, n, now).0) <==> !HasActiveRun(s, n)
  {
    var after := MarkNodeDeleted(s, n, now).0;
    if HasActiveRun(s, n) {
      var i :| i in s.runs && s.runs[i].node == Some(n) && Active(s.runs[i].status);
      assert i in after.runs && !Usable(after.nodes[n].status);
    }
  }

  lemma SweepPlaces(s: State, cutoff: Time, now: Time)
    requires Placed(s)
    ensures Placed(MarkStaleNodeHeartbeatsOffline(s, cutoff, now))
  {}

  lemma OtherStepsPlace(s: State, step: Step)
    requires Placed(s) && Enabled(s, step.op) && !step.op.OpMarkDeleted?
    ensures Placed(Next(s, step))
  {
    var now := step.now;
    match step.op {
      case OpUpsert(input, runId) => UpsertPlaces(s, input, runId, now);
      case OpDelete(id, generation, textOk) => DeletePlaces(s, id, generation, textOk, now);
      case OpMarkFailed(id) => FailsPlace(s, id, {}, now);
      case OpFailPending(matching) => FailsPlace(s, "", matching, now);
      case OpClaim(n, choice) => ClaimPlaces(s, n, choice, now);
      case OpReport(n, execution, report) => ReportPlaces(s, n, execution, report, now);
      case OpCreateNode(input, id) => CreatePlaces(s, input, id, now);
      case OpBind(n, instanceId, name, instanceType) => BindPlaces(s, n, instanceId, name, instanceType, now);
      case OpRegister(input, id) => RegisterPlaces(s, input, id, now);
      case OpHeartbeat(n, cpu, mem) => HeartbeatPlaces(s, n, cpu, mem, now);
      case OpPrepareDeletion(n) => PreparePlaces(s, n, now);
      case OpSweep(cutoff) => SweepPlaces(s, cutoff, now);
    }
  }

  /** Every step keeps placement, except for a mark on a node that carries an active run; and
      that one always breaks it. */
  lemma StepPlacesIff(s: State, step: Step)
    requires Placed(s) && Enabled(s, step.op)
    ensures Placed(Next(s, step)) <==> Careful(s, step.op)
  {
    if !step.op.OpMarkDeleted? {
      OtherStepsPlace(s, step);
    } else if step.op.node in s.nodes {
      MarkDeletedPlacesIff(s, step.op.node, step.now);
    }
  }

  // ---- Every run ----

  ghost predicate CarefulRun(s: State, steps: seq<Step>)
    requires Feasible(s, steps)
    decreases |steps|
  {
    steps == [] || (Careful(s, steps[0].op) && CarefulRun(Next(s, steps[0]), steps[1..]))
  }

  ghost predicate PlacedThroughout(s: State, steps: seq<Step>)
    requires Feasible(s, steps)
    decreases |steps|
  {
    Placed(s) && (steps == [] || PlacedThroughout(Next(s, steps[0]), steps[1..]))
  }

  /** In each state of a run no active run sits on a provisioning, offline, draining or deleted
      node, and a node is schedulable exactly while it is registering or ready — exactly when
      no step marks a node deleted under an active run. */
  lemma {:induction false} RunPlacesIff(s: State, steps: seq<Step>)
    requires Placed(s) && Feasible(s, steps)
    ensures PlacedThroughout(s, steps) <==> CarefulRun(s, steps)
    ensures CarefulRun(s, steps) ==> Placed(Exec(s, steps))
    decreases |steps|
  {
    if steps != [] {
      var after := Next(s, steps[0]);
      StepPlacesIff(s, steps[0]);
      if Placed(after) {
        RunPlacesIff(after, steps[1..]);
      }
    }
  }

  // ---- The end of a node's life ----

  /** Draining leads only to deleted, deleted stays deleted, and no row disappears. */
  predicate Leaves(before: NodeStatus, after: NodeStatus) {
    && (before == Draining ==> after == Draining || after == Deleted)
    && (before == Deleted ==> after == Deleted)
  }

  ghost predicate NodesLeave(s: State, after: State) {
    forall n | n in s.nodes :: n in after.nodes && Leaves(s.nodes[n].status, after.nodes[n].status)
  }

  lemma WorkStepsLeave(s: State, step: Step)
    requires Enabled(s, step.op)
    requires step.op.OpUpsert? || step.op.OpDelete? || step.op.OpMarkFailed? || step.op.OpFailPending?
          || step.op.OpClaim? || step.op.OpReport?
    ensures NodesLeave(s, Next(s, step))
  {}

  lemma RowStepsLeave(s: State, step: Step)
    requires Enabled(s, step.op)
    requires step.op.OpCreateNode? || step.op.OpBind? || step.op.OpPrepareDeletion? || step.op.OpMarkDeleted?
    ensures NodesLeave(s, Next(s, step))
  {}

  lemma RegistrationLeaves(s: State, input: RegisterInput, id: NodeId, now: Time)
    ensures NodesLeave(s, RegisterNode(s, input, id, now).0)
  {}

  lemma HeartbeatLeaves(s: State, n: NodeId, cpu: int, mem: int, now: Time)
    ensures NodesLeave(s, RecordNodeHeartbeat(s, n, cpu, mem, now).0)
  {}

  lemma SweepLeaves(s: State, cutoff: Time, now: Time)
    ensures NodesLeave(s, MarkStaleNodeHeartbeatsOffline(s, cutoff, now))
  {}

  lemma StepLeaves(s: State, step: Step)
    requires Enabled(s, step.op)
    ensures NodesLeave(s, Next(s, step))
  {
    match step.op {
      case OpUpsert(_, _) => WorkStepsLeave(s, step);
      case OpDelete(_, _, _) => WorkStepsLeave(s, step);
      case OpMarkFailed(_) => WorkStepsLeave(s, step);
      case OpFailPending(_) => WorkStepsLeave(s, step);
      case OpClaim(_, _) => WorkStepsLeave(s, step);
      case OpReport(_, _, _) => WorkStepsLeave(s, step);
      case OpSweep(cutoff) => SweepLeaves(s, cutoff, step.now);
      case OpRegister(input, id) => RegistrationLeaves(s, input, id, step.now);
      case OpHeartbeat(n, cpu, mem) => HeartbeatLeaves(s, n, cpu, mem, step.now);
      case _ => RowStepsLeave(s, step);
    }
  }

  lemma {:induction false} RunLeaves(s: State, steps: seq<Step>)
    requires Feasible(s, steps)
    ensures NodesLeave(s, Exec(s, steps))
    decreases |steps|
  {
    if steps != [] {
      StepLeaves(s, steps[0]);
      RunLeaves(Next(s, steps[0]), steps[1..]);
    }
  }
}
