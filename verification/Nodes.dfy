/** The life of a node's row: joining, beating, falling silent, leaving. */
module Nodes {
  import opened StoreModel
  import opened StoreSpec
  import opened Placement
  import Sweep

  // ---- Joining ----

  /** A registration carries over what the node says about itself. An instance that has a row
      keeps it, with its capacity and its work; a row on its way out stays on its way out. */
  lemma KnownInstanceRegisters(s: State, input: RegisterInput, id: NodeId, now: Time, n: NodeId)
    requires InstancesDiffer(s.nodes) && n in s.nodes
    requires s.nodes[n].provider == input.provider && s.nodes[n].instanceId == Some(input.instanceId)
    requires input.textOk && input.instanceId != "" && input.cpuTotal > 0 && input.memTotal > 0
    ensures
      var (after, r) := RegisterNode(s, input, id, now);
      && r == Ok(n) && after.nodes.Keys == s.nodes.Keys
      && (forall m | m in s.nodes && m != n :: after.nodes[m] == s.nodes[m])
      && var row, next := s.nodes[n], after.nodes[n];
         && next.region == input.region && next.name == input.name && next.privateIp == input.privateIp
         && next.instanceType == input.instanceType
         && next.total.cpu == input.cpuTotal && next.total.mem == input.memTotal
         && next.provider == row.provider && next.instanceId == row.instanceId && next.elastic == row.elastic
         && next.allocatable == row.allocatable && next.allocation == row.allocation
         && next.lastHeartbeat == row.lastHeartbeat && next.createdAt == row.createdAt && next.updatedAt == now
         && (if row.status == Draining || row.status == Deleted then next.status == row.status && !next.schedulable
             else next.status == Registering && next.schedulable)
  {
    assert IsInstance(s, input.provider, input.instanceId, n);
  }

  /** An instance without a row gets one, empty and not elastic. */
  lemma UnknownInstanceRegisters(s: State, input: RegisterInput, id: NodeId, now: Time)
    requires forall m | m in s.nodes ::
               s.nodes[m].provider != input.provider || s.nodes[m].instanceId != Some(input.instanceId)
    ensures
      var (after, r) := RegisterNode(s, input, id, now);
      if !input.textOk || input.instanceId == "" || input.cpuTotal <= 0 || input.memTotal <= 0 then
        after == s && r == Err(Invalid)
      else if id in s.nodes then after == s && r == Err(UniqueViolation)
      else
        && r == Ok(id) && after.nodes.Keys == s.nodes.Keys + {id}
        && (forall m | m in s.nodes :: after.nodes[m] == s.nodes[m])
        && var row := after.nodes[id];
           && row.provider == input.provider && row.region == input.region && row.name == input.name
           && row.privateIp == input.privateIp && row.instanceId == Some(input.instanceId)
           && row.instanceType == input.instanceType
           && row.total.cpu == input.cpuTotal && row.total.mem == input.memTotal
           && row.allocatable == row.allocation == NOTHING && row.lastHeartbeat == None
           && row.status == Registering && row.schedulable && !row.elastic && row.createdAt == row.updatedAt == now
  {
    assert forall m :: !IsInstance(s, input.provider, input.instanceId, m);
  }

  // ---- Beating ----

  /** A heartbeat is refused exactly for nonsense, for an unknown node and for more than the
      node has in total, column by column. */
  lemma HeartbeatAcceptedIff(s: State, n: NodeId, cpu: int, mem: int, now: Time)
    ensures
      var (after, r) := RecordNodeHeartbeat(s, n, cpu, mem, now);
      && (r.Ok? <==> cpu > 0 && mem > 0 && n in s.nodes
                     && cpu <= s.nodes[n].total.cpu && mem <= s.nodes[n].total.mem)
      && (r.Err? ==> after == s)
      && (r == Err(AllocatableTooLarge) <==> cpu > 0 && mem > 0 && n in s.nodes
                                             && !(cpu <= s.nodes[n].total.cpu && mem <= s.nodes[n].total.mem))
      && (r == Err(NodeNotFound) <==> cpu > 0 && mem > 0 && n !in s.nodes)
  {}

  /** An accepted one is remembered with its capacity, and makes the node ready unless it is
      leaving. Only a change of these columns counts as an update of the row. */
  lemma HeartbeatIsKept(s: State, n: NodeId, cpu: int, mem: int, now: Time)
    requires RecordNodeHeartbeat(s, n, cpu, mem, now).1.Ok?
    ensures
      var (after, r) := RecordNodeHeartbeat(s, n, cpu, mem, now);
      && n in s.nodes && after.nodes.Keys == s.nodes.Keys
      && after.runs == s.runs && after.services == s.services
      && (forall m | m in s.nodes && m != n :: after.nodes[m] == s.nodes[m])
      && var row, next := s.nodes[n], after.nodes[n];
         && r.value == next.status && next.lastHeartbeat == Some(now)
         && next.allocatable.cpu == cpu && next.allocatable.mem == mem
         && (if row.status == Draining || row.status == Deleted then next.status == row.status && !next.schedulable
             else next.status == Ready && next.schedulable)
         && next.total == row.total && next.allocation == row.allocation && next.privateIp == row.privateIp
         && next.instanceId == row.instanceId && next.elastic == row.elastic
         && next.updatedAt == (if next.allocatable == row.allocatable && next.status == row.status
                                  && next.schedulable == row.schedulable then row.updatedAt else now)
  {}

  /** A new node that beats: a heartbeat within the totals it registered with opens exactly that
      capacity for work, and a larger one is refused. */
  lemma JoinedNodeOpensCapacity(s: State, input: RegisterInput, id: NodeId, now: Time, cpu: int, mem: int, later: Time)
    requires forall m | m in s.nodes ::
               s.nodes[m].provider != input.provider || s.nodes[m].instanceId != Some(input.instanceId)
    requires id !in s.nodes && RegisterNode(s, input, id, now).1.Ok?
    ensures
      var joined := RegisterNode(s, input, id, now).0;
      var (after, r) := RecordNodeHeartbeat(joined, id, cpu, mem, later);
      && (r.Ok? <==> 0 < cpu <= input.cpuTotal && 0 < mem <= input.memTotal)
      && (r.Ok? ==> id in after.nodes && after.nodes[id].status == Ready && after.nodes[id].schedulable
                    && after.nodes[id].allocation == NOTHING
                    && after.nodes[id].allocatable == Resources(cpu, mem))
  {
    UnknownInstanceRegisters(s, input, id, now);
    HeartbeatAcceptedIff(RegisterNode(s, input, id, now).0, id, cpu, mem, later);
  }

  // ---- Falling silent ----

  /** The sweep takes offline exactly the nodes that beat before, but not since the cutoff, and
      were still counted on; every other row stays as it is. */
  lemma SweptIff(s: State, cutoff: Time, now: Time, n: NodeId)
    ensures
      var after := MarkStaleNodeHeartbeatsOffline(s, cutoff, now);
      && (n in Sweep.StaleNodes(s, cutoff) <==>
            && n in s.nodes && s.nodes[n].lastHeartbeat.Some? && s.nodes[n].lastHeartbeat.value < cutoff
            && (s.nodes[n].status == Provisioning || s.nodes[n].status == Registering || s.nodes[n].status == Ready))
      && after.nodes.Keys == s.nodes.Keys
      && (n in s.nodes && n !in Sweep.StaleNodes(s, cutoff) ==> after.nodes[n] == s.nodes[n])
      && (n in Sweep.StaleNodes(s, cutoff) ==>
            && after.nodes[n].status == Offline && !after.nodes[n].schedulable && after.nodes[n].updatedAt == now
            && after.nodes[n].lastHeartbeat == s.nodes[n].lastHeartbeat
            && after.nodes[n].allocatable == s.nodes[n].allocatable)
  {}

  /** The runs that fail with them are exactly the pending, deploying and running ones on them;
      the columns of a failed run other than its status stay. */
  lemma SweptRunsIff(s: State, cutoff: Time, now: Time, i: ServiceId)
    requires i in s.runs
    ensures
      var after, run := MarkStaleNodeHeartbeatsOffline(s, cutoff, now), s.runs[i];
      && after.runs.Keys == s.runs.Keys && after.services == s.services
      && (if && run.node.Some? && run.node.value in Sweep.StaleNodes(s, cutoff)
             && (run.status == Pending || run.status == Deploying || run.status == Running)
          then after.runs[i] == run.(status := Failed, updatedAt := now)
          else after.runs[i] == run)
      && (i in Sweep.RunsOf(s, Sweep.StaleNodes(s, cutoff)) <==>
            && run.node.Some? && run.node.value in Sweep.StaleNodes(s, cutoff)
            && (run.status == Pending || run.status == Deploying || run.status == Running))
  {}

  /** After a sweep nobody counts on a node that has been silent since before the cutoff. */
  lemma NobodySilentAfterSweep(s: State, cutoff: Time, now: Time, n: NodeId)
    requires n in s.nodes
    ensures
      var row := MarkStaleNodeHeartbeatsOffline(s, cutoff, now).nodes[n];
      row.status == Ready || row.status == Registering || row.status == Provisioning ==>
        row.lastHeartbeat == None || row.lastHeartbeat.value >= cutoff
  {}

  /** A node that beat at or after the cutoff comes out of the sweep as its heartbeat left it,
      and so do its runs. */
  lemma BeatSurvivesSweep(s: State, n: NodeId, cpu: int, mem: int, at: Time, cutoff: Time, now: Time)
    requires RecordNodeHeartbeat(s, n, cpu, mem, at).1.Ok? && cutoff <= at
    ensures
      var beaten := RecordNodeHeartbeat(s, n, cpu, mem, at).0;
      var after := MarkStaleNodeHeartbeatsOffline(beaten, cutoff, now);
      && n in after.nodes && n in beaten.nodes && after.nodes[n] == beaten.nodes[n]
      && forall i | i in s.runs && s.runs[i].node == Some(n) :: i in after.runs && after.runs[i] == s.runs[i]
  {}

  /** The node is not offline, and has beaten at `since` or later. */
  predicate Heard(s: State, n: NodeId, since: Time) {
    && n in s.nodes && s.nodes[n].status != Offline
    && s.nodes[n].lastHeartbeat.Some? && since <= s.nodes[n].lastHeartbeat.value
  }

  /** Heartbeats of `n` come no earlier than `since`, and sweeps look no further than it. */
  predicate InTime(step: Step, n: NodeId, since: Time) {
    && (step.op.OpHeartbeat? && step.op.node == n ==> since <= step.now)
    && (step.op.OpSweep? ==> step.op.cutoff <= since)
  }

  lemma WorkStepKeepsHeard(s: State, step: Step, n: NodeId, since: Time)
    requires Heard(s, n, since) && Enabled(s, step.op)
    requires step.op.OpUpsert? || step.op.OpDelete? || step.op.OpClaim? || step.op.OpReport?
          || step.op.OpMarkFailed? || step.op.OpFailPending?
    ensures Heard(Next(s, step), n, since)
  {}

  lemma NodeStepKeepsHeard(s: State, step: Step, n: NodeId, since: Time)
    requires Heard(s, n, since) && Enabled(s, step.op) && InTime(step, n, since)
    requires step.op.OpCreateNode? || step.op.OpBind? || step.op.OpRegister? || step.op.OpHeartbeat?
          || step.op.OpPrepareDeletion? || step.op.OpMarkDeleted? || step.op.OpSweep?
    ensures Heard(Next(s, step), n, since)
  {}

  /** Over any run of the store a node that keeps beating is never taken offline. */
  lemma {:induction false} BeatingNodeStaysOnline(s: State, steps: seq<Step>, n: NodeId, since: Time)
    requires Heard(s, n, since) && Feasible(s, steps)
    requires forall k | 0 <= k < |steps| :: InTime(steps[k], n, since)
    ensures Heard(Exec(s, steps), n, since)
    decreases |steps|
  {
    if steps != [] {
      var step := steps[0];
      assert InTime(step, n, since);
      if step.op.OpUpsert? || step.op.OpDelete? || step.op.OpClaim? || step.op.OpReport?
         || step.op.OpMarkFailed? || step.op.OpFailPending? {
        WorkStepKeepsHeard(s, step, n, since);
      } else {
        NodeStepKeepsHeard(s, step, n, since);
      }
      BeatingNodeStaysOnline(Next(s, step), steps[1..], n, since);
    }
  }

  // ---- Being bought and leaving ----

  /** A row for a node to buy is refused exactly for a blank or a taken identifier; it is elastic,
      has nothing yet and takes no work. */
  lemma CreatedIff(s: State, input: ProvisioningInput, id: NodeId, now: Time)
    ensures
      var (after, r) := CreateProvisioningNode(s, input, id, now);
      && (r.Ok? <==> input.textOk && id !in s.nodes)
      && (r.Err? ==> after == s)
      && (r.Ok? ==>
            && after.nodes.Keys == s.nodes.Keys + {id} && after.runs == s.runs && after.services == s.services
            && (forall m | m in s.nodes :: after.nodes[m] == s.nodes[m])
            && after.nodes[id] == r.value
            && r.value.provider == input.provider && r.value.region == input.region && r.value.name == input.name
            && r.value.instanceType == input.instanceType && r.value.instanceId == None && r.value.privateIp == ""
            && r.value.status == Provisioning && !r.value.schedulable && r.value.elastic
            && r.value.total == r.value.allocatable == r.value.allocation == NOTHING
            && r.value.lastHeartbeat == None && r.value.createdAt == r.value.updatedAt == now)
  {}

  /** Only a row in provisioning is bound, and never to an instance that another row of the
      provider carries. */
  lemma BoundIff(s: State, n: NodeId, instanceId: string, name: string, instanceType: string, now: Time)
    ensures
      var (after, r) := BindProvisionedNode(s, n, instanceId, name, instanceType, now);
      && (r.Ok? <==>
            && n in s.nodes && s.nodes[n].status == Provisioning
            && (instanceId == "" || forall m | m in s.nodes && m != n && s.nodes[m].provider == s.nodes[n].provider ::
                                      s.nodes[m].instanceId != Some(instanceId)))
      && (r.Err? ==> after == s)
      && (r.Ok? ==>
            && after.nodes.Keys == s.nodes.Keys && after.nodes[n] == r.value
            && (forall m | m in s.nodes && m != n :: after.nodes[m] == s.nodes[m])
            && r.value.instanceId == (if instanceId == "" then None else Some(instanceId))
            && r.value.name == name && r.value.instanceType == instanceType && r.value.status == Provisioning
            && r.value.elastic == s.nodes[n].elastic && r.value.updatedAt == now)
  {}

  /** A node may go exactly if it drains already, or is an idle elastic one with an instance;
      the answer says so, and such a node, no other, starts draining and takes no more work. */
  lemma MayGoIff(s: State, n: NodeId, now: Time)
    requires n in s.nodes
    ensures
      var (after, r) := PrepareNodeDeletion(s, n, now);
      var idle := s.nodes[n].status == Ready && s.nodes[n].elastic && s.nodes[n].instanceId.Some?
                  && forall i | i in s.runs && s.runs[i].node == Some(n) ::
                       s.runs[i].status != Deploying && s.runs[i].status != Running;
      && r.Ok? && after.runs == s.runs && after.services == s.services && after.nodes.Keys == s.nodes.Keys
      && (r.value.1 <==> s.nodes[n].status == Draining || idle)
      && r.value.0 == after.nodes[n]
      && (forall m | m in s.nodes && m != n :: after.nodes[m] == s.nodes[m])
      && (!idle ==> after.nodes[n] == s.nodes[n])
      && (idle ==> after.nodes[n].status == Draining && !after.nodes[n].schedulable
                   && after.nodes[n].instanceId == s.nodes[n].instanceId && after.nodes[n].elastic)
  {}

  /** A node that may go gets no more work: no claim, whatever happens until it is gone. */
  lemma LeavingNodeClaimsNothing(s: State, n: NodeId, now: Time, steps: seq<Step>, c: ClaimChoice)
    requires PrepareNodeDeletion(s, n, now).1.Ok? && PrepareNodeDeletion(s, n, now).1.value.1
    requires Feasible(PrepareNodeDeletion(s, n, now).0, steps)
    requires ClaimSelects(Exec(PrepareNodeDeletion(s, n, now).0, steps), n, c)
    ensures c == NoWork
  {
    RunLeaves(PrepareNodeDeletion(s, n, now).0, steps);
  }

  /** A deleted row keeps no address, no instance and no allocation. */
  lemma DeletedRowIsBare(s: State, n: NodeId, now: Time)
    requires n in s.nodes
    ensures
      var (after, r) := MarkNodeDeleted(s, n, now);
      && after.runs == s.runs && after.services == s.services && after.nodes.Keys == s.nodes.Keys
      && (forall m | m in s.nodes && m != n :: after.nodes[m] == s.nodes[m])
      && r == Ok(after.nodes[n])
      && after.nodes[n].status == Deleted && !after.nodes[n].schedulable && after.nodes[n].privateIp == ""
      && after.nodes[n].instanceId == None && after.nodes[n].allocation == NOTHING && after.nodes[n].updatedAt == now
      && after.nodes[n].total == s.nodes[n].total && after.nodes[n].name == s.nodes[n].name
  {}
}
