/** The store itself: three mutable tables and the transactions on them. Each method does
    what its transaction does, statement after statement, and is proved to take the tables
    exactly to the state `StoreSpec` says. */
module Store {
  import opened StoreModel
  import Spec = StoreSpec
  import opened StoreTables
  import Sweep

  class Store {
    var services: map<ServiceId, ServiceRow>
    var runs: map<ServiceId, RunRow>
    var nodes: map<NodeId, NodeRow>

    ghost function View(): State
      reads this
    {
      State(services, runs, nodes)
    }

    ghost predicate Valid()
      reads this
    {
      Tables(View())
    }

    constructor ()
      ensures Valid() && View() == EMPTY
    {
      services, runs, nodes := map[], map[], map[];
    }

    // ---- Statements shared by several transactions ----

    method FreeNodeAllocation(n: NodeId, request: Resources, now: Time)
      modifies this`nodes
      ensures nodes == Spec.FreeOn(old(nodes), n, request, now)
    {
      if n in nodes {
        nodes := nodes[n := nodes[n].(allocation := nodes[n].allocation.Less(request), updatedAt := now)];
      }
    }

    method Rollback(services: map<ServiceId, ServiceRow>, runs: map<ServiceId, RunRow>, nodes: map<NodeId, NodeRow>)
      modifies this
      ensures View() == State(services, runs, nodes)
    {
      this.services, this.runs, this.nodes := services, runs, nodes;
    }

    // ---- Services ----

    /** The run half of an upsert. Answers whether the transaction may commit. */
    method UpsertServiceRun(input: Spec.UpsertInput, runId: RunId, now: Time) returns (ok: bool)
      requires input.Valid()
      modifies this`runs, this`nodes
      ensures ok <==> input.id in old(runs) || !Spec.RunIdTaken(old(View()), runId)
      ensures input.id in old(runs) && old(runs)[input.id].generation >= input.generation ==>
                runs == old(runs) && nodes == old(nodes)
      ensures input.id in old(runs) && old(runs)[input.id].generation < input.generation ==>
                && runs == old(runs)[input.id := Spec.SupersedingRun(old(runs)[input.id], input, now)]
                && nodes == (if old(runs)[input.id].node.Some? && old(runs)[input.id].status == Running
                             then Spec.FreeOn(old(nodes), old(runs)[input.id].node.value,
                                              old(runs)[input.id].request, now)
                             else old(nodes))
      ensures ok && input.id !in old(runs) ==>
                runs == old(runs)[input.id := Spec.FirstRun(runId, input, now)] && nodes == old(nodes)
    {
      if input.id in runs {
        var current := runs[input.id];
        if current.generation >= input.generation {
          return true;
        }
        if current.node.Some? && current.status == Running {
          FreeNodeAllocation(current.node.value, current.request, now);
        }
        var run := current.(
          serviceName := input.name, generation := input.generation, exposure := input.spec.exposure,
          workload := input.spec.workload, request := input.Request(),
          node := None, containerName := "", containerId := "", hostPort := 0, status := Pending, updatedAt := now);
        if current.node.Some? && current.status == Running {
          run := run.(node := current.node);
          if current.containerId != "" {
            run := run.(containerName := current.containerName, containerId := current.containerId,
                        hostPort := current.hostPort);
          }
        }
        runs := runs[input.id := run];
        return true;
      }
      if exists i :: i in runs && runs[i].id == runId {
        return false;
      }
      runs := runs[input.id := Spec.FirstRun(runId, input, now)];
      return true;
    }

    method UpsertService(input: Spec.UpsertInput, runId: RunId, now: Time) returns (r: Result<ServiceRow>)
      requires Valid()
      modifies this
      ensures Valid() && (View(), r) == Spec.UpsertService(old(View()), input, runId, now)
    {
      UpsertKeepsTables(View(), input, runId, now);
      if !input.Valid() {
        return Err(Invalid);
      }
      if input.id in services && Spec.StaleUpsert(services[input.id], input.generation) {
        return Ok(services[input.id]);
      }
      if Spec.NameOrHostTaken(State(services, runs, nodes), input) {
        return Err(UniqueViolation);
      }
      var before := services;
      var row := Spec.UpsertedService(State(services, runs, nodes), input, now);
      services := services[input.id := row];
      var runsBefore, nodesBefore := runs, nodes;
      var ok := UpsertServiceRun(input, runId, now);
      if !ok {
        Rollback(before, runsBefore, nodesBefore);
        return Err(UniqueViolation);
      }
      return Ok(row);
    }

    /** The run half of a delete. */
    method DeleteServiceRun(id: ServiceId, generation: int, now: Time)
      modifies this`runs, this`nodes
      ensures id !in old(runs) ==> runs == old(runs) && nodes == old(nodes)
      ensures id in old(runs) && Spec.KeepsContainerForDelete(old(runs)[id]) ==>
                && runs == old(runs)[
                     id := old(runs)[id].(generation := generation, status := Pending, updatedAt := now)]
                && nodes == old(nodes)
      ensures id in old(runs) && !Spec.KeepsContainerForDelete(old(runs)[id]) ==>
                && runs == old(runs) - {id}
                && nodes == (if old(runs)[id].node.Some?
                                && (old(runs)[id].status == Deploying || old(runs)[id].status == Pending)
                             then Spec.FreeOn(old(nodes), old(runs)[id].node.value, old(runs)[id].request, now)
                             else old(nodes))
    {
      if id !in runs {
        return;
      }
      var run := runs[id];
      if run.status == Running && run.node.Some? && run.containerId != "" {
        runs := runs[id := run.(generation := generation, status := Pending, updatedAt := now)];
        return;
      }
      if run.node.Some? && (run.status == Deploying || run.status == Pending) {
        FreeNodeAllocation(run.node.value, run.request, now);
      }
      runs := runs - {id};
    }

    method DeleteService(id: ServiceId, generation: int, textOk: bool, now: Time) returns (r: Result<()>)
      requires Valid()
      modifies this
      ensures Valid() && (View(), r) == Spec.DeleteService(old(View()), id, generation, textOk, now)
    {
      DeleteKeepsTables(View(), id, generation, textOk, now);
      if !textOk || generation <= 0 {
        return Err(Invalid);
      }
      if id !in services {
        return Err(ServiceNotFound);
      }
      var g := generation;
      if g < services[id].generation {
        g := services[id].generation;
      }
      services := services[id := services[id].(generation := g, desired := DesiredDeleted, updatedAt := now)];
      DeleteServiceRun(id, g, now);
      return Ok(());
    }

    method MarkServiceRunFailed(id: ServiceId, now: Time) returns (r: Result<()>)
      requires Valid()
      modifies this`runs
      ensures Valid() && (View(), r) == Spec.MarkServiceRunFailed(old(View()), id, now)
    {
      FailKeepsTables(View(), id, {}, now);
      if id == "" {
        return Err(Invalid);
      }
      if id in runs && (runs[id].status == Pending || runs[id].status == Deploying) {
        runs := runs[id := runs[id].(status := Failed, updatedAt := now)];
      }
      return Ok(());
    }

    method FailPendingRuns(matching: set<ServiceId>, now: Time)
      requires Valid()
      modifies this`runs
      ensures Valid() && View() == Spec.FailPendingRuns(old(View()), matching, now)
    {
      FailKeepsTables(View(), "", matching, now);
      runs := map i | i in runs ::
        if i in matching && runs[i].status == Pending then runs[i].(status := Failed, updatedAt := now) else runs[i];
    }

    // ---- Claims ----

    /** `ORDER BY updated_at, id LIMIT 1` over the deletions waiting on `n`. */
    method OldestDelete(n: NodeId) returns (pick: Option<ServiceId>)
      ensures pick == None ==> forall j :: !Spec.DeleteClaimable(View(), n, j)
      ensures pick.Some? ==>
                && Spec.DeleteClaimable(View(), n, pick.value)
                && forall j :: Spec.DeleteClaimable(View(), n, j) ==>
                     Spec.Older(runs[pick.value].updatedAt, runs[pick.value].id, runs[j].updatedAt, runs[j].id)
    {
      pick := None;
      var rest := runs.Keys;
      while rest != {}
        invariant rest <= runs.Keys
        invariant pick == None ==> forall j | j in runs && j !in rest :: !Spec.DeleteClaimable(View(), n, j)
        invariant pick.Some? ==>
                    && pick.value !in rest
                    && Spec.DeleteClaimable(View(), n, pick.value)
                    && forall j | j !in rest :: Spec.DeleteClaimable(View(), n, j) ==>
                         Spec.Older(runs[pick.value].updatedAt, runs[pick.value].id, runs[j].updatedAt, runs[j].id)
        decreases rest
      {
        var i :| i in rest;
        rest := rest - {i};
        if Spec.DeleteClaimable(State(services, runs, nodes), n, i) {
          if pick == None
             || !Spec.Older(runs[pick.value].updatedAt, runs[pick.value].id, runs[i].updatedAt, runs[i].id) {
            pick := Some(i);
          }
        }
      }
    }

    /** `ORDER BY created_at, id LIMIT 1` over the runs that fit on `n`. */
    method OldestRun(n: NodeId) returns (pick: Option<ServiceId>)
      requires n in nodes
      ensures pick == None ==> forall j :: !Spec.RunClaimable(View(), n, j)
      ensures pick.Some? ==>
                && Spec.RunClaimable(View(), n, pick.value)
                && forall j :: Spec.RunClaimable(View(), n, j) ==>
                     Spec.Older(runs[pick.value].createdAt, runs[pick.value].id, runs[j].createdAt, runs[j].id)
    {
      pick := None;
      var rest := runs.Keys;
      while rest != {}
        invariant rest <= runs.Keys
        invariant pick == None ==> forall j | j in runs && j !in rest :: !Spec.RunClaimable(View(), n, j)
        invariant pick.Some? ==>
                    && pick.value !in rest
                    && Spec.RunClaimable(View(), n, pick.value)
                    && forall j | j !in rest :: Spec.RunClaimable(View(), n, j) ==>
                         Spec.Older(runs[pick.value].createdAt, runs[pick.value].id, runs[j].createdAt, runs[j].id)
        decreases rest
      {
        var i :| i in rest;
        rest := rest - {i};
        if Spec.RunClaimable(State(services, runs, nodes), n, i) {
          if pick == None
             || !Spec.Older(runs[pick.value].createdAt, runs[pick.value].id, runs[i].createdAt, runs[i].id) {
            pick := Some(i);
          }
        }
      }
    }

    method MarkServiceRunDeploying(i: ServiceId, n: NodeId, containerName: string, now: Time)
      requires i in runs
      modifies this`runs
      ensures runs == old(runs)[i := Spec.ClaimedRun(old(runs)[i], n, containerName, now)]
    {
      runs := runs[i := runs[i].(node := Some(n), containerName := containerName, status := Deploying,
                                 updatedAt := now)];
    }

    /** `claimPendingDeleteRun`. */
    method ClaimPendingDeleteRun(n: NodeId, now: Time)
      returns (work: Option<Spec.WorkItem>, ghost choice: Spec.ClaimChoice)
      requires Valid() && n in nodes && nodes[n].status == Ready
      modifies this`runs
      ensures work == None ==> View() == old(View()) && forall i :: !Spec.DeleteClaimable(View(), n, i)
      ensures work.Some? ==>
                && choice.DeleteWork? && Spec.ClaimSelects(old(View()), n, choice)
                && Valid() && (View(), work) == Spec.ClaimServiceRun(old(View()), n, choice, now)
    {
      var oldest := OldestDelete(n);
      if oldest == None {
        return None, Spec.NoWork;
      }
      var run := runs[oldest.value];
      choice := Spec.DeleteWork(oldest.value);
      ClaimKeepsTables(View(), n, choice, now);
      MarkServiceRunDeploying(oldest.value, n, run.containerName, now);
      work := Some(Spec.WorkItem(Spec.DeleteAction, run.id, n, oldest.value, run.serviceName, run.workload,
                                 run.containerName, run.containerId, run.hostPort));
    }

    /** `claimPendingRun`. */
    method ClaimPendingRun(n: NodeId, now: Time) returns (work: Option<Spec.WorkItem>, ghost choice: Spec.ClaimChoice)
      requires Valid() && n in nodes && nodes[n].status == Ready && nodes[n].schedulable
      requires forall i :: !Spec.DeleteClaimable(View(), n, i)
      modifies this`runs, this`nodes
      ensures Spec.ClaimSelects(old(View()), n, choice)
      ensures Valid() && (View(), work) == Spec.ClaimServiceRun(old(View()), n, choice, now)
    {
      var oldest := OldestRun(n);
      if oldest == None {
        return None, Spec.NoWork;
      }
      var run := runs[oldest.value];
      var name := Spec.RunContainerName(oldest.value, run.generation);
      choice := Spec.RunWork(oldest.value);
      ClaimKeepsTables(View(), n, choice, now);
      MarkServiceRunDeploying(oldest.value, n, name, now);
      nodes := nodes[n := nodes[n].(allocation := nodes[n].allocation.Plus(run.request), updatedAt := now)];
      work := Some(Spec.WorkItem(Spec.RunAction, run.id, n, oldest.value, run.serviceName, run.workload,
                                 name, run.containerId, run.hostPort));
    }

    /** Deletions waiting on the node go first. */
    method ClaimServiceRun(n: NodeId, now: Time) returns (work: Option<Spec.WorkItem>, ghost choice: Spec.ClaimChoice)
      requires Valid()
      modifies this`runs, this`nodes
      ensures Spec.ClaimSelects(old(View()), n, choice)
      ensures Valid() && (View(), work) == Spec.ClaimServiceRun(old(View()), n, choice, now)
    {
      if n !in nodes || nodes[n].status != Ready {
        return None, Spec.NoWork;
      }
      work, choice := ClaimPendingDeleteRun(n, now);
      if work.Some? {
        return;
      }
      if !nodes[n].schedulable {
        return None, Spec.NoWork;
      }
      work, choice := ClaimPendingRun(n, now);
    }

    // ---- Reports ----

    method UpdateExecutionFromNodeReport(n: NodeId, execution: RunId, input: Spec.ReportInput, now: Time)
      returns (r: Result<RunRow>)
      requires Valid()
      modifies this
      ensures Valid() && (View(), r) == Spec.Report(old(View()), n, execution, input, now)
    {
      ReportKeepsTables(View(), n, execution, input, now);
      if !input.Valid() {
        return Err(Invalid);
      }
      if i :| i in runs && Spec.Reported(State(services, runs, nodes), n, execution, i) {
        ReportIsOn(View(), n, execution, i, input, now);
        var current := runs[i];
        if current.status != Deploying {
          if current.status == input.status {
            return Ok(current);
          }
          return Err(AlreadyReported(current.status));
        }
        if input.hostPort < 0 {
          return Err(CheckViolation);
        }
        var updated := current.(containerName := input.containerName, containerId := input.containerId,
                                hostPort := input.hostPort, status := input.status, updatedAt := now);
        runs := runs[i := updated];
        if input.status == Failed || input.status == Succeeded {
          FreeNodeAllocation(n, current.request, now);
        }
        if input.status == Succeeded && services[i].desired == DesiredDeleted {
          runs := runs - {i};
          assert runs == old(runs) - {i};
        }
        return Ok(updated);
      }
      return Err(ExecutionNotFound);
    }

    // ---- Nodes ----

    method CreateProvisioningNode(input: Spec.ProvisioningInput, id: NodeId, now: Time) returns (r: Result<NodeRow>)
      requires Valid()
      modifies this`nodes
      ensures Valid() && (View(), r) == Spec.CreateProvisioningNode(old(View()), input, id, now)
    {
      CreateKeepsTables(View(), input, id, now);
      if !input.textOk {
        return Err(Invalid);
      }
      if id in nodes {
        return Err(UniqueViolation);
      }
      var row := NodeRow(input.provider, input.region, input.name, "", None, input.instanceType,
                         NOTHING, NOTHING, NOTHING, Provisioning, false, true, None, now, now);
      nodes := nodes[id := row];
      return Ok(row);
    }

    method BindProvisionedNode(n: NodeId, instanceId: string, name: string, instanceType: string, now: Time)
      returns (r: Result<NodeRow>)
      requires Valid()
      modifies this`nodes
      ensures Valid() && (View(), r) == Spec.BindProvisionedNode(old(View()), n, instanceId, name, instanceType, now)
    {
      BindKeepsTables(View(), n, instanceId, name, instanceType, now);
      if n !in nodes || nodes[n].status != Provisioning {
        return Err(NodeNotFound);
      }
      if instanceId != "" && Spec.InstanceTaken(State(services, runs, nodes), n, nodes[n].provider, instanceId) {
        return Err(UniqueViolation);
      }
      var row := nodes[n].(instanceId := if instanceId == "" then None else Some(instanceId),
                           name := name, instanceType := instanceType, updatedAt := now);
      nodes := nodes[n := row];
      return Ok(row);
    }

    method RegisterNode(input: Spec.RegisterInput, id: NodeId, now: Time) returns (r: Result<NodeId>)
      requires Valid()
      modifies this`nodes
      ensures Valid() && (View(), r) == Spec.RegisterNode(old(View()), input, id, now)
    {
      RegisterKeepsTables(View(), input, id, now);
      if !input.Valid() {
        return Err(Invalid);
      }
      if n :| n in nodes && nodes[n].provider == input.provider && nodes[n].instanceId == Some(input.instanceId) {
        RegisterIsOn(View(), input, n, id, now);
        var row := nodes[n].(region := input.region, name := input.name, privateIp := input.privateIp,
                             instanceType := input.instanceType,
                             total := Resources(input.cpuTotal, input.memTotal), updatedAt := now);
        if row.status == Draining || row.status == Deleted {
          row := row.(schedulable := false);
        } else {
          row := row.(status := Registering, schedulable := true);
        }
        nodes := nodes[n := row];
        return Ok(n);
      }
      if id in nodes {
        return Err(UniqueViolation);
      }
      nodes := nodes[id := Spec.NewlyRegistered(input, now)];
      return Ok(id);
    }

    method RecordNodeHeartbeat(n: NodeId, cpu: int, mem: int, now: Time) returns (r: Result<NodeStatus>)
      requires Valid()
      modifies this`nodes
      ensures Valid() && (View(), r) == Spec.RecordNodeHeartbeat(old(View()), n, cpu, mem, now)
    {
      HeartbeatKeepsTables(View(), n, cpu, mem, now);
      if cpu <= 0 || mem <= 0 {
        return Err(Invalid);
      }
      if n !in nodes {
        return Err(NodeNotFound);
      }
      var row := nodes[n];
      if cpu > row.total.cpu || mem > row.total.mem {
        return Err(AllocatableTooLarge);
      }
      var status, schedulable := Ready, true;
      if row.status == Draining || row.status == Deleted {
        status, schedulable := row.status, false;
      }
      var changed := row.allocatable != Resources(cpu, mem) || row.status != status || row.schedulable != schedulable;
      nodes := nodes[n := row.(allocatable := Resources(cpu, mem), status := status, schedulable := schedulable,
                               lastHeartbeat := Some(now), updatedAt := if changed then now else row.updatedAt)];
      return Ok(status);
    }

    method PrepareNodeDeletion(n: NodeId, now: Time) returns (r: Result<(NodeRow, bool)>)
      requires Valid()
      modifies this`nodes
      ensures Valid() && (View(), r) == Spec.PrepareNodeDeletion(old(View()), n, now)
    {
      PrepareKeepsTables(View(), n, now);
      if n !in nodes {
        return Err(NodeNotFound);
      }
      var row := nodes[n];
      if row.status == Draining {
        return Ok((row, true));
      }
      if row.status != Ready || !row.elastic || row.instanceId == None {
        return Ok((row, false));
      }
      if Spec.HasActiveRun(State(services, runs, nodes), n) {
        return Ok((row, false));
      }
      row := row.(status := Draining, schedulable := false, updatedAt := now);
      nodes := nodes[n := row];
      return Ok((row, true));
    }

    method MarkNodeDeleted(n: NodeId, now: Time) returns (r: Result<NodeRow>)
      requires Valid()
      modifies this`nodes
      ensures Valid() && (View(), r) == Spec.MarkNodeDeleted(old(View()), n, now)
    {
      MarkDeletedKeepsTables(View(), n, now);
      if n !in nodes {
        return Err(NodeNotFound);
      }
      nodes := nodes[n := Spec.DeletedRow(nodes[n], now)];
      return Ok(nodes[n]);
    }

    // ---- The offline sweep ----

    /** Fails the unfinished runs of one stale node, giving back their requests one by one. */
    method FailServiceRunsForOfflineNode(n: NodeId, now: Time) returns (failed: set<ServiceId>)
      requires n in nodes && nodes[n].updatedAt == now
      modifies this`runs, this`nodes
      ensures failed == Sweep.ImpactedRuns(old(View()), n)
      ensures runs == Sweep.FailedRuns(old(runs), failed, now)
      ensures nodes == Sweep.Freed(old(nodes), n, Sum(Spec.ImpactedRequests(old(View()), n)))
    {
      var impacted := set i | i in runs && runs[i].node == Some(n) && Spec.Unfinished(runs[i].status);
      ghost var requests := Spec.ImpactedRequests(View(), n);
      Sweep.FreeNone(nodes, n, requests);
      assert requests.Keys == impacted;
      failed := {};
      var rest := impacted;
      while rest != {}
        invariant rest <= impacted && failed == impacted - rest
        invariant runs == Sweep.FailedRuns(old(runs), failed, now)
        invariant nodes == Sweep.Freed(old(nodes), n, Sum(requests - rest))
        decreases rest
      {
        var i :| i in rest;
        var request := runs[i].request;
        Sweep.FreeOneMore(old(nodes), n, requests, rest, i, now);
        runs := runs[i := runs[i].(status := Failed, updatedAt := now)];
        FreeNodeAllocation(n, request, now);
        failed := failed + {i};
        rest := rest - {i};
        assert runs == Sweep.FailedRuns(old(runs), failed, now);
      }
    }

    /** One turn of the sweep that started in `s`: the node goes offline, then its runs fail. */
    method SweepStaleNode(n: NodeId, now: Time, ghost s: State, ghost done: set<NodeId>, ghost cutoff: Time)
      returns (failed: set<ServiceId>)
      requires Spec.Stale(s, n, cutoff) && n !in done && View() == Sweep.PartlySwept(s, done, cutoff, now)
      modifies this`runs, this`nodes
      ensures View() == Sweep.PartlySwept(s, done + {n}, cutoff, now)
      ensures Sweep.RunsOf(s, done + {n}) == Sweep.RunsOf(s, done) + failed
    {
      ghost var before := View();
      Sweep.SweepTurn(s, before, done, n, cutoff, now);
      nodes := nodes[n := nodes[n].(status := Offline, schedulable := false, updatedAt := now)];
      Sweep.RequestsIgnoreNodes(before, nodes, n);
      failed := FailServiceRunsForOfflineNode(n, now);
      assert View() == Sweep.SweepNode(before, n, now);
    }

    /** Answers which nodes went offline and which runs failed with them. */
    method SweepStaleNodes(cutoff: Time, now: Time) returns (offline: set<NodeId>, failed: set<ServiceId>)
      modifies this`runs, this`nodes
      ensures offline == Sweep.StaleNodes(old(View()), cutoff)
      ensures failed == Sweep.RunsOf(old(View()), offline)
      ensures View() == Sweep.PartlySwept(old(View()), offline, cutoff, now)
    {
      ghost var s := View();
      Sweep.SweepStarts(s, cutoff, now);
      var rest := set n | n in nodes && Spec.StaleRow(nodes[n], cutoff);
      ghost var stale := rest;
      assert stale == Sweep.StaleNodes(s, cutoff);
      offline, failed := {}, {};
      while rest != {}
        invariant offline !! rest && offline + rest == stale
        invariant failed == Sweep.RunsOf(s, offline)
        invariant View() == Sweep.PartlySwept(s, offline, cutoff, now)
        decreases rest
      {
        var n :| n in rest;
        var failedOnNode := SweepStaleNode(n, now, s, offline, cutoff);
        offline, failed, rest := offline + {n}, failed + failedOnNode, rest - {n};
      }
      assert offline == stale;
    }

    method MarkStaleNodeHeartbeatsOffline(cutoff: Time, now: Time)
      returns (offline: set<NodeId>, failed: set<ServiceId>)
      requires Valid()
      modifies this`runs, this`nodes
      ensures Valid() && View() == Spec.MarkStaleNodeHeartbeatsOffline(old(View()), cutoff, now)
      ensures offline == Sweep.StaleNodes(old(View()), cutoff) && failed == Sweep.RunsOf(old(View()), offline)
    {
      SweepKeepsTables(View(), cutoff, now);
      Sweep.SweepEnds(View(), cutoff, now);
      offline, failed := SweepStaleNodes(cutoff, now);
    }
  }
}
