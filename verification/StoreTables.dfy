/** The constraints of the schema survive every transaction. */
module StoreTables {
  import opened StoreModel
  import opened StoreSpec

  lemma OneNodeChanged(nodes: map<NodeId, NodeRow>, n: NodeId, row: NodeRow)
    requires InstancesDiffer(nodes)
    requires row.instanceId.Some? ==> forall m | m in nodes && m != n ::
               nodes[m].provider != row.provider || nodes[m].instanceId != row.instanceId
    ensures InstancesDiffer(nodes[n := row])
  {}

  lemma SameInstance(nodes: map<NodeId, NodeRow>, n: NodeId, row: NodeRow)
    requires InstancesDiffer(nodes)
    requires n in nodes && row.provider == nodes[n].provider && row.instanceId == nodes[n].instanceId
    ensures InstancesDiffer(nodes[n := row]) && nodes[n := row].Keys == nodes.Keys
  {
    OneNodeChanged(nodes, n, row);
  }

  lemma FreeKeepsInstances(nodes: map<NodeId, NodeRow>, n: NodeId, request: Resources, now: Time)
    requires InstancesDiffer(nodes)
    ensures FreeOn(nodes, n, request, now).Keys == nodes.Keys
    ensures InstancesDiffer(FreeOn(nodes, n, request, now))
  {
    if n in nodes {
      SameInstance(nodes, n, FreeOn(nodes, n, request, now)[n]);
    }
  }

  lemma OneServiceChanged(services: map<ServiceId, ServiceRow>, i: ServiceId, row: ServiceRow)
    requires NamesAndHostsDiffer(services)
    requires forall j | j in services && j != i :: services[j].name != row.name && services[j].host != row.host
    ensures NamesAndHostsDiffer(services[i := row])
  {}

  lemma OneRunChanged(runs: map<ServiceId, RunRow>, i: ServiceId, run: RunRow)
    requires RunIdsDiffer(runs)
    requires forall j | j in runs && j != i :: runs[j].id != run.id
    ensures RunIdsDiffer(runs[i := run])
  {}

  lemma UpsertKeepsTables(s: State, input: UpsertInput, runId: RunId, now: Time)
    requires Tables(s)
    ensures Tables(UpsertService(s, input, runId, now).0)
  {
    var after := UpsertService(s, input, runId, now).0;
    if after != s {
      OneServiceChanged(s.services, input.id, UpsertedService(s, input, now));
      if input.id in s.runs {
        var current := s.runs[input.id];
        OneRunChanged(s.runs, input.id, SupersedingRun(current, input, now));
        if current.node.Some? {
          FreeKeepsInstances(s.nodes, current.node.value, current.request, now);
        }
      } else {
        OneRunChanged(s.runs, input.id, FirstRun(runId, input, now));
      }
    }
  }

  lemma DeleteKeepsTables(s: State, id: ServiceId, generation: int, textOk: bool, now: Time)
    requires Tables(s)
    ensures Tables(DeleteService(s, id, generation, textOk, now).0)
  {
    var after := DeleteService(s, id, generation, textOk, now).0;
    if after != s {
      OneServiceChanged(s.services, id, after.services[id]);
      if id in s.runs {
        if KeepsContainerForDelete(s.runs[id]) {
          OneRunChanged(s.runs, id, after.runs[id]);
        } else if s.runs[id].node.Some? {
          FreeKeepsInstances(s.nodes, s.runs[id].node.value, s.runs[id].request, now);
        }
      }
    }
  }

  lemma ClaimKeepsTables(s: State, n: NodeId, c: ClaimChoice, now: Time)
    requires Tables(s) && ClaimSelects(s, n, c)
    ensures Tables(ClaimServiceRun(s, n, c, now).0)
  {
    var after := ClaimServiceRun(s, n, c, now).0;
    if c != NoWork {
      OneRunChanged(s.runs, c.id, after.runs[c.id]);
      if c.RunWork? {
        SameInstance(s.nodes, n, after.nodes[n]);
      }
    }
  }

  lemma ReportKeepsTables(s: State, n: NodeId, execution: RunId, input: ReportInput, now: Time)
    requires Tables(s)
    ensures Tables(Report(s, n, execution, input, now).0)
  {
    if i :| Reported(s, n, execution, i) {
      var run := s.runs[i];
      FreeKeepsInstances(s.nodes, n, run.request, now);
      OneRunChanged(s.runs, i, ReportedRun(run, input, now));
    }
  }

  lemma FailKeepsTables(s: State, id: ServiceId, matching: set<ServiceId>, now: Time)
    requires Tables(s)
    ensures Tables(MarkServiceRunFailed(s, id, now).0)
    ensures Tables(FailPendingRuns(s, matching, now))
  {
    if id in s.runs {
      OneRunChanged(s.runs, id, s.runs[id].(status := Failed, updatedAt := now));
    }
    var after := FailPendingRuns(s, matching, now);
    assert forall i | i in after.runs :: after.runs[i].id == s.runs[i].id;
    assert RunIdsDiffer(after.runs);
  }

  lemma CreateKeepsTables(s: State, input: ProvisioningInput, id: NodeId, now: Time)
    requires Tables(s)
    ensures Tables(CreateProvisioningNode(s, input, id, now).0)
  {
    var after := CreateProvisioningNode(s, input, id, now).0;
    if after != s {
      OneNodeChanged(s.nodes, id, after.nodes[id]);
    }
  }

  lemma BindKeepsTables(s: State, n: NodeId, instanceId: string, name: string, instanceType: string, now: Time)
    requires Tables(s)
    ensures Tables(BindProvisionedNode(s, n, instanceId, name, instanceType, now).0)
  {
    var after := BindProvisionedNode(s, n, instanceId, name, instanceType, now).0;
    if after != s {
      OneNodeChanged(s.nodes, n, after.nodes[n]);
    }
  }

  lemma RegisterKeepsTables(s: State, input: RegisterInput, id: NodeId, now: Time)
    requires Tables(s)
    ensures Tables(RegisterNode(s, input, id, now).0)
  {
    if input.Valid() {
      if n :| IsInstance(s, input.provider, input.instanceId, n) {
        SameInstance(s.nodes, n, Reregistered(s.nodes[n], input, now));
      } else if id !in s.nodes {
        forall m | m in s.nodes
          ensures s.nodes[m].provider != input.provider || s.nodes[m].instanceId != Some(input.instanceId)
        {
          assert !IsInstance(s, input.provider, input.instanceId, m);
        }
        OneNodeChanged(s.nodes, id, NewlyRegistered(input, now));
      }
    }
  }

  lemma HeartbeatKeepsTables(s: State, n: NodeId, cpu: int, mem: int, now: Time)
    requires Tables(s)
    ensures Tables(RecordNodeHeartbeat(s, n, cpu, mem, now).0)
  {
    var after := RecordNodeHeartbeat(s, n, cpu, mem, now).0;
    if after != s {
      SameInstance(s.nodes, n, after.nodes[n]);
    }
  }

  lemma PrepareKeepsTables(s: State, n: NodeId, now: Time)
    requires Tables(s)
    ensures Tables(PrepareNodeDeletion(s, n, now).0)
  {
    var after := PrepareNodeDeletion(s, n, now).0;
    if after != s {
      SameInstance(s.nodes, n, after.nodes[n]);
    }
  }

  lemma MarkDeletedKeepsTables(s: State, n: NodeId, now: Time)
    requires Tables(s)
    ensures Tables(MarkNodeDeleted(s, n, now).0)
  {
    if n in s.nodes {
      OneNodeChanged(s.nodes, n, DeletedRow(s.nodes[n], now));
    }
  }

  lemma SweepKeepsTables(s: State, cutoff: Time, now: Time)
    requires Tables(s)
    ensures Tables(MarkStaleNodeHeartbeatsOffline(s, cutoff, now))
  {
    var after := MarkStaleNodeHeartbeatsOffline(s, cutoff, now);
    assert forall i | i in after.runs :: after.runs[i].id == s.runs[i].id && after.runs[i].node == s.runs[i].node;
    assert forall n | n in after.nodes ::
      after.nodes[n].provider == s.nodes[n].provider && after.nodes[n].instanceId == s.nodes[n].instanceId;
  }

  /** Primary keys, unique columns and references hold after any step. */
  lemma StepKeepsTables(s: State, step: Step)
    requires Tables(s) && Enabled(s, step.op)
    ensures Tables(Next(s, step))
  {
    var now := step.now;
    match step.op {
      case OpUpsert(input, runId) => UpsertKeepsTables(s, input, runId, now);
      case OpDelete(id, generation, textOk) => DeleteKeepsTables(s, id, generation, textOk, now);
      case OpMarkFailed(id) => FailKeepsTables(s, id, {}, now);
      case OpFailPending(matching) => FailKeepsTables(s, "", matching, now);
      case OpClaim(n, choice) => ClaimKeepsTables(s, n, choice, now);
      case OpReport(n, execution, report) => ReportKeepsTables(s, n, execution, report, now);
      case OpCreateNode(input, id) => CreateKeepsTables(s, input, id, now);
      case OpBind(n, instanceId, name, instanceType) => BindKeepsTables(s, n, instanceId, name, instanceType, now);
      case OpRegister(input, id) => RegisterKeepsTables(s, input, id, now);
      case OpHeartbeat(n, cpu, mem) => HeartbeatKeepsTables(s, n, cpu, mem, now);
      case OpPrepareDeletion(n) => PrepareKeepsTables(s, n, now);
      case OpMarkDeleted(n) => MarkDeletedKeepsTables(s, n, now);
      case OpSweep(cutoff) => SweepKeepsTables(s, cutoff, now);
    }
  }

  lemma {:induction false} RunKeepsTables(s: State, steps: seq<Step>)
    requires Tables(s) && Feasible(s, steps)
    ensures Tables(Exec(s, steps))
    decreases |steps|
  {
    if steps != [] {
      StepKeepsTables(s, steps[0]);
      RunKeepsTables(Next(s, steps[0]), steps[1..]);
    }
  }

  /** A report concerns one row: run identifiers are unique. */
  lemma ReportIsOn(s: State, n: NodeId, execution: RunId, i: ServiceId, input: ReportInput, now: Time)
    requires RunIdsDiffer(s.runs) && input.Valid() && Reported(s, n, execution, i)
    ensures Report(s, n, execution, input, now) == ReportOn(s, n, i, input, now)
  {
    forall j | Reported(s, n, execution, j)
      ensures j == i
    {}
  }

  /** Likewise a registration concerns at most one existing row. */
  lemma RegisterIsOn(s: State, input: RegisterInput, n: NodeId, id: NodeId, now: Time)
    requires InstancesDiffer(s.nodes) && input.Valid() && IsInstance(s, input.provider, input.instanceId, n)
    ensures RegisterNode(s, input, id, now)
         == (s.(nodes := s.nodes[n := Reregistered(s.nodes[n], input, now)]), Ok(n))
  {
    forall m | IsInstance(s, input.provider, input.instanceId, m)
      ensures m == n
    {}
  }
}
