/** What passes between the store and the node agents: the work a claim hands out, what a
    report leaves in the tables, and how a later claim hands back what a report brought. */
module Handover {
  import opened StoreModel
  import opened StoreSpec
  import opened StoreTables
  import opened Generations

  // ---- Container names ----

  lemma {:induction false} DecimalDigits(k: nat)
    ensures Decimal(k) != "" && forall c | c in Decimal(k) :: '0' <= c <= '9'
    decreases k
  {
    if k >= 10 {
      DecimalDigits(k / 10);
    }
  }

  lemma {:induction false} DecimalIsInjective(a: nat, b: nat)
    requires Decimal(a) == Decimal(b)
    ensures a == b
    decreases a
  {
    var s, t := Decimal(a), Decimal(b);
    assert s[|s| - 1] == t[|t| - 1];
    if a >= 10 {
      DecimalDigits(a / 10);
    }
    if b >= 10 {
      DecimalDigits(b / 10);
    }
    if a >= 10 && b >= 10 {
      assert s[..|s| - 1] == Decimal(a / 10) && t[..|t| - 1] == Decimal(b / 10);
      DecimalIsInjective(a / 10, b / 10);
    }
  }

  /** The generation starts after the last `g`. */
  lemma LastMark(i: string, g: nat)
    ensures var s := i + "-g" + Decimal(g);
            s[|i| + 1] == 'g' && forall k | |i| + 2 <= k < |s| :: s[k] != 'g'
  {
    DecimalDigits(g);
    var s := i + "-g" + Decimal(g);
    forall k | |i| + 2 <= k < |s| ensures s[k] != 'g' {
      assert s[k] == Decimal(g)[k - |i| - 2];
      assert s[k] in Decimal(g);
    }
  }

  /** Two generations, of one service or of two, never share a container name. */
  lemma ContainerNamesDiffer(i: ServiceId, g: nat, j: ServiceId, h: nat)
    ensures RunContainerName(i, g) == RunContainerName(j, h) <==> i == j && g == h
  {
    var x, y := RunContainerName(i, g), RunContainerName(j, h);
    if x == y {
      var tail, tail' := i + "-g" + Decimal(g), j + "-g" + Decimal(h);
      assert x == "mini-cloud-" + tail && y == "mini-cloud-" + tail';
      assert tail == x[|"mini-cloud-"|..] && tail' == y[|"mini-cloud-"|..];
      LastMark(i, g);
      LastMark(j, h);
      assert |i| == |j|;
      assert i == tail[..|i|] && j == tail'[..|i|];
      assert Decimal(g) == tail[|i| + 2..] && Decimal(h) == tail'[|i| + 2..];
      DecimalIsInjective(g, h);
    }
  }

  // ---- The work a claim hands out ----

  /** The work is to delete exactly if the service is deleted; it names the row's execution,
      workload and container, and the row is deploying on this node from now on. */
  lemma ClaimHandsOut(s: State, n: NodeId, c: ClaimChoice, now: Time)
    requires ClaimSelects(s, n, c) && ClaimServiceRun(s, n, c, now).1.Some?
    ensures
      var (after, work) := ClaimServiceRun(s, n, c, now);
      var w := work.value;
      var i := w.serviceId;
      && i in s.services && i in s.runs && after.runs.Keys == s.runs.Keys && w.node == n
      && var run, taken := s.runs[i], after.runs[i];
         && (w.action == DeleteAction <==> s.services[i].desired == DesiredDeleted)
         && w.executionId == run.id && w.serviceName == run.serviceName && w.workload == run.workload
         && w.containerId == run.containerId && w.hostPort == run.hostPort
         && w.containerName == (if s.services[i].desired == DesiredDeleted then run.containerName
                                else RunContainerName(i, run.generation))
         && run.status == Pending && taken.status == Deploying && taken.node == Some(n)
         && SameWork(run, taken) && taken.containerName == w.containerName
         && taken.containerId == run.containerId && taken.hostPort == run.hostPort && taken.updatedAt == now
         && after.services == s.services
         && forall j | j in s.runs && j != i :: after.runs[j] == s.runs[j]
  {}

  /** What is handed out may be: a deletion was waiting for this node, with its container; a run
      fits into what the schedulable node has left, and no other node keeps it. */
  lemma ClaimIsAllowed(s: State, n: NodeId, c: ClaimChoice, now: Time)
    requires ClaimSelects(s, n, c) && ClaimServiceRun(s, n, c, now).1.Some?
    ensures
      var (after, work) := ClaimServiceRun(s, n, c, now);
      && n in s.nodes && s.nodes[n].status == Ready && after.nodes.Keys == s.nodes.Keys
      && work.value.serviceId in s.runs
      && var run, node := s.runs[work.value.serviceId], s.nodes[n];
         && (work.value.action == DeleteAction ==>
               run.node == Some(n) && run.containerId != "" && after.nodes == s.nodes)
         && (work.value.action == RunAction ==>
               && node.schedulable && (run.node == None || run.node == Some(n))
               && node.allocation.cpu + run.request.cpu <= node.allocatable.cpu
               && node.allocation.mem + run.request.mem <= node.allocatable.mem
               && after.nodes[n].allocation.cpu == node.allocation.cpu + run.request.cpu
               && after.nodes[n].allocation.mem == node.allocation.mem + run.request.mem
               && forall m | m in s.nodes && m != n :: after.nodes[m] == s.nodes[m])
  {}

  /** A ready node with a deletion waiting for it gets one, the one that waits longest. */
  lemma DeletionsGoFirst(s: State, n: NodeId, c: ClaimChoice, now: Time, i: ServiceId)
    requires ClaimSelects(s, n, c) && n in s.nodes && s.nodes[n].status == Ready
    requires i in s.runs && i in s.services && s.services[i].desired == DesiredDeleted
    requires s.runs[i].status == Pending && s.runs[i].node == Some(n) && s.runs[i].containerId != ""
    ensures
      var work := ClaimServiceRun(s, n, c, now).1;
      && work.Some? && work.value.action == DeleteAction && work.value.serviceId in s.runs
      && var picked, run := s.runs[work.value.serviceId], s.runs[i];
         picked.updatedAt < run.updatedAt || (picked.updatedAt == run.updatedAt && picked.id <= run.id)
  {
    assert DeleteClaimable(s, n, i);
  }

  /** Otherwise a schedulable node gets a run if any fits that no other node keeps, the one that
      was created first. */
  lemma OldestRunGoesNext(s: State, n: NodeId, c: ClaimChoice, now: Time, i: ServiceId)
    requires ClaimSelects(s, n, c) && n in s.nodes && s.nodes[n].status == Ready && s.nodes[n].schedulable
    requires i in s.runs && i in s.services && s.services[i].desired == DesiredActive && s.runs[i].status == Pending
    requires s.runs[i].node == None || s.runs[i].node == Some(n)
    requires s.nodes[n].allocation.cpu + s.runs[i].request.cpu <= s.nodes[n].allocatable.cpu
    requires s.nodes[n].allocation.mem + s.runs[i].request.mem <= s.nodes[n].allocatable.mem
    ensures
      var work := ClaimServiceRun(s, n, c, now).1;
      && work.Some? && work.value.serviceId in s.runs
      && var picked, run := s.runs[work.value.serviceId], s.runs[i];
         work.value.action == RunAction ==>
           picked.createdAt < run.createdAt || (picked.createdAt == run.createdAt && picked.id <= run.id)
  {
    assert RunClaimable(s, n, i);
  }

  /** A run keeps its place in the queue: no step, an update included, changes its identifier or
      the time of its creation. */
  lemma UpdateKeepsPlace(s: State, input: UpsertInput, runId: RunId, now: Time)
    ensures
      var after := UpsertService(s, input, runId, now).0;
      && (forall i | i in s.runs :: i in after.runs && after.runs[i].id == s.runs[i].id
                                    && after.runs[i].createdAt == s.runs[i].createdAt)
      && (forall i | i in after.runs && i !in s.runs :: after.runs[i].id == runId && after.runs[i].createdAt == now)
      && (forall i | i in s.services :: i in after.services && after.services[i].createdAt == s.services[i].createdAt)
  {}

  lemma DeleteKeepsPlace(s: State, id: ServiceId, generation: int, textOk: bool, now: Time)
    ensures
      var after := DeleteService(s, id, generation, textOk, now).0;
      && (forall i | i in after.runs :: i in s.runs && after.runs[i].id == s.runs[i].id
                                        && after.runs[i].createdAt == s.runs[i].createdAt)
      && (forall i | i in s.services :: i in after.services && after.services[i].createdAt == s.services[i].createdAt)
  {}

  lemma StepKeepsPlace(s: State, step: Step, i: ServiceId)
    requires Enabled(s, step.op) && i in s.runs && i in Next(s, step).runs
    ensures Next(s, step).runs[i].id == s.runs[i].id && Next(s, step).runs[i].createdAt == s.runs[i].createdAt
  {
    match step.op {
      case OpUpsert(input, runId) => UpdateKeepsPlace(s, input, runId, step.now);
      case OpDelete(id, generation, textOk) => DeleteKeepsPlace(s, id, generation, textOk, step.now);
      case _ => OtherStepsKeepServices(s, step);
    }
  }

  /** Over any run of the store: a run that a claim hands out for service `i` is what the
      greatest accepted upsert of `i` asked for, under the container name of that generation,
      and what it asked for is reserved. */
  lemma RunWorkIsWhatWasAsked(s: State, steps: seq<Step>, i: ServiceId, said: int -> UpsertInput, g: int,
                              n: NodeId, now: Time)
    requires Agreement(s) && i !in s.services && Feasible(s, steps) && Determined(steps, i, said)
    requires Greatest(g, AskedOver(s, steps, i, NOTHING_ASKED).upserts)
    requires ClaimSelects(Exec(s, steps), n, RunWork(i))
    ensures
      var before := Exec(s, steps);
      var (after, work) := ClaimServiceRun(before, n, RunWork(i), now);
      && work.Some? && work.value.action == RunAction && work.value.serviceId == i
      && work.value.serviceName == said(g).name && work.value.workload == said(g).spec.workload
      && work.value.containerName == RunContainerName(i, g)
      && said(g).Valid() && n in before.nodes && n in after.nodes
      && after.nodes[n].allocation == before.nodes[n].allocation.Plus(said(g).Request())
  {
    RunDecides(s, steps, i, said, NOTHING_ASKED);
    var before := Exec(s, steps);
    var asked := AskedOver(s, steps, i, NOTHING_ASKED);
    assert g in asked.upserts + asked.deletes;
    assert asked.live && before.services[i].generation == g && Holds(before, i, said(g));
  }

  // ---- What a report leaves ----

  /** A report that is not in order, or on a run that is not being started, changes nothing; a
      repetition is confirmed, a contradiction is not. */
  lemma ReportWithoutEffect(s: State, n: NodeId, i: ServiceId, input: ReportInput, now: Time)
    requires RunIdsDiffer(s.runs) && i in s.runs && i in s.services && s.runs[i].node == Some(n)
    ensures
      var run := s.runs[i];
      var (after, r) := Report(s, n, run.id, input, now);
      if input.status == Pending || !input.textOk || (input.status == Running && input.hostPort <= 0) then
        after == s && r == Err(Invalid)
      else
        && (run.status != Deploying ==>
              after == s && r == if run.status == input.status then Ok(run) else Err(AlreadyReported(run.status)))
        && (run.status == Deploying && input.hostPort < 0 ==> after == s && r == Err(CheckViolation))
        && (after != s ==> run.status == Deploying && r.Ok?)
  {
    if input.Valid() {
      assert Reported(s, n, s.runs[i].id, i);
      ReportIsOn(s, n, s.runs[i].id, i, input, now);
    }
  }

  /** Only the node a run sits on can report on it. */
  lemma ReportFromElsewhere(s: State, n: NodeId, execution: RunId, input: ReportInput, now: Time)
    requires input.Valid() && forall i | i in s.runs && s.runs[i].id == execution :: s.runs[i].node != Some(n)
    ensures Report(s, n, execution, input, now) == (s, Err(ExecutionNotFound))
  {}

  /** The first report on a run that is being started is kept as it is: container, port and
      status end in the row, which otherwise stays; only a finished deletion loses its row. */
  lemma ReportIsKept(s: State, n: NodeId, i: ServiceId, input: ReportInput, now: Time)
    requires RunIdsDiffer(s.runs) && i in s.runs && i in s.services && s.runs[i].node == Some(n)
    requires s.runs[i].status == Deploying
    requires input.textOk && input.status != Pending && input.hostPort >= 0
    requires input.status == Running ==> input.hostPort > 0
    ensures
      var run := s.runs[i];
      var (after, r) := Report(s, n, run.id, input, now);
      && r.Ok? && after.services == s.services
      && (i !in after.runs <==> input.status == Succeeded && s.services[i].desired == DesiredDeleted)
      && (i in after.runs ==> after.runs[i] == r.value)
      && r.value.containerName == input.containerName && r.value.containerId == input.containerId
      && r.value.hostPort == input.hostPort && r.value.status == input.status && r.value.updatedAt == now
      && r.value.node == Some(n) && SameWork(run, r.value)
      && (forall j | j != i :: (j in after.runs <==> j in s.runs) && (j in s.runs ==> after.runs[j] == s.runs[j]))
  {
    assert Reported(s, n, s.runs[i].id, i);
    ReportIsOn(s, n, s.runs[i].id, i, input, now);
  }

  // ---- From one handover to the next ----

  /** The row of `i` names its container, node and work as before, and waits for no report. */
  predicate SameContainer(run: RunRow, after: RunRow) {
    && after.id == run.id && after.node == run.node
    && after.containerName == run.containerName && after.containerId == run.containerId
    && after.hostPort == run.hostPort && after.status != Deploying
  }

  predicate KeepsContainer(s: State, after: State, i: ServiceId) {
    i in after.runs ==> i in s.runs && SameContainer(s.runs[i], after.runs[i])
  }

  /** Neither an upsert of `i` nor a claim of it. */
  predicate LeavesAlone(step: Step, i: ServiceId) {
    !Writes(step, i) && !(step.op.OpClaim? && step.op.choice != NoWork && step.op.choice.id == i)
  }

  predicate AllLeaveAlone(steps: seq<Step>, i: ServiceId) {
    forall k | 0 <= k < |steps| :: LeavesAlone(steps[k], i)
  }

  lemma WorkStepKeepsContainer(s: State, step: Step, i: ServiceId)
    requires RunIdsDiffer(s.runs) && Enabled(s, step.op) && LeavesAlone(step, i)
    requires step.op.OpUpsert? || step.op.OpDelete? || step.op.OpClaim?
    requires i in s.runs ==> s.runs[i].status != Deploying
    ensures KeepsContainer(s, Next(s, step), i)
  {}

  lemma ReportKeepsContainer(s: State, n: NodeId, execution: RunId, input: ReportInput, now: Time, i: ServiceId)
    requires RunIdsDiffer(s.runs) && (i in s.runs ==> s.runs[i].status != Deploying)
    ensures KeepsContainer(s, Report(s, n, execution, input, now).0, i)
  {
    if j :| input.Valid() && Reported(s, n, execution, j) {
      ReportIsOn(s, n, execution, j, input, now);
    }
  }

  lemma OtherStepKeepsContainer(s: State, step: Step, i: ServiceId)
    requires Enabled(s, step.op) && (i in s.runs ==> s.runs[i].status != Deploying)
    requires !step.op.OpUpsert? && !step.op.OpDelete? && !step.op.OpClaim? && !step.op.OpReport?
    ensures KeepsContainer(s, Next(s, step), i)
  {}

  lemma {:induction false} ContainerStays(s: State, steps: seq<Step>, i: ServiceId)
    requires Tables(s) && Feasible(s, steps) && AllLeaveAlone(steps, i)
    requires i in s.runs ==> s.runs[i].status != Deploying
    ensures KeepsContainer(s, Exec(s, steps), i) && Tables(Exec(s, steps))
    decreases |steps|
  {
    if steps != [] {
      var step := steps[0];
      assert LeavesAlone(step, i);
      match step.op {
        case OpReport(n, execution, input) => ReportKeepsContainer(s, n, execution, input, step.now, i);
        case OpUpsert(_, _) => WorkStepKeepsContainer(s, step, i);
        case OpDelete(_, _, _) => WorkStepKeepsContainer(s, step, i);
        case OpClaim(_, _) => WorkStepKeepsContainer(s, step, i);
        case _ => OtherStepKeepsContainer(s, step, i);
      }
      StepKeepsTables(s, step);
      assert AllLeaveAlone(steps[1..], i);
      ContainerStays(Next(s, step), steps[1..], i);
    }
  }

  /** The state after the report that `i` runs on node `n`. */
  ghost predicate ReportedRunning(s: State, n: NodeId, i: ServiceId, input: ReportInput) {
    && Tables(s) && i in s.runs && s.runs[i].node == Some(n) && s.runs[i].status == Deploying
    && input.textOk && input.status == Running && input.hostPort > 0
  }

  lemma RunningIsKept(s: State, n: NodeId, i: ServiceId, input: ReportInput, now: Time)
    requires ReportedRunning(s, n, i, input)
    ensures
      var after := Report(s, n, s.runs[i].id, input, now).0;
      && Tables(after) && i in after.runs && after.runs[i].node == Some(n) && after.runs[i].status == Running
      && after.runs[i].id == s.runs[i].id && after.runs[i].containerName == input.containerName
      && after.runs[i].containerId == input.containerId && after.runs[i].hostPort == input.hostPort
  {
    ReportIsKept(s, n, i, input, now);
    ReportKeepsTables(s, n, s.runs[i].id, input, now);
  }

  /** The round trip of a container: an agent reports it running, anything happens that neither
      updates the service nor claims it, and the deletion that is then claimed goes to the same
      node and hands back exactly what was reported. */
  lemma DeletionHandsBackContainer(s: State, n: NodeId, i: ServiceId, input: ReportInput, now: Time,
                                   steps: seq<Step>, m: NodeId, later: Time)
    requires ReportedRunning(s, n, i, input)
    requires var reported := Report(s, n, s.runs[i].id, input, now).0;
             && Feasible(reported, steps) && AllLeaveAlone(steps, i)
             && ClaimSelects(Exec(reported, steps), m, DeleteWork(i))
    ensures
      var before := Exec(Report(s, n, s.runs[i].id, input, now).0, steps);
      var work := ClaimServiceRun(before, m, DeleteWork(i), later).1;
      && m == n && work.Some? && work.value.action == DeleteAction && work.value.executionId == s.runs[i].id
      && work.value.containerName == input.containerName && work.value.containerId == input.containerId
      && work.value.hostPort == input.hostPort
  {
    RunningIsKept(s, n, i, input, now);
    ContainerStays(Report(s, n, s.runs[i].id, input, now).0, steps, i);
  }

  /** A service deleted while its container runs: the node that runs it gets to delete it. */
  lemma DeletedWhileRunningIsClaimed(s: State, i: ServiceId, generation: int, now: Time, n: NodeId, c: ClaimChoice)
    requires i in s.services && i in s.runs && generation > 0
    requires s.runs[i].status == Running && s.runs[i].node == Some(n) && s.runs[i].containerId != ""
    requires n in s.nodes && s.nodes[n].status == Ready
    requires ClaimSelects(DeleteService(s, i, generation, true, now).0, n, c)
    ensures c.DeleteWork? && ClaimServiceRun(DeleteService(s, i, generation, true, now).0, n, c, now).1.Some?
  {
    assert DeleteClaimable(DeleteService(s, i, generation, true, now).0, n, i);
  }

  /** An update of a run that is running with a container stays with node and container. */
  lemma UpdateKeepsContainer(s: State, input: UpsertInput, runId: RunId, now: Time)
    requires Tables(s) && Agreement(s) && input.id in s.runs && s.runs[input.id].status == Running
    requires s.runs[input.id].node.Some? && s.runs[input.id].containerId != ""
    requires UpsertService(s, input, runId, now).1.Ok? && s.runs[input.id].generation < input.generation
    ensures
      var after, i := UpsertService(s, input, runId, now).0, input.id;
      && Tables(after) && i in after.runs && SameContainer(s.runs[i], after.runs[i])
      && after.runs[i].status == Pending && after.runs[i].generation == input.generation
  {
    UpsertKeepsTables(s, input, runId, now);
  }

  /** The same for an update: it is the node that runs the old container which gets to replace
      it, told which container and port that is, under the name of the new generation. */
  lemma UpdateHandsBackContainer(s: State, input: UpsertInput, runId: RunId, now: Time, n: NodeId,
                                 steps: seq<Step>, m: NodeId, later: Time)
    requires Tables(s) && Agreement(s) && input.id in s.runs && s.runs[input.id].status == Running
    requires s.runs[input.id].node == Some(n) && s.runs[input.id].containerId != ""
    requires UpsertService(s, input, runId, now).1.Ok? && s.runs[input.id].generation < input.generation
    requires var updated := UpsertService(s, input, runId, now).0;
             && Feasible(updated, steps) && AllLeaveAlone(steps, input.id)
             && ClaimSelects(Exec(updated, steps), m, RunWork(input.id))
    ensures
      var before, i := Exec(UpsertService(s, input, runId, now).0, steps), input.id;
      var work := ClaimServiceRun(before, m, RunWork(i), later).1;
      && m == n && work.Some? && work.value.action == RunAction && work.value.executionId == s.runs[i].id
      && work.value.containerId == s.runs[i].containerId && work.value.hostPort == s.runs[i].hostPort
  {
    UpdateKeepsContainer(s, input, runId, now);
    ContainerStays(UpsertService(s, input, runId, now).0, steps, input.id);
  }
}
