/** What each transaction of the cloud-plane store does to the three tables, as a function
    from the state before to the state after (and the value returned). A transaction that
    fails returns the state it was given. */
module StoreSpec {
  import opened StoreModel

  // ---- Inputs ----

  /** `textOk` is the outcome of the purely textual checks of `Validate` (blank fields other than
      the identifier, name pattern, path prefix, IP syntax). */
  datatype UpsertInput = UpsertInput(
    id: ServiceId, name: string, displayName: string, host: string, generation: int,
    spec: ServiceSpec, textOk: bool)
  {
    predicate Valid() {
      && textOk
      && id != ""
      && generation > 0
      && ResourceRequest(spec.instanceClass).Some?
      && 0 < spec.workload.containerPort <= 65535
    }

    function Request(): Resources
      requires Valid()
    {
      ResourceRequest(spec.instanceClass).value
    }
  }

  datatype ReportInput = ReportInput(
    status: RunStatus, containerId: string, containerName: string, hostPort: int, textOk: bool)
  {
    predicate Valid() {
      && status != Pending
      && textOk
      && (status == Running ==> hostPort > 0)
    }

    predicate Terminal() {
      status == Failed || status == Succeeded
    }
  }

  datatype ProvisioningInput = ProvisioningInput(
    provider: string, region: string, name: string, instanceType: string, textOk: bool)

  datatype RegisterInput = RegisterInput(
    provider: string, region: string, name: string, privateIp: string, instanceId: string,
    instanceType: string, cpuTotal: int, memTotal: int, textOk: bool)
  {
    predicate Valid() {
      textOk && instanceId != "" && cpuTotal > 0 && memTotal > 0
    }
  }

  // ---- Services and their runs (service.go, service_run.go) ----

  /** The WHERE clause of the conflicting upsert is false. */
  predicate StaleUpsert(row: ServiceRow, generation: int) {
    !(row.generation < generation || (row.generation == generation && row.desired != DesiredDeleted))
  }

  predicate NameOrHostTaken(s: State, input: UpsertInput) {
    exists i :: i in s.services && i != input.id &&
                (s.services[i].name == input.name || s.services[i].host == input.host)
  }

  predicate RunIdTaken(s: State, runId: RunId) {
    exists i :: i in s.runs && s.runs[i].id == runId
  }

  /** `freeNodeAllocation`: an UPDATE that matches no row changes nothing. */
  function FreeOn(nodes: map<NodeId, NodeRow>, n: NodeId, request: Resources, now: Time): map<NodeId, NodeRow> {
    if n in nodes then
      nodes[n := nodes[n].(allocation := nodes[n].allocation.Less(request), updatedAt := now)]
    else nodes
  }

  function UpsertedService(s: State, input: UpsertInput, now: Time): ServiceRow {
    ServiceRow(input.name, input.displayName, input.host, input.generation, DesiredActive, input.spec,
               if input.id in s.services then s.services[input.id].createdAt else now, now)
  }

  /** The row written over `current`: a running run keeps its node, and its container if it
      has one; anything else loses both. */
  function SupersedingRun(current: RunRow, input: UpsertInput, now: Time): RunRow
    requires input.Valid()
  {
    var keepNode := current.node.Some? && current.status == Running;
    var keepContainer := keepNode && current.containerId != "";
    RunRow(current.id, input.name, input.generation, input.spec.exposure, input.spec.workload, input.Request(),
           if keepNode then current.node else None,
           if keepContainer then current.containerName else "",
           if keepContainer then current.containerId else "",
           if keepContainer then current.hostPort else 0,
           Pending, current.createdAt, now)
  }

  function FirstRun(runId: RunId, input: UpsertInput, now: Time): RunRow
    requires input.Valid()
  {
    RunRow(runId, input.name, input.generation, input.spec.exposure, input.spec.workload, input.Request(),
           None, "", "", 0, Pending, now, now)
  }

  ghost function UpsertService(s: State, input: UpsertInput, runId: RunId, now: Time): (State, Result<ServiceRow>) {
    if !input.Valid() then (s, Err(Invalid))
    else if input.id in s.services && StaleUpsert(s.services[input.id], input.generation) then
      (s, Ok(s.services[input.id]))
    else if NameOrHostTaken(s, input) then (s, Err(UniqueViolation))
    else
      var row := UpsertedService(s, input, now);
      var services := s.services[input.id := row];
      if input.id in s.runs then
        var current := s.runs[input.id];
        if current.generation >= input.generation then (s.(services := services), Ok(row))
        else
          var nodes := if current.node.Some? && current.status == Running
                       then FreeOn(s.nodes, current.node.value, current.request, now) else s.nodes;
          (State(services, s.runs[input.id := SupersedingRun(current, input, now)], nodes), Ok(row))
      else if RunIdTaken(s, runId) then (s, Err(UniqueViolation))
      else (s.(services := services, runs := s.runs[input.id := FirstRun(runId, input, now)]), Ok(row))
  }

  function Larger(a: int, b: int): int {
    if a < b then b else a
  }

  /** A deletion waits for the agent only when a container runs. */
  predicate KeepsContainerForDelete(run: RunRow) {
    run.status == Running && run.node.Some? && run.containerId != ""
  }

  ghost function DeleteService(s: State, id: ServiceId, generation: int, textOk: bool, now: Time)
    : (State, Result<()>)
  {
    if !textOk || generation <= 0 then (s, Err(Invalid))
    else if id !in s.services then (s, Err(ServiceNotFound))
    else
      var g := Larger(generation, s.services[id].generation);
      var services := s.services[id := s.services[id].(generation := g, desired := DesiredDeleted, updatedAt := now)];
      if id !in s.runs then (s.(services := services), Ok(()))
      else
        var run := s.runs[id];
        if KeepsContainerForDelete(run) then
          (s.(services := services,
              runs := s.runs[id := run.(generation := g, status := Pending, updatedAt := now)]), Ok(()))
        else
          var nodes := if run.node.Some? && (run.status == Deploying || run.status == Pending)
                       then FreeOn(s.nodes, run.node.value, run.request, now) else s.nodes;
          (State(services, s.runs - {id}, nodes), Ok(()))
  }

  ghost function MarkServiceRunFailed(s: State, id: ServiceId, now: Time): (State, Result<()>) {
    if id == "" then (s, Err(Invalid))
    else if id in s.runs && (s.runs[id].status == Pending || s.runs[id].status == Deploying) then
      (s.(runs := s.runs[id := s.runs[id].(status := Failed, updatedAt := now)]), Ok(()))
    else (s, Ok(()))
  }

  /** `matching` holds the services whose derived node name is the given one. */
  ghost function FailPendingRuns(s: State, matching: set<ServiceId>, now: Time): State {
    s.(runs := map i | i in s.runs ::
         if i in matching && s.runs[i].status == Pending then s.runs[i].(status := Failed, updatedAt := now)
         else s.runs[i])
  }

  // ---- Claims ----

  datatype ClaimChoice = NoWork | DeleteWork(id: ServiceId) | RunWork(id: ServiceId)

  datatype Action = RunAction | DeleteAction

  datatype WorkItem = WorkItem(
    action: Action, executionId: RunId, node: NodeId, serviceId: ServiceId, serviceName: string, workload: Workload,
    containerName: string, containerId: string, hostPort: int)

  predicate Older(at: Time, id: RunId, at': Time, id': RunId) {
    at < at' || (at == at' && id <= id')
  }

  predicate DeleteClaimable(s: State, n: NodeId, i: ServiceId) {
    && i in s.runs && i in s.services
    && s.runs[i].status == Pending
    && s.services[i].desired == DesiredDeleted
    && s.runs[i].node == Some(n)
    && s.runs[i].containerId != ""
  }

  predicate RunClaimable(s: State, n: NodeId, i: ServiceId)
    requires n in s.nodes
  {
    && i in s.runs && i in s.services
    && s.runs[i].status == Pending
    && s.services[i].desired == DesiredActive
    && s.runs[i].request.cpu <= s.nodes[n].allocatable.cpu - s.nodes[n].allocation.cpu
    && s.runs[i].request.mem <= s.nodes[n].allocatable.mem - s.nodes[n].allocation.mem
    && (s.runs[i].node == None || s.runs[i].node == Some(n))
  }

  /** What the two claim queries select: the least recently updated delete first, otherwise
      the oldest run that fits. */
  ghost predicate ClaimSelects(s: State, n: NodeId, c: ClaimChoice) {
    if n !in s.nodes || s.nodes[n].status != Ready then c == NoWork
    else if exists i :: DeleteClaimable(s, n, i) then
      && c.DeleteWork?
      && DeleteClaimable(s, n, c.id)
      && forall j :: DeleteClaimable(s, n, j) ==>
           Older(s.runs[c.id].updatedAt, s.runs[c.id].id, s.runs[j].updatedAt, s.runs[j].id)
    else if s.nodes[n].schedulable && exists i :: RunClaimable(s, n, i) then
      && c.RunWork?
      && RunClaimable(s, n, c.id)
      && forall j :: RunClaimable(s, n, j) ==>
           Older(s.runs[c.id].createdAt, s.runs[c.id].id, s.runs[j].createdAt, s.runs[j].id)
    else c == NoWork
  }

  function Decimal(k: int): string
    decreases if k < 0 then 1 - k else k
  {
    if k < 0 then "-" + Decimal(-k)
    else if k < 10 then [('0' as int + k) as char]
    else Decimal(k / 10) + [('0' as int + k % 10) as char]
  }

  function RunContainerName(id: ServiceId, generation: int): string {
    "mini-cloud-" + id + "-g" + Decimal(generation)
  }

  function ClaimedRun(run: RunRow, n: NodeId, containerName: string, now: Time): RunRow {
    run.(node := Some(n), containerName := containerName, status := Deploying, updatedAt := now)
  }

  function ClaimServiceRun(s: State, n: NodeId, c: ClaimChoice, now: Time): (State, Option<WorkItem>)
    requires c.DeleteWork? ==> c.id in s.runs
    requires c.RunWork? ==> c.id in s.runs && n in s.nodes
  {
    match c
    case NoWork => (s, None)
    case DeleteWork(i) =>
      var run := s.runs[i];
      (s.(runs := s.runs[i := ClaimedRun(run, n, run.containerName, now)]),
       Some(WorkItem(DeleteAction, run.id, n, i, run.serviceName, run.workload,
                     run.containerName, run.containerId, run.hostPort)))
    case RunWork(i) =>
      var run := s.runs[i];
      var name := RunContainerName(i, run.generation);
      var node := s.nodes[n];
      (s.(runs := s.runs[i := ClaimedRun(run, n, name, now)],
          nodes := s.nodes[n := node.(allocation := node.allocation.Plus(run.request), updatedAt := now)]),
       Some(WorkItem(RunAction, run.id, n, i, run.serviceName, run.workload, name, run.containerId, run.hostPort)))
  }

  // ---- Reports ----

  /** The row `WHERE r.id = execution AND r.node_id = node`. */
  predicate Reported(s: State, n: NodeId, execution: RunId, i: ServiceId) {
    i in s.runs && i in s.services && s.runs[i].id == execution && s.runs[i].node == Some(n)
  }

  function ReportedRun(run: RunRow, input: ReportInput, now: Time): RunRow {
    run.(containerName := input.containerName, containerId := input.containerId, hostPort := input.hostPort,
         status := input.status, updatedAt := now)
  }

  ghost function Report(s: State, n: NodeId, execution: RunId, input: ReportInput, now: Time)
    : (State, Result<RunRow>)
  {
    if !input.Valid() then (s, Err(Invalid))
    else if i :| Reported(s, n, execution, i) then ReportOn(s, n, i, input, now)
    else (s, Err(ExecutionNotFound))
  }

  function ReportOn(s: State, n: NodeId, i: ServiceId, input: ReportInput, now: Time): (State, Result<RunRow>)
    requires i in s.runs && i in s.services
  {
    var run := s.runs[i];
    if run.status != Deploying then
      (s, if run.status == input.status then Ok(run) else Err(AlreadyReported(run.status)))
    else if input.hostPort < 0 then (s, Err(CheckViolation))
    else
      var updated := ReportedRun(run, input, now);
      var nodes := if input.Terminal() then FreeOn(s.nodes, n, run.request, now) else s.nodes;
      var runs := if input.status == Succeeded && s.services[i].desired == DesiredDeleted
                  then s.runs - {i} else s.runs[i := updated];
      (s.(runs := runs, nodes := nodes), Ok(updated))
  }

  // ---- Nodes (node.go) ----

  ghost function CreateProvisioningNode(s: State, input: ProvisioningInput, id: NodeId, now: Time)
    : (State, Result<NodeRow>)
  {
    if !input.textOk then (s, Err(Invalid))
    else if id in s.nodes then (s, Err(UniqueViolation))
    else
      var row := NodeRow(input.provider, input.region, input.name, "", None, input.instanceType,
                         NOTHING, NOTHING, NOTHING, Provisioning, false, true, None, now, now);
      (s.(nodes := s.nodes[id := row]), Ok(row))
  }

  predicate InstanceTaken(s: State, n: NodeId, provider: string, instanceId: string) {
    exists m :: m in s.nodes && m != n && s.nodes[m].provider == provider && s.nodes[m].instanceId == Some(instanceId)
  }

  ghost function BindProvisionedNode(s: State, n: NodeId, instanceId: string, name: string, instanceType: string,
                                     now: Time): (State, Result<NodeRow>)
  {
    if n !in s.nodes || s.nodes[n].status != Provisioning then (s, Err(NodeNotFound))
    else if instanceId != "" && InstanceTaken(s, n, s.nodes[n].provider, instanceId) then (s, Err(UniqueViolation))
    else
      var row := s.nodes[n].(instanceId := if instanceId == "" then None else Some(instanceId),
                             name := name, instanceType := instanceType, updatedAt := now);
      (s.(nodes := s.nodes[n := row]), Ok(row))
  }

  predicate IsInstance(s: State, provider: string, instanceId: string, n: NodeId) {
    n in s.nodes && s.nodes[n].provider == provider && s.nodes[n].instanceId == Some(instanceId)
  }

  function NewlyRegistered(input: RegisterInput, now: Time): NodeRow
    requires input.Valid()
  {
    NodeRow(input.provider, input.region, input.name, input.privateIp, Some(input.instanceId), input.instanceType,
            Resources(input.cpuTotal, input.memTotal), NOTHING, NOTHING, Registering, true, false, None, now, now)
  }

  function Reregistered(row: NodeRow, input: RegisterInput, now: Time): NodeRow
    requires input.Valid()
  {
    var leaving := row.status == Draining || row.status == Deleted;
    row.(region := input.region, name := input.name, privateIp := input.privateIp,
         instanceType := input.instanceType, total := Resources(input.cpuTotal, input.memTotal),
         status := if leaving then row.status else Registering,
         schedulable := !leaving, updatedAt := now)
  }

  ghost function RegisterNode(s: State, input: RegisterInput, id: NodeId, now: Time): (State, Result<NodeId>) {
    if !input.Valid() then (s, Err(Invalid))
    else if n :| IsInstance(s, input.provider, input.instanceId, n) then
      (s.(nodes := s.nodes[n := Reregistered(s.nodes[n], input, now)]), Ok(n))
    else if id in s.nodes then (s, Err(UniqueViolation))
    else (s.(nodes := s.nodes[id := NewlyRegistered(input, now)]), Ok(id))
  }

  ghost function RecordNodeHeartbeat(s: State, n: NodeId, cpu: int, mem: int, now: Time)
    : (State, Result<NodeStatus>)
  {
    if cpu <= 0 || mem <= 0 then (s, Err(Invalid))
    else if n !in s.nodes then (s, Err(NodeNotFound))
    else if cpu > s.nodes[n].total.cpu || mem > s.nodes[n].total.mem then (s, Err(AllocatableTooLarge))
    else
      var row := s.nodes[n];
      var leaving := row.status == Draining || row.status == Deleted;
      var next := row.(allocatable := Resources(cpu, mem), status := if leaving then row.status else Ready,
                       schedulable := !leaving, lastHeartbeat := Some(now));
      var changed := next.(lastHeartbeat := row.lastHeartbeat) != row;
      (s.(nodes := s.nodes[n := next.(updatedAt := if changed then now else row.updatedAt)]), Ok(next.status))
  }

  predicate HasActiveRun(s: State, n: NodeId) {
    exists i :: i in s.runs && s.runs[i].node == Some(n)
                && (s.runs[i].status == Deploying || s.runs[i].status == Running)
  }

  /** Returns the row and whether the node may be deleted now. */
  ghost function PrepareNodeDeletion(s: State, n: NodeId, now: Time): (State, Result<(NodeRow, bool)>) {
    if n !in s.nodes then (s, Err(NodeNotFound))
    else
      var row := s.nodes[n];
      if row.status == Draining then (s, Ok((row, true)))
      else if row.status != Ready || !row.elastic || row.instanceId == None || HasActiveRun(s, n) then
        (s, Ok((row, false)))
      else
        var next := row.(status := Draining, schedulable := false, updatedAt := now);
        (s.(nodes := s.nodes[n := next]), Ok((next, true)))
  }

  function DeletedRow(row: NodeRow, now: Time): NodeRow {
    row.(privateIp := "", instanceId := None, status := Deleted, schedulable := false,
         allocation := NOTHING, updatedAt := now)
  }

  ghost function MarkNodeDeleted(s: State, n: NodeId, now: Time): (State, Result<NodeRow>) {
    if n !in s.nodes then (s, Err(NodeNotFound))
    else (s.(nodes := s.nodes[n := DeletedRow(s.nodes[n], now)]), Ok(DeletedRow(s.nodes[n], now)))
  }

  // ---- The offline sweep ----

  predicate StaleRow(row: NodeRow, cutoff: Time) {
    && row.lastHeartbeat.Some? && row.lastHeartbeat.value < cutoff
    && row.status != Offline && row.status != Draining && row.status != Deleted
  }

  predicate Stale(s: State, n: NodeId, cutoff: Time) {
    n in s.nodes && StaleRow(s.nodes[n], cutoff)
  }

  predicate Unfinished(status: RunStatus) {
    status == Pending || status == Deploying || status == Running
  }

  /** A run the sweep fails because its node `n` went offline. */
  predicate Impacted(s: State, n: NodeId, i: ServiceId) {
    i in s.runs && s.runs[i].node == Some(n) && Unfinished(s.runs[i].status)
  }

  ghost function ImpactedRequests(s: State, n: NodeId): map<ServiceId, Resources> {
    map i | i in s.runs && Impacted(s, n, i) :: s.runs[i].request
  }

  /** Every stale node goes offline, every unfinished run pinned to one fails, and the node
      gets back the requests of all of those runs in one clamped subtraction. */
  ghost function SweptRun(s: State, i: ServiceId, cutoff: Time, now: Time): RunRow
    requires i in s.runs
  {
    var run := s.runs[i];
    if run.node.Some? && Stale(s, run.node.value, cutoff) && Unfinished(run.status)
    then run.(status := Failed, updatedAt := now) else run
  }

  ghost function SweptNode(s: State, n: NodeId, cutoff: Time, now: Time): NodeRow
    requires n in s.nodes
  {
    var row := s.nodes[n];
    if StaleRow(row, cutoff) then
      row.(status := Offline, schedulable := false,
           allocation := row.allocation.Less(Sum(ImpactedRequests(s, n))), updatedAt := now)
    else row
  }

  ghost function MarkStaleNodeHeartbeatsOffline(s: State, cutoff: Time, now: Time): State {
    State(s.services,
          map i | i in s.runs :: SweptRun(s, i, cutoff, now),
          map n | n in s.nodes :: SweptNode(s, n, cutoff, now))
  }

  // ---- The store as a transition system ----

  /** One committed (or failed) transaction. */
  datatype Op =
    | OpUpsert(input: UpsertInput, runId: RunId)
    | OpDelete(id: ServiceId, generation: int, textOk: bool)
    | OpMarkFailed(id: ServiceId)
    | OpFailPending(matching: set<ServiceId>)
    | OpClaim(node: NodeId, choice: ClaimChoice)
    | OpReport(node: NodeId, execution: RunId, report: ReportInput)
    | OpCreateNode(provisioning: ProvisioningInput, nodeId: NodeId)
    | OpBind(node: NodeId, instanceId: string, name: string, instanceType: string)
    | OpRegister(registration: RegisterInput, nodeId: NodeId)
    | OpHeartbeat(node: NodeId, cpu: int, mem: int)
    | OpPrepareDeletion(node: NodeId)
    | OpMarkDeleted(node: NodeId)
    | OpSweep(cutoff: Time)

  datatype Step = Step(op: Op, now: Time)

  ghost predicate Enabled(s: State, op: Op) {
    op.OpClaim? ==> ClaimSelects(s, op.node, op.choice)
  }

  ghost function Next(s: State, step: Step): State
    requires Enabled(s, step.op)
  {
    var now := step.now;
    match step.op
    case OpUpsert(input, runId) => UpsertService(s, input, runId, now).0
    case OpDelete(id, generation, textOk) => DeleteService(s, id, generation, textOk, now).0
    case OpMarkFailed(id) => MarkServiceRunFailed(s, id, now).0
    case OpFailPending(matching) => FailPendingRuns(s, matching, now)
    case OpClaim(n, choice) => ClaimServiceRun(s, n, choice, now).0
    case OpReport(n, execution, report) => Report(s, n, execution, report, now).0
    case OpCreateNode(input, id) => CreateProvisioningNode(s, input, id, now).0
    case OpBind(n, instanceId, name, instanceType) => BindProvisionedNode(s, n, instanceId, name, instanceType, now).0
    case OpRegister(input, id) => RegisterNode(s, input, id, now).0
    case OpHeartbeat(n, cpu, mem) => RecordNodeHeartbeat(s, n, cpu, mem, now).0
    case OpPrepareDeletion(n) => PrepareNodeDeletion(s, n, now).0
    case OpMarkDeleted(n) => MarkNodeDeleted(s, n, now).0
    case OpSweep(cutoff) => MarkStaleNodeHeartbeatsOffline(s, cutoff, now)
  }

  /** A run of the store: every step may be taken where it is taken. */
  ghost predicate Feasible(s: State, steps: seq<Step>)
    decreases |steps|
  {
    steps == [] || (Enabled(s, steps[0].op) && Feasible(Next(s, steps[0]), steps[1..]))
  }

  ghost function Exec(s: State, steps: seq<Step>): State
    requires Feasible(s, steps)
    decreases |steps|
  {
    if steps == [] then s else Exec(Next(s, steps[0]), steps[1..])
  }
}
