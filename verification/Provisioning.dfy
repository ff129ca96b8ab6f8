/** The node reconciler as one thread among the others: between any two of its own steps
    (store transactions, provider calls) the control plane, the agents and the health loop
    may take any of theirs. */
module Provisioning {
  import opened StoreModel
  import opened StoreSpec
  import opened StoreTables
  import opened Placement

  /** `nameOf` derives a node name from a service and its generation. */
  datatype Config = Config(provider: string, region: string, instanceType: string,
                           nameOf: (ServiceId, int) -> string)

  datatype CreateResult = CreateResult(instanceId: string, instanceName: string, instanceType: string)

  /** What asking for an instance gave. A request that fails or times out may still have made
      one, whose identifier nobody is told. */
  datatype CreateOutcome = Answer(result: CreateResult) | NoAnswer(made: Option<string>) {
    function Made(): set<string> {
      match this
      case Answer(result) => {result.instanceId}
      case NoAnswer(made) => if made.Some? then {made.value} else {}
    }
  }

  /** Where the reconciler stands between two of its steps. */
  datatype Pc =
    | Idle
    | Chosen(service: ServiceId, name: string)
    | Created(service: ServiceId, name: string, node: NodeId)
    | Accepted(service: ServiceId, name: string, node: NodeId, instance: string)
    | Abandoned(service: ServiceId, node: NodeId)
    | Failing(service: ServiceId, node: NodeId)
    | Drained(node: NodeId, instance: string)
    | Gone(node: NodeId)

  /** The tables, the reconciler, the instances alive at the provider, and those that requests
      without an answer made. */
  datatype Sys = Sys(store: State, pc: Pc, live: set<string>, unanswered: set<string>)

  // ---- The candidate query ----

  predicate PendingRun(s: State, i: ServiceId) {
    i in s.runs && s.runs[i].status == Pending
  }

  /** The oldest pending run. */
  ghost predicate OldestPending(s: State, i: ServiceId) {
    && PendingRun(s, i)
    && forall j | PendingRun(s, j) :: Older(s.runs[i].createdAt, s.runs[i].id, s.runs[j].createdAt, s.runs[j].id)
  }

  predicate HasCapacity(s: State, request: Resources) {
    exists n :: n in s.nodes && s.nodes[n].status == Ready && s.nodes[n].schedulable
                && s.nodes[n].allocatable.cpu - s.nodes[n].allocation.cpu >= request.cpu
                && s.nodes[n].allocatable.mem - s.nodes[n].allocation.mem >= request.mem
  }

  predicate ProvisioningAs(row: NodeRow, name: string, instanceType: string) {
    row.status == Provisioning && row.name == name && row.instanceType == instanceType
  }

  predicate HasProvisioning(s: State, name: string, instanceType: string) {
    exists n :: n in s.nodes && ProvisioningAs(s.nodes[n], name, instanceType)
  }

  // ---- Steps ----

  /** What other threads do. */
  predicate FromOutside(op: Op) {
    op.OpUpsert? || op.OpDelete? || op.OpClaim? || op.OpReport? || op.OpRegister? || op.OpHeartbeat? || op.OpSweep?
  }

  datatype Move =
    | Outside(step: Step)
    | Choose(service: ServiceId)
    | Insert(id: NodeId, now: Time)
    | AskProvider(outcome: CreateOutcome)
    | Bind(deleted: bool, now: Time)
    | MarkAbandoned(now: Time)
    | FailRun(now: Time)
    | Prepare(node: NodeId, now: Time)
    | AskDelete(told: bool, gone: bool)
    | MarkDrained(now: Time)
    | CleanUp(node: NodeId, told: bool, gone: bool, cutoff: Time, now: Time)

  function NameFor(s: State, cfg: Config, i: ServiceId): string
    requires i in s.runs
  {
    cfg.nameOf(i, s.runs[i].generation)
  }

  /** The provider names the instance as asked and tells its identifier, which need not be
      new: a repeated request may be answered with the instance of the first one. */
  predicate Echoes(cfg: Config, name: string, result: CreateResult) {
    result.instanceName == name && result.instanceType == cfg.instanceType && result.instanceId != ""
  }

  ghost predicate Can(y: Sys, cfg: Config, move: Move) {
    match move
    case Outside(step) => FromOutside(step.op) && Enabled(y.store, step.op)
    case Choose(i) =>
      && y.pc.Idle?
      && OldestPending(y.store, i)
      && !HasCapacity(y.store, y.store.runs[i].request)
      && !HasProvisioning(y.store, NameFor(y.store, cfg, i), cfg.instanceType)
    case Insert(_, _) => y.pc.Chosen?
    case AskProvider(outcome) =>
      y.pc.Created? && (outcome.Answer? ==> Echoes(cfg, y.pc.name, outcome.result))
    case Bind(_, _) => y.pc.Accepted?
    case MarkAbandoned(_) => y.pc.Abandoned?
    case FailRun(_) => y.pc.Failing?
    case Prepare(n, _) => y.pc.Idle? && n in y.store.nodes
    case AskDelete(told, gone) => y.pc.Drained? && (told ==> gone)
    case MarkDrained(_) => y.pc.Gone?
    case CleanUp(n, told, gone, _, _) => y.pc.Idle? && n in y.store.nodes && (told ==> gone)
  }

  ghost function Matching(s: State, cfg: Config, name: string): set<ServiceId> {
    set i | i in s.runs && NameFor(s, cfg, i) == name
  }

  ghost function Apply(y: Sys, cfg: Config, move: Move): Sys
    requires Can(y, cfg, move)
  {
    var s := y.store;
    match move
    case Outside(step) => y.(store := Next(s, step))
    case Choose(i) => y.(pc := Chosen(i, NameFor(s, cfg, i)))
    case Insert(id, now) =>
      var r := CreateProvisioningNode(s, ProvisioningInput(cfg.provider, cfg.region, y.pc.name, cfg.instanceType, true),
                                      id, now);
      y.(store := r.0, pc := if r.1.Ok? then Created(y.pc.service, y.pc.name, id) else Idle)
    case AskProvider(outcome) =>
      if outcome.Answer? then
        y.(live := y.live + outcome.Made(),
           pc := Accepted(y.pc.service, y.pc.name, y.pc.node, outcome.result.instanceId))
      else
        y.(live := y.live + outcome.Made(), unanswered := y.unanswered + outcome.Made(),
           pc := Abandoned(y.pc.service, y.pc.node))
    case Bind(deleted, now) =>
      var r := BindProvisionedNode(s, y.pc.node, y.pc.instance, y.pc.name, cfg.instanceType, now);
      if r.1.Ok? then y.(store := r.0, pc := Idle)
      else y.(live := if deleted then y.live - {y.pc.instance} else y.live, pc := Abandoned(y.pc.service, y.pc.node))
    case MarkAbandoned(now) =>
      y.(store := MarkNodeDeleted(s, y.pc.node, now).0, pc := Failing(y.pc.service, y.pc.node))
    case FailRun(now) => y.(store := MarkServiceRunFailed(s, y.pc.service, now).0, pc := Idle)
    case Prepare(n, now) =>
      var r := PrepareNodeDeletion(s, n, now);
      var ready := r.1.Ok? && r.1.value.1 && r.1.value.0.instanceId.Some?;
      y.(store := r.0, pc := if ready then Drained(n, r.1.value.0.instanceId.value) else Idle)
    case AskDelete(told, gone) =>
      y.(live := if gone then y.live - {y.pc.instance} else y.live, pc := if told then Gone(y.pc.node) else Idle)
    case MarkDrained(now) => y.(store := MarkNodeDeleted(s, y.pc.node, now).0, pc := Idle)
    case CleanUp(n, told, gone, cutoff, now) =>
      // One step: reading the row, deleting the instance, marking row and runs.
      var row := s.nodes[n];
      if row.status != Provisioning || !row.elastic || row.updatedAt > cutoff then y
      else
        var live := if row.instanceId.Some? && gone then y.live - {row.instanceId.value} else y.live;
        if row.instanceId.Some? && !told then y.(live := live)
        else
          y.(live := live,
             store := FailPendingRuns(MarkNodeDeleted(s, n, now).0, Matching(s, cfg, row.name), now))
  }

  // ---- The invariant ----

  /** At most one row per name and type is being provisioned. */
  ghost predicate SingleProvisioning(s: State) {
    forall m, n | m in s.nodes && n in s.nodes && m != n
                  && s.nodes[m].status == Provisioning && s.nodes[n].status == Provisioning ::
      s.nodes[m].name != s.nodes[n].name || s.nodes[m].instanceType != s.nodes[n].instanceType
  }

  predicate Unbound(s: State, n: NodeId) {
    n in s.nodes && s.nodes[n].status == Provisioning && s.nodes[n].instanceId == None
  }

  predicate HasRow(s: State, instance: string) {
    exists n :: n in s.nodes && s.nodes[n].instanceId == Some(instance)
  }

  predicate Binding(pc: Pc, x: string) {
    pc.Accepted? && pc.instance == x
  }

  /** An instance at the provider is carried by a row, or about to be bound to one, or it was
      made by a request without an answer. */
  ghost predicate InstancesKnown(y: Sys) {
    forall x | x in y.live :: HasRow(y.store, x) || Binding(y.pc, x) || x in y.unanswered
  }

  ghost predicate PcInOrder(y: Sys, cfg: Config) {
    match y.pc
    case Idle => true
    case Chosen(service, name) => service != "" && !HasProvisioning(y.store, name, cfg.instanceType)
    case Created(service, name, n) =>
      service != "" && Unbound(y.store, n) && ProvisioningAs(y.store.nodes[n], name, cfg.instanceType)
    case Accepted(service, name, n, x) =>
      service != "" && Unbound(y.store, n) && ProvisioningAs(y.store.nodes[n], name, cfg.instanceType) && x != ""
    case Abandoned(service, n) => service != "" && Unbound(y.store, n)
    case Failing(service, n) => service != "" && n in y.store.nodes && y.store.nodes[n].status == Deleted
    case Drained(n, x) =>
      n in y.store.nodes && y.store.nodes[n].status == Draining && y.store.nodes[n].instanceId == Some(x)
    case Gone(n) =>
      && n in y.store.nodes && y.store.nodes[n].status == Draining
      && y.store.nodes[n].instanceId.Some? && y.store.nodes[n].instanceId.value !in y.live
  }

  ghost predicate Inv(y: Sys, cfg: Config) {
    && Tables(y.store)
    && Placed(y.store)
    && SingleProvisioning(y.store)
    && InstancesKnown(y)
    && PcInOrder(y, cfg)
    && "" !in y.store.runs
  }

  // ---- What the other threads cannot do ----

  /** Other threads never make a row provisioning, leave unbound rows alone, cannot bring a
      draining row back, and never change which instance a row carries. */
  predicate RowKept(row: NodeRow, after: NodeRow) {
    && after.instanceId == row.instanceId
    && (after.status == Provisioning ==>
          row.status == Provisioning && after.name == row.name && after.instanceType == row.instanceType)
    && (row.status == Provisioning && row.instanceId == None ==> after.status == Provisioning)
    && (row.status == Draining || row.status == Deleted ==> after.status == row.status)
  }

  ghost predicate RowsKept(nodes: map<NodeId, NodeRow>, after: map<NodeId, NodeRow>) {
    && (forall n | n in nodes :: n in after && RowKept(nodes[n], after[n]))
    && (forall n | n in after && n !in nodes :: after[n].status != Provisioning)
  }

  lemma FreeKeepsRows(nodes: map<NodeId, NodeRow>, n: NodeId, request: Resources, now: Time)
    ensures RowsKept(nodes, FreeOn(nodes, n, request, now))
  {}

  lemma UpsertKeepsRows(s: State, input: UpsertInput, runId: RunId, now: Time)
    ensures RowsKept(s.nodes, UpsertService(s, input, runId, now).0.nodes)
  {
    if input.id in s.runs && s.runs[input.id].node.Some? {
      FreeKeepsRows(s.nodes, s.runs[input.id].node.value, s.runs[input.id].request, now);
    }
  }

  lemma DeleteKeepsRows(s: State, id: ServiceId, generation: int, textOk: bool, now: Time)
    ensures RowsKept(s.nodes, DeleteService(s, id, generation, textOk, now).0.nodes)
  {
    if id in s.runs && s.runs[id].node.Some? {
      FreeKeepsRows(s.nodes, s.runs[id].node.value, s.runs[id].request, now);
    }
  }

  lemma ClaimKeepsRows(s: State, n: NodeId, c: ClaimChoice, now: Time)
    requires ClaimSelects(s, n, c)
    ensures RowsKept(s.nodes, ClaimServiceRun(s, n, c, now).0.nodes)
  {}

  lemma ReportKeepsRows(s: State, n: NodeId, execution: RunId, input: ReportInput, now: Time)
    requires RunIdsDiffer(s.runs)
    ensures RowsKept(s.nodes, Report(s, n, execution, input, now).0.nodes)
  {
    if i :| input.Valid() && Reported(s, n, execution, i) {
      ReportIsOn(s, n, execution, i, input, now);
      FreeKeepsRows(s.nodes, n, s.runs[i].request, now);
    }
  }

  lemma RegisterKeepsRows(s: State, input: RegisterInput, id: NodeId, now: Time)
    ensures RowsKept(s.nodes, RegisterNode(s, input, id, now).0.nodes)
  {}

  lemma HeartbeatKeepsRows(s: State, n: NodeId, cpu: int, mem: int, now: Time)
    requires Placed(s)
    ensures RowsKept(s.nodes, RecordNodeHeartbeat(s, n, cpu, mem, now).0.nodes)
  {}

  lemma SweepKeepsRows(s: State, cutoff: Time, now: Time)
    requires Placed(s)
    ensures RowsKept(s.nodes, MarkStaleNodeHeartbeatsOffline(s, cutoff, now).nodes)
  {}

  lemma WorkKeepsRows(s: State, step: Step)
    requires RunIdsDiffer(s.runs) && Enabled(s, step.op)
    requires step.op.OpUpsert? || step.op.OpDelete? || step.op.OpClaim? || step.op.OpReport?
    ensures RowsKept(s.nodes, Next(s, step).nodes)
  {
    var now := step.now;
    match step.op {
      case OpUpsert(input, runId) => UpsertKeepsRows(s, input, runId, now);
      case OpDelete(id, generation, textOk) => DeleteKeepsRows(s, id, generation, textOk, now);
      case OpClaim(n, choice) => ClaimKeepsRows(s, n, choice, now);
      case OpReport(n, execution, report) => ReportKeepsRows(s, n, execution, report, now);
    }
  }

  lemma OutsideKeepsRows(s: State, step: Step)
    requires Placed(s) && RunIdsDiffer(s.runs) && FromOutside(step.op) && Enabled(s, step.op)
    ensures RowsKept(s.nodes, Next(s, step).nodes)
  {
    match step.op {
      case OpRegister(input, id) => RegisterKeepsRows(s, input, id, step.now);
      case OpHeartbeat(n, cpu, mem) => HeartbeatKeepsRows(s, n, cpu, mem, step.now);
      case OpSweep(cutoff) => SweepKeepsRows(s, cutoff, step.now);
      case _ => WorkKeepsRows(s, step);
    }
  }

  // ---- Every move keeps the invariant ----

  lemma RowsKeptKeepSingle(s: State, after: State)
    requires SingleProvisioning(s) && RowsKept(s.nodes, after.nodes)
    ensures SingleProvisioning(after)
  {}

  lemma RowsKeptKeepKnown(y: Sys, after: State)
    requires InstancesKnown(y) && RowsKept(y.store.nodes, after.nodes)
    ensures InstancesKnown(y.(store := after))
  {
    forall x | x in y.live
      ensures HasRow(after, x) || Binding(y.pc, x) || x in y.unanswered
    {
      if n :| n in y.store.nodes && y.store.nodes[n].instanceId == Some(x) {
        assert n in after.nodes && after.nodes[n].instanceId == Some(x);
      }
    }
  }

  lemma RowsKeptKeepPc(y: Sys, cfg: Config, after: State)
    requires PcInOrder(y, cfg) && RowsKept(y.store.nodes, after.nodes)
    ensures PcInOrder(y.(store := after), cfg)
  {}

  /** Every run is that of a service with an identifier. */
  lemma OutsideNamesRuns(s: State, step: Step)
    requires Enabled(s, step.op) && FromOutside(step.op) && "" !in s.runs
    ensures "" !in Next(s, step).runs
  {}

  lemma OutsideKeepsInv(y: Sys, cfg: Config, step: Step)
    requires Inv(y, cfg) && Can(y, cfg, Outside(step))
    ensures Inv(Apply(y, cfg, Outside(step)), cfg)
  {
    var after := Next(y.store, step);
    StepKeepsTables(y.store, step);
    OtherStepsPlace(y.store, step);
    OutsideKeepsRows(y.store, step);
    OutsideNamesRuns(y.store, step);
    RowsKeptKeepSingle(y.store, after);
    RowsKeptKeepKnown(y, after);
    RowsKeptKeepPc(y, cfg, after);
  }

  lemma InsertKeepsInv(y: Sys, cfg: Config, id: NodeId, now: Time)
    requires Inv(y, cfg) && Can(y, cfg, Insert(id, now))
    ensures Inv(Apply(y, cfg, Insert(id, now)), cfg)
  {
    var input := ProvisioningInput(cfg.provider, cfg.region, y.pc.name, cfg.instanceType, true);
    var after := CreateProvisioningNode(y.store, input, id, now).0;
    CreateKeepsTables(y.store, input, id, now);
    CreatePlaces(y.store, input, id, now);
    assert forall m | m in y.store.nodes :: !ProvisioningAs(y.store.nodes[m], y.pc.name, cfg.instanceType);
    forall x | HasRow(y.store, x)
      ensures HasRow(after, x)
    {
      var m :| m in y.store.nodes && y.store.nodes[m].instanceId == Some(x);
      assert m in after.nodes && after.nodes[m].instanceId == Some(x);
    }
  }

  lemma BindKeepsInv(y: Sys, cfg: Config, deleted: bool, now: Time)
    requires Inv(y, cfg) && Can(y, cfg, Bind(deleted, now))
    ensures Inv(Apply(y, cfg, Bind(deleted, now)), cfg)
  {
    var s, n, x := y.store, y.pc.node, y.pc.instance;
    BindKeepsTables(s, n, x, y.pc.name, cfg.instanceType, now);
    BindPlaces(s, n, x, y.pc.name, cfg.instanceType, now);
    var r := BindProvisionedNode(s, n, x, y.pc.name, cfg.instanceType, now);
    if r.1.Ok? {
      assert r.0.nodes[n].instanceId == Some(x);
      forall z | HasRow(s, z)
        ensures HasRow(r.0, z)
      {
        var m :| m in s.nodes && s.nodes[m].instanceId == Some(z);
        assert r.0.nodes[m].instanceId == Some(z);
      }
    } else {
      assert InstanceTaken(s, n, s.nodes[n].provider, x);
    }
  }

  /** Marking deleted a row without an instance at the provider forgets no instance. */
  lemma MarkDeletedKeepsKnown(y: Sys, n: NodeId, now: Time)
    requires InstancesKnown(y) && SingleProvisioning(y.store) && n in y.store.nodes && !y.pc.Accepted?
    requires y.store.nodes[n].instanceId.Some? ==> y.store.nodes[n].instanceId.value !in y.live
    ensures InstancesKnown(y.(store := MarkNodeDeleted(y.store, n, now).0))
    ensures SingleProvisioning(MarkNodeDeleted(y.store, n, now).0)
  {
    var after := MarkNodeDeleted(y.store, n, now).0;
    forall x | x in y.live && x !in y.unanswered
      ensures HasRow(after, x)
    {
      var m :| m in y.store.nodes && y.store.nodes[m].instanceId == Some(x);
      assert after.nodes[m].instanceId == Some(x);
    }
  }

  lemma MarkKeepsInv(y: Sys, cfg: Config, move: Move)
    requires Inv(y, cfg) && Can(y, cfg, move) && (move.MarkAbandoned? || move.MarkDrained?)
    ensures Inv(Apply(y, cfg, move), cfg)
  {
    MarkDeletedKeepsTables(y.store, y.pc.node, move.now);
    UnusableIsIdle(y.store, y.pc.node);
    MarkDeletedPlacesIff(y.store, y.pc.node, move.now);
    MarkDeletedKeepsKnown(y, y.pc.node, move.now);
  }

  lemma FailRunKeepsInv(y: Sys, cfg: Config, now: Time)
    requires Inv(y, cfg) && Can(y, cfg, FailRun(now))
    ensures Inv(Apply(y, cfg, FailRun(now)), cfg)
  {
    FailKeepsTables(y.store, y.pc.service, {}, now);
    FailsPlace(y.store, y.pc.service, {}, now);
  }

  lemma PrepareKeepsRows(s: State, n: NodeId, now: Time)
    ensures RowsKept(s.nodes, PrepareNodeDeletion(s, n, now).0.nodes)
  {}

  lemma PrepareKeepsInv(y: Sys, cfg: Config, n: NodeId, now: Time)
    requires Inv(y, cfg) && Can(y, cfg, Prepare(n, now))
    ensures Inv(Apply(y, cfg, Prepare(n, now)), cfg)
  {
    PrepareKeepsTables(y.store, n, now);
    PreparePlaces(y.store, n, now);
    var after := PrepareNodeDeletion(y.store, n, now).0;
    PrepareKeepsRows(y.store, n, now);
    RowsKeptKeepSingle(y.store, after);
    RowsKeptKeepKnown(y, after);
  }

  /** The halves of the invariant that speak of rows, instances and the reconciler. */
  lemma CleanUpKeepsRest(y: Sys, cfg: Config, n: NodeId, told: bool, gone: bool, cutoff: Time,
                           now: Time)
    requires Inv(y, cfg) && Can(y, cfg, CleanUp(n, told, gone, cutoff, now))
    ensures var next := Apply(y, cfg, CleanUp(n, told, gone, cutoff, now));
            SingleProvisioning(next.store) && InstancesKnown(next) && next.pc.Idle?
  {
    var row := y.store.nodes[n];
    if row.status == Provisioning && row.elastic && row.updatedAt <= cutoff && (row.instanceId.Some? ==> told) {
      var live := if row.instanceId.Some? then y.live - {row.instanceId.value} else y.live;
      MarkDeletedKeepsKnown(y.(live := live), n, now);
    }
  }

  lemma CleanUpKeepsStore(y: Sys, cfg: Config, n: NodeId, told: bool, gone: bool, cutoff: Time,
                           now: Time)
    requires Tables(y.store) && Placed(y.store) && Can(y, cfg, CleanUp(n, told, gone, cutoff, now))
    ensures var next := Apply(y, cfg, CleanUp(n, told, gone, cutoff, now));
            Tables(next.store) && Placed(next.store)
  {
    var row := y.store.nodes[n];
    if row.status == Provisioning && row.elastic && row.updatedAt <= cutoff && (row.instanceId.Some? ==> told) {
      var after := MarkNodeDeleted(y.store, n, now).0;
      MarkDeletedKeepsTables(y.store, n, now);
      UnusableIsIdle(y.store, n);
      MarkDeletedPlacesIff(y.store, n, now);
      FailKeepsTables(after, "", Matching(y.store, cfg, row.name), now);
      FailsPlace(after, "", Matching(y.store, cfg, row.name), now);
    }
  }

  lemma CleanUpKeepsInv(y: Sys, cfg: Config, n: NodeId, told: bool, gone: bool, cutoff: Time,
                           now: Time)
    requires Inv(y, cfg) && Can(y, cfg, CleanUp(n, told, gone, cutoff, now))
    ensures Inv(Apply(y, cfg, CleanUp(n, told, gone, cutoff, now)), cfg)
  {
    CleanUpKeepsStore(y, cfg, n, told, gone, cutoff, now);
    CleanUpKeepsRest(y, cfg, n, told, gone, cutoff, now);
  }

  lemma MoveKeepsInv(y: Sys, cfg: Config, move: Move)
    requires Inv(y, cfg) && Can(y, cfg, move)
    ensures Inv(Apply(y, cfg, move), cfg)
  {
    match move {
      case Outside(step) => OutsideKeepsInv(y, cfg, step);
      case Insert(id, now) => InsertKeepsInv(y, cfg, id, now);
      case Bind(deleted, now) => BindKeepsInv(y, cfg, deleted, now);
      case MarkAbandoned(_) => MarkKeepsInv(y, cfg, move);
      case MarkDrained(_) => MarkKeepsInv(y, cfg, move);
      case FailRun(now) => FailRunKeepsInv(y, cfg, now);
      case Prepare(n, now) => PrepareKeepsInv(y, cfg, n, now);
      case CleanUp(n, told, gone, cutoff, now) => CleanUpKeepsInv(y, cfg, n, told, gone, cutoff, now);
      case _ =>
    }
  }

  ghost predicate History(y: Sys, cfg: Config, moves: seq<Move>)
    decreases |moves|
  {
    moves == [] || (Can(y, cfg, moves[0]) && History(Apply(y, cfg, moves[0]), cfg, moves[1..]))
  }

  ghost function Reached(y: Sys, cfg: Config, moves: seq<Move>): Sys
    requires History(y, cfg, moves)
    decreases |moves|
  {
    if moves == [] then y else Reached(Apply(y, cfg, moves[0]), cfg, moves[1..])
  }

  lemma {:induction false} EveryInterleaving(y: Sys, cfg: Config, moves: seq<Move>)
    requires Inv(y, cfg) && History(y, cfg, moves)
    ensures Inv(Reached(y, cfg, moves), cfg)
    decreases |moves|
  {
    if moves != [] {
      MoveKeepsInv(y, cfg, moves[0]);
      EveryInterleaving(Apply(y, cfg, moves[0]), cfg, moves[1..]);
    }
  }

  /** The instances that the requests without an answer among `moves` made. */
  function MadeUnanswered(moves: seq<Move>): set<string> {
    if moves == [] then {}
    else (if moves[0].AskProvider? && moves[0].outcome.NoAnswer? then moves[0].outcome.Made() else {})
         + MadeUnanswered(moves[1..])
  }

  lemma {:induction false} UnansweredAreThose(y: Sys, cfg: Config, moves: seq<Move>)
    requires History(y, cfg, moves)
    ensures Reached(y, cfg, moves).unanswered == y.unanswered + MadeUnanswered(moves)
    decreases |moves|
  {
    if moves != [] {
      UnansweredAreThose(Apply(y, cfg, moves[0]), cfg, moves[1..]);
    }
  }

  /** At the provider, without a row, and about to get none. */
  predicate Forgotten(y: Sys, x: string) {
    x in y.live && !HasRow(y.store, x) && !Binding(y.pc, x)
  }

  const EMPTY_PLANE := Sys(EMPTY, Idle, {}, {})

  /** In every interleaving from an empty plane: at most one row per name and type is being
      provisioned, active runs sit on usable nodes, and only instances that requests without
      an answer made can be forgotten. */
  lemma FromEmptyPlane(cfg: Config, moves: seq<Move>)
    requires History(EMPTY_PLANE, cfg, moves)
    ensures
      var y := Reached(EMPTY_PLANE, cfg, moves);
      && SingleProvisioning(y.store)
      && ActiveRunsOnUsableNodes(y.store)
      && forall x | Forgotten(y, x) :: x in MadeUnanswered(moves)
  {
    EveryInterleaving(EMPTY_PLANE, cfg, moves);
    UnansweredAreThose(EMPTY_PLANE, cfg, moves);
  }

  // ---- Forgotten instances ----

  /** A registration that gives instance `x` a row of its own. */
  predicate Registers(y: Sys, move: Move, x: string) {
    && move.Outside? && move.step.op.OpRegister?
    && move.step.op.registration.Valid() && move.step.op.registration.instanceId == x
    && move.step.op.nodeId !in y.store.nodes
  }

  predicate Answers(move: Move, x: string) {
    move.AskProvider? && move.outcome.Answer? && move.outcome.result.instanceId == x
  }

  /** A create request forgets an instance exactly when it goes without an answer and has made
      one that no row carries. */
  lemma CreateForgetsIff(y: Sys, cfg: Config, outcome: CreateOutcome, x: string)
    requires Inv(y, cfg) && Can(y, cfg, AskProvider(outcome)) && !Forgotten(y, x)
    ensures Forgotten(Apply(y, cfg, AskProvider(outcome)), x)
       <==> outcome == NoAnswer(Some(x)) && !HasRow(y.store, x)
  {}

  lemma OnlyRegistrationsAddRows(s: State, step: Step)
    requires FromOutside(step.op) && Enabled(s, step.op) && !step.op.OpRegister?
    ensures Next(s, step).nodes.Keys == s.nodes.Keys
  {}

  lemma RegistrationAddsRow(s: State, input: RegisterInput, id: NodeId, now: Time, x: string)
    requires !HasRow(s, x)
    ensures HasRow(RegisterNode(s, input, id, now).0, x)
       <==> input.Valid() && input.instanceId == x && id !in s.nodes
  {
    var after := RegisterNode(s, input, id, now).0;
    if input.Valid() && input.instanceId == x && id !in s.nodes {
      assert forall n :: !IsInstance(s, input.provider, x, n);
      assert after.nodes[id].instanceId == Some(x);
    }
  }

  lemma OutsideForgets(y: Sys, cfg: Config, step: Step, x: string)
    requires Inv(y, cfg) && Can(y, cfg, Outside(step)) && !HasRow(y.store, x)
    ensures HasRow(Next(y.store, step), x) <==> Registers(y, Outside(step), x)
  {
    if step.op.OpRegister? {
      RegistrationAddsRow(y.store, step.op.registration, step.op.nodeId, step.now, x);
    } else {
      OnlyRegistrationsAddRows(y.store, step);
      OutsideKeepsRows(y.store, step);
    }
  }

  /** Of the reconciler's own moves only an answered request remembers the instance. */
  lemma OwnMovesForget(y: Sys, cfg: Config, move: Move, x: string)
    requires Inv(y, cfg) && Can(y, cfg, move) && Forgotten(y, x) && !move.Outside? && !move.CleanUp?
    ensures Forgotten(Apply(y, cfg, move), x) <==> !Answers(move, x)
  {}

  lemma CleanUpForgets(y: Sys, cfg: Config, move: Move, x: string)
    requires Inv(y, cfg) && Can(y, cfg, move) && Forgotten(y, x) && move.CleanUp?
    ensures Forgotten(Apply(y, cfg, move), x)
  {}

  /** A forgotten instance stays forgotten, whatever anybody does, exactly until its own agent
      registers it or the provider answers a create request with it. */
  lemma ForgottenUntilSeen(y: Sys, cfg: Config, move: Move, x: string)
    requires Inv(y, cfg) && Can(y, cfg, move) && Forgotten(y, x)
    ensures Forgotten(Apply(y, cfg, move), x) <==> !Registers(y, move, x) && !Answers(move, x)
  {
    match move {
      case Outside(step) => OutsideForgets(y, cfg, step, x);
      case CleanUp(_, _, _, _, _) => CleanUpForgets(y, cfg, move, x);
      case _ => OwnMovesForget(y, cfg, move, x);
    }
  }

  /** The row that registration gives it is not elastic: no pass of the reconciler takes it down. */
  lemma SeenLateIsNotElastic(y: Sys, cfg: Config, move: Move, x: string)
    requires Inv(y, cfg) && Can(y, cfg, move) && Forgotten(y, x) && Registers(y, move, x)
    ensures var after, n := Apply(y, cfg, move).store, move.step.op.nodeId;
            n in after.nodes && after.nodes[n].instanceId == Some(x) && !after.nodes[n].elastic
  {
    assert forall n :: !IsInstance(y.store, move.step.op.registration.provider, x, n);
  }

  // ---- One creation, from the inserted row to the return ----

  predicate CreatingRow(pc: Pc, n: NodeId) {
    (pc.Created? || pc.Accepted? || pc.Abandoned? || pc.Failing?) && pc.node == n
  }

  /** The reconciler returns at the end of `moves` and not before. */
  ghost predicate ReturnsAtEnd(y: Sys, cfg: Config, moves: seq<Move>)
    requires History(y, cfg, moves)
    decreases |moves|
  {
    if moves == [] then y.pc.Idle? else !y.pc.Idle? && ReturnsAtEnd(Apply(y, cfg, moves[0]), cfg, moves[1..])
  }

  predicate RunGivenUp(s: State, service: ServiceId) {
    service in s.runs ==> s.runs[service].status != Pending && s.runs[service].status != Deploying
  }

  /** What the last step of a creation leaves: the row is bound, or it is deleted and its
      run is no longer pending. */
  predicate Settled(s: State, n: NodeId, service: ServiceId) {
    n in s.nodes && (s.nodes[n].instanceId.Some? || (s.nodes[n].status == Deleted && RunGivenUp(s, service)))
  }

  lemma CreationStep(y: Sys, cfg: Config, move: Move, n: NodeId)
    requires Inv(y, cfg) && Can(y, cfg, move) && CreatingRow(y.pc, n)
    ensures
      var after := Apply(y, cfg, move);
      || (CreatingRow(after.pc, n) && after.pc.service == y.pc.service)
      || (after.pc.Idle? && Settled(after.store, n, y.pc.service))
  {}

  /** However the other threads interleave: when the reconciler returns from creating row `n`,
      the row is bound to an instance, or it is deleted and the run is given up. */
  lemma {:induction false} CreationSettles(y: Sys, cfg: Config, moves: seq<Move>, n: NodeId)
    requires Inv(y, cfg) && History(y, cfg, moves) && ReturnsAtEnd(y, cfg, moves)
    requires CreatingRow(y.pc, n)
    ensures Settled(Reached(y, cfg, moves).store, n, y.pc.service)
    decreases |moves|
  {
    var after := Apply(y, cfg, moves[0]);
    CreationStep(y, cfg, moves[0], n);
    MoveKeepsInv(y, cfg, moves[0]);
    if !after.pc.Idle? {
      CreationSettles(after, cfg, moves[1..], n);
    }
  }
}
