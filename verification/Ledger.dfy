/** The resource ledger: `allocated` of a node against the requests its runs hold. */
module Ledger {
  import opened StoreModel
  import opened StoreSpec
  import opened StoreTables
  import opened Generations

  /** Run `i` holds its reservation on `n`: it is being started or deleted there, runs there,
      or waits there (with its container) to be deleted. */
  predicate Held(s: State, i: ServiceId, n: NodeId) {
    && i in s.runs && i in s.services
    && s.runs[i].node == Some(n)
    && (s.runs[i].status == Deploying || s.runs[i].status == Running
        || (s.runs[i].status == Pending && s.services[i].desired == DesiredDeleted))
  }

  ghost function HeldOn(s: State, n: NodeId): map<ServiceId, Resources> {
    map i | i in s.runs && Held(s, i, n) :: s.runs[i].request
  }

  ghost function Load(s: State, n: NodeId): Resources {
    Sum(HeldOn(s, n))
  }

  predicate Live(s: State, n: NodeId) {
    n in s.nodes && s.nodes[n].status != Deleted
  }

  /** No overcommit: on every node that is not deleted, what is held is accounted for. */
  ghost predicate Covered(s: State) {
    forall n | Live(s, n) :: Load(s, n).Within(s.nodes[n].allocation)
  }

  datatype Difference = Difference(cpu: int, mem: int)

  /** What `allocated` counts beyond the requests that are held. */
  ghost function Drift(s: State, n: NodeId): Difference
    requires n in s.nodes
  {
    Difference(s.nodes[n].allocation.cpu - Load(s, n).cpu, s.nodes[n].allocation.mem - Load(s, n).mem)
  }

  ghost predicate DriftsBy(s: State, after: State, n: NodeId, leak: Resources)
    requires n in s.nodes && n in after.nodes
  {
    && Drift(after, n).cpu == Drift(s, n).cpu + leak.cpu
    && Drift(after, n).mem == Drift(s, n).mem + leak.mem
  }

  // ---- How the load moves when one run changes ----

  ghost function Weight(s: State, i: ServiceId, n: NodeId): Resources {
    if Held(s, i, n) then s.runs[i].request else NOTHING
  }

  lemma LoadWithout(s: State, i: ServiceId, n: NodeId)
    ensures Adds(Load(s, n), Weight(s, i, n), Sum(HeldOn(s, n) - {i}))
  {
    if Held(s, i, n) {
      SumRemove(HeldOn(s, n), i);
    } else {
      assert HeldOn(s, n) - {i} == HeldOn(s, n);
    }
  }

  ghost predicate SameButFor(s: State, after: State, i: ServiceId, n: NodeId) {
    forall j | j != i :: (Held(s, j, n) <==> Held(after, j, n))
                      && (Held(s, j, n) ==> s.runs[j].request == after.runs[j].request)
  }

  lemma OthersStay(s: State, after: State, i: ServiceId, n: NodeId)
    requires SameButFor(s, after, i, n)
    ensures HeldOn(s, n) - {i} == HeldOn(after, n) - {i}
  {}

  lemma OneRunMoves(s: State, after: State, i: ServiceId, n: NodeId)
    requires SameButFor(s, after, i, n)
    ensures Load(after, n).cpu - Load(s, n).cpu == Weight(after, i, n).cpu - Weight(s, i, n).cpu
    ensures Load(after, n).mem - Load(s, n).mem == Weight(after, i, n).mem - Weight(s, i, n).mem
  {
    assert HeldOn(s, n) - {i} == HeldOn(after, n) - {i} by {
      OthersStay(s, after, i, n);
    }
    LoadWithout(s, i, n);
    LoadWithout(after, i, n);
  }

  /** `allocated` of `n` moves with the weight of run `i`, except for `leak`. */
  ghost predicate Balanced(s: State, after: State, i: ServiceId, n: NodeId, leak: Resources) {
    && n in s.nodes && n in after.nodes
    && after.nodes[n].allocation.cpu - s.nodes[n].allocation.cpu
       == Weight(after, i, n).cpu - Weight(s, i, n).cpu + leak.cpu
    && after.nodes[n].allocation.mem - s.nodes[n].allocation.mem
       == Weight(after, i, n).mem - Weight(s, i, n).mem + leak.mem
  }

  lemma BalancedDrifts(s: State, after: State, i: ServiceId, n: NodeId, leak: Resources)
    requires SameButFor(s, after, i, n) && Balanced(s, after, i, n, leak)
    ensures DriftsBy(s, after, n, leak)
  {
    OneRunMoves(s, after, i, n);
  }

  /** What `HeldIsCovered` gives for run `i`: freeing a held request is never clamped. */
  predicate Covers(s: State, i: ServiceId, n: NodeId) {
    n in s.nodes && (Held(s, i, n) ==> s.runs[i].request.Within(s.nodes[n].allocation))
  }

  lemma HeldIsCovered(s: State, i: ServiceId, n: NodeId)
    requires Covered(s) && Live(s, n)
    ensures Covers(s, i, n)
  {
    LoadWithout(s, i, n);
  }

  // ---- The drift law ----

  /** A pending run that an update left pinned to its node: it holds nothing there. */
  predicate PinnedByUpdate(s: State, i: ServiceId) {
    && i in s.runs && i in s.services
    && s.runs[i].node.Some? && s.runs[i].status == Pending && s.services[i].desired == DesiredActive
  }

  ghost predicate Supersedes(s: State, input: UpsertInput) {
    && input.Valid() && !NameOrHostTaken(s, input)
    && input.id in s.services && !StaleUpsert(s.services[input.id], input.generation)
    && input.id in s.runs && s.runs[input.id].generation < input.generation
  }

  ghost function LostByFailing(s: State, matching: set<ServiceId>, n: NodeId): map<ServiceId, Resources> {
    map i | i in s.runs && i in matching && Held(s, i, n) && s.runs[i].status == Pending :: s.runs[i].request
  }

  /** The reservations on `n` that a step forgets to give back. */
  ghost function Leak(s: State, op: Op, n: NodeId): Resources {
    match op
    case OpUpsert(input, _) =>
      if Supersedes(s, input) && s.runs[input.id].status != Running then Weight(s, input.id, n) else NOTHING
    case OpDelete(id, generation, textOk) =>
      if textOk && generation > 0 && id in s.runs && s.runs[id].status == Running && s.runs[id].containerId == ""
      then Weight(s, id, n) else NOTHING
    case OpMarkFailed(id) =>
      if id != "" && id in s.runs && s.runs[id].status != Running then Weight(s, id, n) else NOTHING
    case OpFailPending(matching) => Sum(LostByFailing(s, matching, n))
    case _ => NOTHING
  }

  ghost predicate Sound(s: State) {
    Tables(s) && Agreement(s) && Covered(s)
  }

  lemma UpsertMoves(s: State, input: UpsertInput, runId: RunId, now: Time, n: NodeId)
    ensures SameButFor(s, UpsertService(s, input, runId, now).0, input.id, n)
  {}

  lemma UpsertBalances(s: State, input: UpsertInput, runId: RunId, now: Time, n: NodeId)
    requires Covers(s, input.id, n)
    requires input.id in s.runs ==>
               input.id in s.services && s.runs[input.id].generation == s.services[input.id].generation
    ensures Balanced(s, UpsertService(s, input, runId, now).0, input.id, n, Leak(s, OpUpsert(input, runId), n))
  {}

  lemma DeleteMoves(s: State, id: ServiceId, generation: int, textOk: bool, now: Time, n: NodeId)
    ensures SameButFor(s, DeleteService(s, id, generation, textOk, now).0, id, n)
  {}

  lemma DeleteBalances(s: State, id: ServiceId, generation: int, textOk: bool, now: Time, n: NodeId)
    requires Covers(s, id, n) && !PinnedByUpdate(s, id)
    requires id in s.runs ==> id in s.services
    ensures Balanced(s, DeleteService(s, id, generation, textOk, now).0, id, n,
                     Leak(s, OpDelete(id, generation, textOk), n))
  {}

  lemma ClaimMoves(s: State, m: NodeId, c: ClaimChoice, now: Time, n: NodeId)
    requires c != NoWork && ClaimSelects(s, m, c)
    ensures SameButFor(s, ClaimServiceRun(s, m, c, now).0, c.id, n)
  {}

  lemma ClaimBalances(s: State, m: NodeId, c: ClaimChoice, now: Time, n: NodeId)
    requires c != NoWork && ClaimSelects(s, m, c) && n in s.nodes
    ensures Balanced(s, ClaimServiceRun(s, m, c, now).0, c.id, n, NOTHING)
  {}

  lemma ReportMoves(s: State, m: NodeId, i: ServiceId, input: ReportInput, now: Time, n: NodeId)
    requires i in s.runs && i in s.services
    ensures SameButFor(s, ReportOn(s, m, i, input, now).0, i, n)
  {}

  lemma ReportBalances(s: State, m: NodeId, execution: RunId, i: ServiceId, input: ReportInput, now: Time, n: NodeId)
    requires Reported(s, m, execution, i) && input.Valid() && Covers(s, i, n)
    ensures Balanced(s, ReportOn(s, m, i, input, now).0, i, n, NOTHING)
  {}

  lemma NodeStepDrift(s: State, after: State, n: NodeId)
    requires n in s.nodes && n in after.nodes
    requires after.services == s.services && after.runs == s.runs
    requires after.nodes[n].allocation == s.nodes[n].allocation
    ensures DriftsBy(s, after, n, NOTHING)
  {
    assert HeldOn(after, n) == HeldOn(s, n);
  }

  lemma FailPendingSplits(s: State, matching: set<ServiceId>, now: Time, n: NodeId)
    ensures Inside(HeldOn(s, n), LostByFailing(s, matching, n).Keys) == LostByFailing(s, matching, n)
    ensures Outside(HeldOn(s, n), LostByFailing(s, matching, n).Keys) == HeldOn(FailPendingRuns(s, matching, now), n)
  {}

  /** Which of the steps the law covers for node `n`. */
  ghost predicate Lawful(s: State, op: Op, n: NodeId) {
    && !(op.OpDelete? && PinnedByUpdate(s, op.id))
    && !(op.OpMarkDeleted? && op.node == n)
    && !(op.OpSweep? && Stale(s, n, op.cutoff))
  }

  // One lemma for each kind of step, then the law.

  lemma UpsertDrift(s: State, input: UpsertInput, runId: RunId, now: Time, n: NodeId)
    requires Sound(s) && Live(s, n)
    ensures n in UpsertService(s, input, runId, now).0.nodes
    ensures DriftsBy(s, UpsertService(s, input, runId, now).0, n, Leak(s, OpUpsert(input, runId), n))
  {
    HeldIsCovered(s, input.id, n);
    UpsertMoves(s, input, runId, now, n);
    UpsertBalances(s, input, runId, now, n);
    BalancedDrifts(s, UpsertService(s, input, runId, now).0, input.id, n, Leak(s, OpUpsert(input, runId), n));
  }

  lemma DeleteDrift(s: State, id: ServiceId, generation: int, textOk: bool, now: Time, n: NodeId)
    requires Sound(s) && Live(s, n) && !PinnedByUpdate(s, id)
    ensures n in DeleteService(s, id, generation, textOk, now).0.nodes
    ensures DriftsBy(s, DeleteService(s, id, generation, textOk, now).0, n,
                     Leak(s, OpDelete(id, generation, textOk), n))
  {
    HeldIsCovered(s, id, n);
    DeleteMoves(s, id, generation, textOk, now, n);
    DeleteBalances(s, id, generation, textOk, now, n);
    BalancedDrifts(s, DeleteService(s, id, generation, textOk, now).0, id, n,
                   Leak(s, OpDelete(id, generation, textOk), n));
  }

  lemma MarkFailedBalances(s: State, id: ServiceId, now: Time, n: NodeId)
    requires n in s.nodes && s.runs.Keys <= s.services.Keys
    ensures SameButFor(s, MarkServiceRunFailed(s, id, now).0, id, n)
    ensures Balanced(s, MarkServiceRunFailed(s, id, now).0, id, n, Leak(s, OpMarkFailed(id), n))
  {}

  lemma MarkFailedDrift(s: State, id: ServiceId, now: Time, n: NodeId)
    requires n in s.nodes && s.runs.Keys <= s.services.Keys
    ensures DriftsBy(s, MarkServiceRunFailed(s, id, now).0, n, Leak(s, OpMarkFailed(id), n))
  {
    MarkFailedBalances(s, id, now, n);
    BalancedDrifts(s, MarkServiceRunFailed(s, id, now).0, id, n, Leak(s, OpMarkFailed(id), n));
  }

  lemma FailPendingAdds(s: State, matching: set<ServiceId>, now: Time, n: NodeId)
    ensures Adds(Load(s, n), Load(FailPendingRuns(s, matching, now), n), Sum(LostByFailing(s, matching, n)))
  {
    FailPendingSplits(s, matching, now, n);
    var lost := LostByFailing(s, matching, n);
    SumOfParts(HeldOn(s, n), lost.Keys, lost, HeldOn(FailPendingRuns(s, matching, now), n));
  }

  lemma SameAllocationDrifts(s: State, after: State, n: NodeId, leak: Resources)
    requires n in s.nodes && after.nodes == s.nodes
    requires Adds(Load(s, n), Load(after, n), leak)
    ensures DriftsBy(s, after, n, leak)
  {}

  lemma FailPendingDrift(s: State, matching: set<ServiceId>, now: Time, n: NodeId)
    requires n in s.nodes
    ensures DriftsBy(s, FailPendingRuns(s, matching, now), n, Sum(LostByFailing(s, matching, n)))
  {
    FailPendingAdds(s, matching, now, n);
    SameAllocationDrifts(s, FailPendingRuns(s, matching, now), n, Sum(LostByFailing(s, matching, n)));
  }

  lemma ClaimDrift(s: State, m: NodeId, c: ClaimChoice, now: Time, n: NodeId)
    requires n in s.nodes && ClaimSelects(s, m, c)
    ensures n in ClaimServiceRun(s, m, c, now).0.nodes
    ensures DriftsBy(s, ClaimServiceRun(s, m, c, now).0, n, NOTHING)
  {
    if c != NoWork {
      ClaimMoves(s, m, c, now, n);
      ClaimBalances(s, m, c, now, n);
      BalancedDrifts(s, ClaimServiceRun(s, m, c, now).0, c.id, n, NOTHING);
    }
  }

  lemma ReportDrift(s: State, m: NodeId, execution: RunId, input: ReportInput, now: Time, n: NodeId)
    requires Sound(s) && Live(s, n)
    ensures n in Report(s, m, execution, input, now).0.nodes
    ensures DriftsBy(s, Report(s, m, execution, input, now).0, n, NOTHING)
  {
    if i :| input.Valid() && Reported(s, m, execution, i) {
      HeldIsCovered(s, i, n);
      ReportIsOn(s, m, execution, i, input, now);
      ReportMoves(s, m, i, input, now, n);
      ReportBalances(s, m, execution, i, input, now, n);
      BalancedDrifts(s, ReportOn(s, m, i, input, now).0, i, n, NOTHING);
    }
  }

  lemma RegistrationDrift(s: State, input: RegisterInput, provisioning: ProvisioningInput, id: NodeId, now: Time,
                          n: NodeId)
    requires n in s.nodes
    ensures n in RegisterNode(s, input, id, now).0.nodes
    ensures n in CreateProvisioningNode(s, provisioning, id, now).0.nodes
    ensures DriftsBy(s, RegisterNode(s, input, id, now).0, n, NOTHING)
    ensures DriftsBy(s, CreateProvisioningNode(s, provisioning, id, now).0, n, NOTHING)
  {
    NodeStepDrift(s, RegisterNode(s, input, id, now).0, n);
    NodeStepDrift(s, CreateProvisioningNode(s, provisioning, id, now).0, n);
  }

  lemma NodeOpDrift(s: State, step: Step, n: NodeId)
    requires n in s.nodes && Enabled(s, step.op) && Lawful(s, step.op, n)
    requires step.op.OpBind? || step.op.OpHeartbeat? || step.op.OpPrepareDeletion? || step.op.OpMarkDeleted?
    ensures n in Next(s, step).nodes && DriftsBy(s, Next(s, step), n, NOTHING)
  {
    NodeStepDrift(s, Next(s, step), n);
  }

  lemma SweepElsewhere(s: State, cutoff: Time, now: Time, n: NodeId)
    requires n in s.nodes && !Stale(s, n, cutoff)
    ensures DriftsBy(s, MarkStaleNodeHeartbeatsOffline(s, cutoff, now), n, NOTHING)
  {
    assert HeldOn(MarkStaleNodeHeartbeatsOffline(s, cutoff, now), n) == HeldOn(s, n);
  }

  /** The drift law: a step moves the drift of a live node by exactly what it leaks. */
  lemma DriftLaw(s: State, step: Step, n: NodeId)
    requires Sound(s) && Live(s, n) && Enabled(s, step.op) && Lawful(s, step.op, n)
    ensures n in Next(s, step).nodes
    ensures DriftsBy(s, Next(s, step), n, Leak(s, step.op, n))
  {
    var now := step.now;
    match step.op {
      case OpUpsert(input, runId) => UpsertDrift(s, input, runId, now, n);
      case OpDelete(id, generation, textOk) => DeleteDrift(s, id, generation, textOk, now, n);
      case OpMarkFailed(id) => MarkFailedDrift(s, id, now, n);
      case OpFailPending(matching) => FailPendingDrift(s, matching, now, n);
      case OpClaim(m, c) => ClaimDrift(s, m, c, now, n);
      case OpReport(m, execution, input) => ReportDrift(s, m, execution, input, now, n);
      case OpCreateNode(input, id) =>
        RegistrationDrift(s, RegisterInput("", "", "", "", "", "", 0, 0, false), input, id, now, n);
      case OpRegister(input, id) =>
        RegistrationDrift(s, input, ProvisioningInput("", "", "", "", false), id, now, n);
      case OpSweep(cutoff) => SweepElsewhere(s, cutoff, now, n);
      case _ => NodeOpDrift(s, step, n);
    }
  }

  // ---- The steps outside the law ----

  ghost function PinnedPending(s: State, n: NodeId): map<ServiceId, Resources> {
    map i | i in s.runs && Impacted(s, n, i) && !Held(s, i, n) :: s.runs[i].request
  }

  lemma ImpactedSplits(s: State, n: NodeId)
    requires s.runs.Keys <= s.services.Keys
    ensures Inside(ImpactedRequests(s, n), HeldOn(s, n).Keys) == HeldOn(s, n)
    ensures Outside(ImpactedRequests(s, n), HeldOn(s, n).Keys) == PinnedPending(s, n)
  {}

  lemma ImpactedAdds(s: State, n: NodeId)
    requires s.runs.Keys <= s.services.Keys
    ensures Adds(Sum(ImpactedRequests(s, n)), Sum(PinnedPending(s, n)), Load(s, n))
  {
    ImpactedSplits(s, n);
    SumOfParts(ImpactedRequests(s, n), HeldOn(s, n).Keys, HeldOn(s, n), PinnedPending(s, n));
  }

  lemma SweepEmpties(s: State, cutoff: Time, now: Time, n: NodeId)
    requires Stale(s, n, cutoff)
    ensures Load(MarkStaleNodeHeartbeatsOffline(s, cutoff, now), n) == NOTHING
  {
    var held := HeldOn(MarkStaleNodeHeartbeatsOffline(s, cutoff, now), n);
    assert |held| == 0;
  }

  lemma LessSettles(allocation: Resources, load: Resources, pinned: Resources, impacted: Resources,
                    before: Difference, after: Resources)
    requires Adds(impacted, pinned, load) && load.Within(allocation) && after == allocation.Less(impacted)
    requires before == Difference(allocation.cpu - load.cpu, allocation.mem - load.mem)
    ensures
      && after.cpu == (if before.cpu >= pinned.cpu then before.cpu - pinned.cpu else 0)
      && after.mem == (if before.mem >= pinned.mem then before.mem - pinned.mem else 0)
  {}

  lemma SweptAllocation(s: State, cutoff: Time, now: Time, n: NodeId)
    requires Stale(s, n, cutoff)
    ensures
      var after := MarkStaleNodeHeartbeatsOffline(s, cutoff, now);
      n in after.nodes && after.nodes[n].allocation == s.nodes[n].allocation.Less(Sum(ImpactedRequests(s, n)))
  {}

  /** The arithmetic of the sweep on one node, in terms of its sums. */
  lemma EatsDrift(s: State, n: NodeId, load: Resources, pinned: Resources, impacted: Resources, before: Difference)
    requires n in s.nodes && load == Load(s, n) && load.Within(s.nodes[n].allocation)
    requires Adds(impacted, pinned, load) && before == Drift(s, n)
    ensures
      var after := s.nodes[n].allocation.Less(impacted);
      && after.cpu == (if before.cpu >= pinned.cpu then before.cpu - pinned.cpu else 0)
      && after.mem == (if before.mem >= pinned.mem then before.mem - pinned.mem else 0)
  {
    assert before.cpu == s.nodes[n].allocation.cpu - load.cpu && before.mem == s.nodes[n].allocation.mem - load.mem;
    LessSettles(s.nodes[n].allocation, load, pinned, impacted, before, s.nodes[n].allocation.Less(impacted));
  }

  lemma LessEatsDrift(s: State, n: NodeId, after: Resources)
    requires n in s.nodes && s.runs.Keys <= s.services.Keys && Load(s, n).Within(s.nodes[n].allocation)
    requires after == s.nodes[n].allocation.Less(Sum(ImpactedRequests(s, n)))
    ensures
      var before, pinned := Drift(s, n), Sum(PinnedPending(s, n));
      && after.cpu == (if before.cpu >= pinned.cpu then before.cpu - pinned.cpu else 0)
      && after.mem == (if before.mem >= pinned.mem then before.mem - pinned.mem else 0)
  {
    ImpactedAdds(s, n);
    EatsDrift(s, n, Load(s, n), Sum(PinnedPending(s, n)), Sum(ImpactedRequests(s, n)), Drift(s, n));
  }

  lemma SweepEatsDrift(s: State, cutoff: Time, now: Time, n: NodeId)
    requires Stale(s, n, cutoff) && s.runs.Keys <= s.services.Keys && Load(s, n).Within(s.nodes[n].allocation)
    ensures
      var after := MarkStaleNodeHeartbeatsOffline(s, cutoff, now);
      var before, pinned := Drift(s, n), Sum(PinnedPending(s, n));
      && n in after.nodes
      && after.nodes[n].allocation.cpu == (if before.cpu >= pinned.cpu then before.cpu - pinned.cpu else 0)
      && after.nodes[n].allocation.mem == (if before.mem >= pinned.mem then before.mem - pinned.mem else 0)
  {
    SweptAllocation(s, cutoff, now, n);
    LessEatsDrift(s, n, MarkStaleNodeHeartbeatsOffline(s, cutoff, now).nodes[n].allocation);
  }

  /** The sweep leaves nothing held on a node it takes offline. It also subtracts the requests
      of pinned pending runs, which were never held: those eat the drift, down to zero. So a
      node whose ledger was exact ends at exactly zero. */
  lemma SweepSettles(s: State, cutoff: Time, now: Time, n: NodeId)
    requires Sound(s) && Stale(s, n, cutoff)
    ensures
      var after := MarkStaleNodeHeartbeatsOffline(s, cutoff, now);
      var before, pinned := Drift(s, n), Sum(PinnedPending(s, n));
      && Load(after, n) == NOTHING
      && after.nodes[n].allocation.cpu == (if before.cpu >= pinned.cpu then before.cpu - pinned.cpu else 0)
      && after.nodes[n].allocation.mem == (if before.mem >= pinned.mem then before.mem - pinned.mem else 0)
      && (before == Difference(0, 0) ==> after.nodes[n].allocation == NOTHING)
  {
    SweepEmpties(s, cutoff, now, n);
    SweepEatsDrift(s, cutoff, now, n);
  }

  /** Deleting a service whose run an update left pinned frees a reservation nobody holds. */
  lemma PinnedDelete(s: State, id: ServiceId, generation: int, now: Time)
    requires generation > 0 && PinnedByUpdate(s, id) && s.runs[id].node.value in s.nodes
    ensures
      var after, n := DeleteService(s, id, generation, true, now).0, s.runs[id].node.value;
      && Load(after, n) == Load(s, n)
      && after.nodes.Keys == s.nodes.Keys
      && after.nodes[n].allocation == s.nodes[n].allocation.Less(s.runs[id].request)
      && after.nodes[n].status == s.nodes[n].status
  {
    var after, n := DeleteService(s, id, generation, true, now).0, s.runs[id].node.value;
    DeleteMoves(s, id, generation, true, now, n);
    OthersStay(s, after, id, n);
    assert HeldOn(s, n) - {id} == HeldOn(s, n) && HeldOn(after, n) - {id} == HeldOn(after, n);
  }

  lemma DeleteElsewhere(s: State, id: ServiceId, generation: int, now: Time, n: NodeId)
    requires PinnedByUpdate(s, id) && s.runs[id].node != Some(n)
    ensures
      var after := DeleteService(s, id, generation, true, now).0;
      && HeldOn(after, n) == HeldOn(s, n)
      && (n in after.nodes <==> n in s.nodes)
      && (n in s.nodes ==> after.nodes[n] == s.nodes[n])
  {}

  /** Exactly when `DeleteService` keeps the ledger: unless the run is pending and still pinned
      by an update, in which case the node must have the slack of its request. */
  lemma DeleteKeepsCoverIff(s: State, id: ServiceId, generation: int, now: Time)
    requires Sound(s) && generation > 0 && id in s.services
    ensures
      Covered(DeleteService(s, id, generation, true, now).0) <==>
      (PinnedByUpdate(s, id) && Live(s, s.runs[id].node.value) ==>
         Load(s, s.runs[id].node.value).Within(s.nodes[s.runs[id].node.value].allocation.Less(s.runs[id].request)))
  {
    var after := DeleteService(s, id, generation, true, now).0;
    if PinnedByUpdate(s, id) {
      PinnedDelete(s, id, generation, now);
      forall n | n != s.runs[id].node.value
        ensures Live(after, n) ==> Live(s, n) && Load(after, n).Within(after.nodes[n].allocation)
      {
        DeleteElsewhere(s, id, generation, now, n);
      }
    } else {
      forall n | Live(after, n)
        ensures Load(after, n).Within(after.nodes[n].allocation)
      {
        assert Live(s, n);
        DeleteDrift(s, id, generation, true, now, n);
      }
    }
  }
}
