/** No overcommit over whole runs of the store. */
module Capacity {
  import opened StoreModel
  import opened StoreSpec
  import opened StoreTables
  import opened Generations
  import opened Ledger
  import Placement

  // ---- The cover survives every step but one ----

  lemma NewNodeKeepsRuns(s: State, step: Step, n: NodeId)
    requires Enabled(s, step.op) && n !in s.nodes && n in Next(s, step).nodes
    ensures Next(s, step).runs == s.runs && Next(s, step).services == s.services
  {}

  lemma UnknownNodeHoldsNothing(s: State, n: NodeId)
    requires RunsReferToRows(s) && n !in s.nodes
    ensures Load(s, n) == NOTHING
  {
    var held := HeldOn(s, n);
    assert |held| == 0;
  }

  lemma NewNodeHoldsNothing(s: State, step: Step, n: NodeId)
    requires Tables(s) && Enabled(s, step.op) && n !in s.nodes && n in Next(s, step).nodes
    ensures Load(Next(s, step), n) == NOTHING
  {
    NewNodeKeepsRuns(s, step, n);
    UnknownNodeHoldsNothing(s, n);
    assert HeldOn(Next(s, step), n) == HeldOn(s, n);
  }

  lemma DriftKeepsCover(s: State, after: State, n: NodeId, leak: Resources)
    requires n in s.nodes && n in after.nodes && DriftsBy(s, after, n, leak)
    requires Load(s, n).Within(s.nodes[n].allocation)
    ensures Load(after, n).Within(after.nodes[n].allocation)
  {}

  /** A delete of a run that an update left pinned finds the slack of its request on the node. */
  ghost predicate Harmless(s: State, op: Op) {
    op.OpDelete? && op.textOk && op.generation > 0 && PinnedByUpdate(s, op.id) && Live(s, s.runs[op.id].node.value) ==>
      var n := s.runs[op.id].node.value;
      Load(s, n).Within(s.nodes[n].allocation.Less(s.runs[op.id].request))
  }

  lemma LiveNodeStaysCovered(s: State, step: Step, n: NodeId)
    requires Sound(s) && Enabled(s, step.op) && !(step.op.OpDelete? && PinnedByUpdate(s, step.op.id))
    requires Live(s, n) && Live(Next(s, step), n)
    ensures Load(Next(s, step), n).Within(Next(s, step).nodes[n].allocation)
  {
    if Lawful(s, step.op, n) {
      DriftLaw(s, step, n);
      DriftKeepsCover(s, Next(s, step), n, Leak(s, step.op, n));
    } else if step.op.OpSweep? {
      SweepEmpties(s, step.op.cutoff, step.now, n);
    }
  }

  lemma OtherStepsKeepCover(s: State, step: Step)
    requires Sound(s) && Enabled(s, step.op) && !(step.op.OpDelete? && PinnedByUpdate(s, step.op.id))
    ensures Covered(Next(s, step))
  {
    var after := Next(s, step);
    forall n | Live(after, n)
      ensures Load(after, n).Within(after.nodes[n].allocation)
    {
      if n !in s.nodes {
        NewNodeHoldsNothing(s, step, n);
      } else {
        Placement.StepLeaves(s, step);
        LiveNodeStaysCovered(s, step, n);
      }
    }
  }

  lemma PinnedDeleteKeepsCoverIff(s: State, id: ServiceId, generation: int, textOk: bool, now: Time)
    requires Sound(s) && PinnedByUpdate(s, id)
    ensures Covered(DeleteService(s, id, generation, textOk, now).0) <==> Harmless(s, OpDelete(id, generation, textOk))
  {
    if textOk && generation > 0 {
      DeleteKeepsCoverIff(s, id, generation, now);
    }
  }

  /** Every step keeps what is held within what is allocated, on every live node, except for a
      delete of a pinned run without slack; and that one always breaks it. */
  lemma StepKeepsCoverIff(s: State, step: Step)
    requires Sound(s) && Enabled(s, step.op)
    ensures Sound(Next(s, step)) <==> Harmless(s, step.op)
  {
    StepKeepsTables(s, step);
    StepAgrees(s, step);
    if step.op.OpDelete? && PinnedByUpdate(s, step.op.id) {
      PinnedDeleteKeepsCoverIff(s, step.op.id, step.op.generation, step.op.textOk, step.now);
    } else {
      OtherStepsKeepCover(s, step);
    }
  }

  // ---- What may exceed the allocatable capacity ----

  predicate Fits(s: State, n: NodeId) {
    n in s.nodes ==> s.nodes[n].allocation.Within(s.nodes[n].allocatable)
  }

  /** A claim of new work leaves the claiming node within its capacity, whatever it was before. */
  lemma ClaimFits(s: State, n: NodeId, id: ServiceId, now: Time)
    requires ClaimSelects(s, n, RunWork(id))
    ensures Fits(ClaimServiceRun(s, n, RunWork(id), now).0, n)
  {}

  lemma WorkStepFits(s: State, step: Step, n: NodeId)
    requires Enabled(s, step.op) && Fits(s, n)
    requires step.op.OpClaim? || step.op.OpReport? || step.op.OpUpsert? || step.op.OpDelete?
    ensures Fits(Next(s, step), n)
  {}

  lemma RunStepFits(s: State, step: Step, n: NodeId)
    requires Enabled(s, step.op) && Fits(s, n)
    requires step.op.OpMarkFailed? || step.op.OpFailPending? || step.op.OpSweep?
    ensures Fits(Next(s, step), n)
  {}

  lemma NodeStepFits(s: State, step: Step, n: NodeId)
    requires Enabled(s, step.op) && Fits(s, n) && !(step.op.OpHeartbeat? && step.op.node == n)
    requires step.op.OpCreateNode? || step.op.OpBind? || step.op.OpRegister? || step.op.OpHeartbeat?
          || step.op.OpPrepareDeletion? || step.op.OpMarkDeleted?
    ensures Fits(Next(s, step), n)
  {}

  /** Only a heartbeat of the node itself can push `allocated` above `allocatable`. */
  lemma OnlyHeartbeatsOverfill(s: State, step: Step, n: NodeId)
    requires Enabled(s, step.op) && Fits(s, n) && !(step.op.OpHeartbeat? && step.op.node == n)
    ensures Fits(Next(s, step), n)
  {
    match step.op {
      case OpClaim(_, _) => WorkStepFits(s, step, n);
      case OpReport(_, _, _) => WorkStepFits(s, step, n);
      case OpUpsert(_, _) => WorkStepFits(s, step, n);
      case OpDelete(_, _, _) => WorkStepFits(s, step, n);
      case OpMarkFailed(_) => RunStepFits(s, step, n);
      case OpFailPending(_) => RunStepFits(s, step, n);
      case OpSweep(_) => RunStepFits(s, step, n);
      case _ => NodeStepFits(s, step, n);
    }
  }

  // ---- Every run ----

  ghost predicate Gentle(s: State, steps: seq<Step>)
    decreases |steps|
  {
    steps == [] ||
    (Enabled(s, steps[0].op) && Harmless(s, steps[0].op) && Gentle(Next(s, steps[0]), steps[1..]))
  }

  ghost predicate SoundThroughout(s: State, steps: seq<Step>)
    requires Feasible(s, steps)
    decreases |steps|
  {
    Sound(s) && (steps == [] || SoundThroughout(Next(s, steps[0]), steps[1..]))
  }

  /** A run of the store is sound in each of its states exactly when every delete in it is
      harmless where it is taken. */
  lemma {:induction false} RunKeepsCoverIff(s: State, steps: seq<Step>)
    requires Sound(s) && Feasible(s, steps)
    ensures SoundThroughout(s, steps) <==> Gentle(s, steps)
    ensures Gentle(s, steps) ==> Sound(Exec(s, steps))
    decreases |steps|
  {
    if steps != [] {
      var after := Next(s, steps[0]);
      StepKeepsCoverIff(s, steps[0]);
      if Sound(after) {
        RunKeepsCoverIff(after, steps[1..]);
      }
    }
  }

  lemma {:induction false} GentleIsFeasible(s: State, steps: seq<Step>)
    requires Gentle(s, steps)
    ensures Feasible(s, steps)
    decreases |steps|
  {
    if steps != [] {
      GentleIsFeasible(Next(s, steps[0]), steps[1..]);
    }
  }

  /** Heartbeats never report less than what is allocated on the node. */
  predicate Roomy(s: State, op: Op) {
    op.OpHeartbeat? && op.node in s.nodes ==>
      s.nodes[op.node].allocation.cpu <= op.cpu && s.nodes[op.node].allocation.mem <= op.mem
  }

  ghost predicate RoomyRun(s: State, steps: seq<Step>)
    requires Feasible(s, steps)
    decreases |steps|
  {
    steps == [] || (Roomy(s, steps[0].op) && RoomyRun(Next(s, steps[0]), steps[1..]))
  }

  lemma {:induction false} RunFits(s: State, steps: seq<Step>, n: NodeId)
    requires Feasible(s, steps) && RoomyRun(s, steps) && Fits(s, n)
    ensures Fits(Exec(s, steps), n)
    decreases |steps|
  {
    if steps != [] {
      if !(steps[0].op.OpHeartbeat? && steps[0].op.node == n) {
        OnlyHeartbeatsOverfill(s, steps[0], n);
      }
      RunFits(Next(s, steps[0]), steps[1..], n);
    }
  }

  /** No overcommit: from the empty database, over any interleaving whose deletes are harmless
      and without a shrinking heartbeat, the requests held on a live node fit its capacity. */
  lemma NoOvercommit(steps: seq<Step>, n: NodeId)
    requires Gentle(EMPTY, steps)
    ensures Feasible(EMPTY, steps)
    ensures
      var s := Exec(EMPTY, steps);
      Live(s, n) ==>
        && Load(s, n).Within(s.nodes[n].allocation)
        && (RoomyRun(EMPTY, steps) ==> Load(s, n).Within(s.nodes[n].allocatable))
  {
    GentleIsFeasible(EMPTY, steps);
    RunKeepsCoverIff(EMPTY, steps);
    if RoomyRun(EMPTY, steps) {
      RunFits(EMPTY, steps, n);
    }
  }
}
