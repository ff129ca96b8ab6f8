/** Reports of a node agent may be lost, repeated and contradict each other: for each claim
    of a run, only the first report that leaves `deploying` counts. */
module Reports {
  import opened StoreModel
  import opened StoreSpec
  import opened StoreTables

  /** No row of execution `e` waits for a report. */
  ghost predicate Settled(s: State, e: RunId) {
    forall i | i in s.runs && s.runs[i].id == e :: s.runs[i].status != Deploying
  }

  predicate Claims(s: State, step: Step, e: RunId) {
    step.op.OpClaim? && step.op.choice != NoWork && step.op.choice.id in s.runs && s.runs[step.op.choice.id].id == e
  }

  /** A report on `e` that has an effect and ends the run: it gives the reservation back. */
  ghost predicate GivesBack(s: State, step: Step, e: RunId) {
    && Enabled(s, step.op)
    && step.op.OpReport? && step.op.execution == e && step.op.report.Terminal()
    && Next(s, step) != s
  }

  /** Once settled, every further report on `e`, repeated or conflicting, from any node,
      leaves services, runs and nodes as they are. */
  lemma SettledIgnoresReports(s: State, n: NodeId, e: RunId, input: ReportInput, now: Time)
    requires Settled(s, e)
    ensures Report(s, n, e, input, now).0 == s
  {}

  /** The first report that leaves `deploying` settles the run. */
  lemma FirstReportSettles(s: State, n: NodeId, e: RunId, input: ReportInput, now: Time)
    requires RunIdsDiffer(s.runs) && input.status != Deploying
    requires Report(s, n, e, input, now).0 != s
    ensures Settled(Report(s, n, e, input, now).0, e)
  {
    var i :| input.Valid() && Reported(s, n, e, i);
    ReportIsOn(s, n, e, i, input, now);
  }

  lemma UpsertKeepsSettled(s: State, input: UpsertInput, runId: RunId, now: Time, e: RunId)
    requires Settled(s, e)
    ensures Settled(UpsertService(s, input, runId, now).0, e)
  {}

  lemma ReportKeepsSettled(s: State, n: NodeId, execution: RunId, input: ReportInput, now: Time, e: RunId)
    requires RunIdsDiffer(s.runs) && Settled(s, e)
    ensures Settled(Report(s, n, execution, input, now).0, e)
  {
    if i :| input.Valid() && Reported(s, n, execution, i) {
      ReportIsOn(s, n, execution, i, input, now);
    }
  }

  lemma ClaimKeepsSettled(s: State, n: NodeId, c: ClaimChoice, now: Time, e: RunId)
    requires ClaimSelects(s, n, c) && Settled(s, e) && (c != NoWork ==> s.runs[c.id].id != e)
    ensures Settled(ClaimServiceRun(s, n, c, now).0, e)
  {}

  lemma DeleteKeepsSettled(s: State, id: ServiceId, generation: int, textOk: bool, now: Time, e: RunId)
    requires Settled(s, e)
    ensures Settled(DeleteService(s, id, generation, textOk, now).0, e)
  {}

  lemma FailuresKeepSettled(s: State, id: ServiceId, matching: set<ServiceId>, cutoff: Time, now: Time, e: RunId)
    requires Settled(s, e)
    ensures Settled(MarkServiceRunFailed(s, id, now).0, e)
    ensures Settled(FailPendingRuns(s, matching, now), e)
    ensures Settled(MarkStaleNodeHeartbeatsOffline(s, cutoff, now), e)
  {}

  lemma NodeStepKeepsRuns(s: State, step: Step)
    requires Enabled(s, step.op)
    requires step.op.OpCreateNode? || step.op.OpBind? || step.op.OpRegister? || step.op.OpHeartbeat?
          || step.op.OpPrepareDeletion? || step.op.OpMarkDeleted?
    ensures Next(s, step).runs == s.runs
  {}

  /** Only a new claim makes a settled run wait for a report again. */
  lemma StepKeepsSettled(s: State, step: Step, e: RunId)
    requires Tables(s) && Enabled(s, step.op) && Settled(s, e) && !Claims(s, step, e)
    ensures Settled(Next(s, step), e)
  {
    match step.op {
      case OpUpsert(input, runId) => UpsertKeepsSettled(s, input, runId, step.now, e);
      case OpReport(n, execution, report) => ReportKeepsSettled(s, n, execution, report, step.now, e);
      case OpClaim(n, choice) => ClaimKeepsSettled(s, n, choice, step.now, e);
      case OpDelete(id, generation, textOk) => DeleteKeepsSettled(s, id, generation, textOk, step.now, e);
      case OpMarkFailed(id) => FailuresKeepSettled(s, id, {}, 0, step.now, e);
      case OpFailPending(matching) => FailuresKeepSettled(s, "", matching, 0, step.now, e);
      case OpSweep(cutoff) => FailuresKeepSettled(s, "", {}, cutoff, step.now, e);
      case _ => NodeStepKeepsRuns(s, step);
    }
  }

  ghost predicate NotReclaimed(s: State, steps: seq<Step>, e: RunId)
    decreases |steps|
  {
    steps == [] ||
    (Enabled(s, steps[0].op) && !Claims(s, steps[0], e) && NotReclaimed(Next(s, steps[0]), steps[1..], e))
  }

  ghost function Filtered(steps: seq<Step>, e: RunId): seq<Step> {
    if steps == [] then []
    else (if steps[0].op.OpReport? && steps[0].op.execution == e then [] else [steps[0]]) + Filtered(steps[1..], e)
  }

  /** Replay: from a settled run until its next claim, dropping all reports on it from a run
      of the store, wherever they come, changes nothing at all. */
  lemma {:induction false} ReportsAreReplays(s: State, steps: seq<Step>, e: RunId)
    requires Tables(s) && Settled(s, e) && NotReclaimed(s, steps, e)
    ensures Feasible(s, steps) && Feasible(s, Filtered(steps, e))
    ensures Exec(s, steps) == Exec(s, Filtered(steps, e))
    decreases |steps|
  {
    if steps != [] {
      var step := steps[0];
      StepKeepsTables(s, step);
      StepKeepsSettled(s, step, e);
      ReportsAreReplays(Next(s, step), steps[1..], e);
      if step.op.OpReport? && step.op.execution == e {
        SettledIgnoresReports(s, step.op.node, e, step.op.report, step.now);
        assert Filtered(steps, e) == Filtered(steps[1..], e);
      } else {
        assert Filtered(steps, e)[0] == step && Filtered(steps, e)[1..] == Filtered(steps[1..], e);
      }
    }
  }

  ghost function ClaimCount(s: State, steps: seq<Step>, e: RunId): nat
    requires Feasible(s, steps)
    decreases |steps|
  {
    if steps == [] then 0
    else (if Claims(s, steps[0], e) then 1 else 0) + ClaimCount(Next(s, steps[0]), steps[1..], e)
  }

  ghost function GiveBackCount(s: State, steps: seq<Step>, e: RunId): nat
    requires Feasible(s, steps)
    decreases |steps|
  {
    if steps == [] then 0
    else (if GivesBack(s, steps[0], e) then 1 else 0) + GiveBackCount(Next(s, steps[0]), steps[1..], e)
  }

  /** Over every run, reports give reservations back at most once for each claim. */
  lemma {:induction false} GiveBacksBoundedByClaims(s: State, steps: seq<Step>, e: RunId)
    requires Tables(s) && Feasible(s, steps)
    ensures GiveBackCount(s, steps, e) <= ClaimCount(s, steps, e) + (if Settled(s, e) then 0 else 1)
    decreases |steps|
  {
    if steps != [] {
      var step := steps[0];
      StepKeepsTables(s, step);
      GiveBacksBoundedByClaims(Next(s, step), steps[1..], e);
      if GivesBack(s, step, e) {
        FirstReportSettles(s, step.op.node, e, step.op.report, step.now);
        if Settled(s, e) {
          SettledIgnoresReports(s, step.op.node, e, step.op.report, step.now);
          assert false;
        }
      } else if Settled(s, e) && !Claims(s, step, e) {
        StepKeepsSettled(s, step, e);
      }
    }
  }
}
