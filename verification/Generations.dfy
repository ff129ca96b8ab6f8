/** The generation protocol between a service and its run: the two rows never disagree,
    generations only grow, a deletion sticks, and the last writer wins. */
module Generations {
  import opened StoreModel
  import opened StoreSpec

  /** A run row carries exactly the generation of its service, and an active service has a run row. */
  ghost predicate Agreement(s: State) {
    && (forall i | i in s.runs :: i in s.services && s.runs[i].generation == s.services[i].generation)
    && (forall i | i in s.services && s.services[i].desired == DesiredActive :: i in s.runs)
  }

  /** What a step may do to the generation and desired state of service `i`: the generation
      does not fall, and a deleted service comes back only with a greater one. */
  ghost predicate Forward(s: State, after: State, i: ServiceId) {
    i in s.services ==>
      && i in after.services
      && s.services[i].generation <= after.services[i].generation
      && (s.services[i].desired == DesiredDeleted && after.services[i].desired == DesiredActive ==>
            s.services[i].generation < after.services[i].generation)
  }

  lemma UpsertAgrees(s: State, input: UpsertInput, runId: RunId, now: Time)
    requires Agreement(s)
    ensures Agreement(UpsertService(s, input, runId, now).0)
    ensures forall i :: Forward(s, UpsertService(s, input, runId, now).0, i)
  {}

  lemma DeleteAgrees(s: State, id: ServiceId, generation: int, textOk: bool, now: Time)
    requires Agreement(s)
    ensures Agreement(DeleteService(s, id, generation, textOk, now).0)
    ensures forall i :: Forward(s, DeleteService(s, id, generation, textOk, now).0, i)
  {}

  /** The columns of a run row that only an upsert writes. */
  predicate SameWork(run: RunRow, after: RunRow) {
    && after.id == run.id && after.serviceName == run.serviceName && after.generation == run.generation
    && after.exposure == run.exposure && after.workload == run.workload && after.request == run.request
    && after.createdAt == run.createdAt
  }

  /** The other steps write no service row and keep the work of a run row; one is removed
      only when its service is deleted. */
  ghost predicate OnlyRunState(s: State, after: State) {
    && after.services == s.services
    && after.runs.Keys <= s.runs.Keys
    && (forall i | i in after.runs :: SameWork(s.runs[i], after.runs[i]))
    && (forall i | i in s.runs && i !in after.runs :: i in s.services && s.services[i].desired == DesiredDeleted)
  }

  lemma FailsKeepServices(s: State, id: ServiceId, matching: set<ServiceId>, now: Time)
    ensures OnlyRunState(s, MarkServiceRunFailed(s, id, now).0)
    ensures OnlyRunState(s, FailPendingRuns(s, matching, now))
  {}

  lemma SweepKeepsServices(s: State, cutoff: Time, now: Time)
    ensures OnlyRunState(s, MarkStaleNodeHeartbeatsOffline(s, cutoff, now))
  {}

  lemma ClaimKeepsServices(s: State, n: NodeId, c: ClaimChoice, now: Time)
    requires ClaimSelects(s, n, c)
    ensures OnlyRunState(s, ClaimServiceRun(s, n, c, now).0)
  {}

  lemma ReportKeepsServices(s: State, n: NodeId, execution: RunId, input: ReportInput, now: Time)
    ensures OnlyRunState(s, Report(s, n, execution, input, now).0)
  {
    if i :| Reported(s, n, execution, i) {
    }
  }

  lemma OtherStepsKeepServices(s: State, step: Step)
    requires Enabled(s, step.op)
    requires !step.op.OpUpsert? && !step.op.OpDelete?
    ensures OnlyRunState(s, Next(s, step))
  {
    var now := step.now;
    match step.op {
      case OpMarkFailed(id) => FailsKeepServices(s, id, {}, now);
      case OpFailPending(matching) => FailsKeepServices(s, "", matching, now);
      case OpSweep(cutoff) => SweepKeepsServices(s, cutoff, now);
      case OpClaim(n, choice) => ClaimKeepsServices(s, n, choice, now);
      case OpReport(n, execution, report) => ReportKeepsServices(s, n, execution, report, now);
      case _ =>
    }
  }

  lemma StepAgrees(s: State, step: Step)
    requires Agreement(s) && Enabled(s, step.op)
    ensures Agreement(Next(s, step))
    ensures forall i :: Forward(s, Next(s, step), i)
  {
    match step.op {
      case OpUpsert(input, runId) => UpsertAgrees(s, input, runId, step.now);
      case OpDelete(id, generation, textOk) => DeleteAgrees(s, id, generation, textOk, step.now);
      case _ => OtherStepsKeepServices(s, step);
    }
  }

  /** Over every run: agreement is an invariant, generations never fall, and a service that
      was deleted at generation `g` is active later only at a generation above `g`. */
  lemma {:induction false} RunAgrees(s: State, steps: seq<Step>)
    requires Agreement(s) && Feasible(s, steps)
    ensures Agreement(Exec(s, steps))
    ensures forall i :: Forward(s, Exec(s, steps), i)
    decreases |steps|
  {
    if steps != [] {
      StepAgrees(s, steps[0]);
      var mid := Next(s, steps[0]);
      RunAgrees(mid, steps[1..]);
      forall i
        ensures Forward(s, Exec(s, steps), i)
      {
        assert Forward(s, mid, i) && Forward(mid, Exec(mid, steps[1..]), i);
      }
    }
  }

  // ---- Last writer wins ----

  /** Row `i` and its run hold what `input` asked for. */
  ghost predicate Holds(s: State, i: ServiceId, input: UpsertInput) {
    && input.Valid()
    && i in s.services && i in s.runs
    && s.services[i].desired == DesiredActive
    && s.services[i].generation == input.generation == s.runs[i].generation
    && s.services[i].name == input.name == s.runs[i].serviceName
    && s.services[i].displayName == input.displayName
    && s.services[i].host == input.host
    && s.services[i].spec == input.spec
    && s.runs[i].exposure == input.spec.exposure
    && s.runs[i].workload == input.spec.workload
    && s.runs[i].request == input.Request()
  }

  predicate Writes(step: Step, i: ServiceId) {
    step.op.OpUpsert? && step.op.input.id == i
  }

  predicate Removes(step: Step, i: ServiceId) {
    step.op.OpDelete? && step.op.id == i
  }

  /** The upserts and deletes of `i` that the store answers without an error. */
  ghost predicate Upserted(s: State, step: Step, i: ServiceId) {
    Writes(step, i) && UpsertService(s, step.op.input, step.op.runId, step.now).1.Ok?
  }

  ghost predicate Removed(s: State, step: Step, i: ServiceId) {
    Removes(step, i) && DeleteService(s, step.op.id, step.op.generation, step.op.textOk, step.now).1.Ok?
  }

  /** What was asked of service `i` so far: the generations of its accepted upserts and deletes,
      and whether it lives by them, that is, whether after the last delete there was an upsert
      above every generation asked for until then. */
  datatype Asked = Asked(upserts: set<int>, deletes: set<int>, live: bool) {
    predicate Tops(g: int) {
      forall h | h in upserts + deletes :: h < g
    }
  }

  const NOTHING_ASKED := Asked({}, {}, false)

  ghost function AskedAfter(s: State, step: Step, i: ServiceId, before: Asked): Asked {
    if Upserted(s, step, i) then
      var g := step.op.input.generation;
      Asked(before.upserts + {g}, before.deletes, before.live || before.Tops(g))
    else if Removed(s, step, i) then
      Asked(before.upserts, before.deletes + {step.op.generation}, false)
    else before
  }

  ghost function AskedOver(s: State, steps: seq<Step>, i: ServiceId, before: Asked): Asked
    requires Feasible(s, steps)
    decreases |steps|
  {
    if steps == [] then before
    else AskedOver(Next(s, steps[0]), steps[1..], i, AskedAfter(s, steps[0], i, before))
  }

  /** The generation determines what an upsert of `i` says. */
  ghost predicate Determined(steps: seq<Step>, i: ServiceId, said: int -> UpsertInput) {
    forall k | 0 <= k < |steps| :: Writes(steps[k], i) ==> steps[k].op.input == said(steps[k].op.input.generation)
  }

  predicate Greatest(g: int, all: set<int>) {
    g in all && forall h | h in all :: h <= g
  }

  /** The row of `i` is at the greatest generation asked for; it is active exactly if it lives by
      the requests, and then row and run hold what that generation says. */
  ghost predicate Decided(s: State, i: ServiceId, said: int -> UpsertInput, asked: Asked) {
    if asked.upserts + asked.deletes == {} then i !in s.services && !asked.live
    else
      && i in s.services
      && Greatest(s.services[i].generation, asked.upserts + asked.deletes)
      && (s.services[i].desired == DesiredActive <==> asked.live)
      && (asked.live ==> s.services[i].generation in asked.upserts && Holds(s, i, said(s.services[i].generation)))
  }

  lemma UpsertElsewhere(s: State, input: UpsertInput, runId: RunId, now: Time, i: ServiceId)
    requires input.id != i || UpsertService(s, input, runId, now).1.Err?
    ensures var after := UpsertService(s, input, runId, now).0;
            && (i in after.services <==> i in s.services) && (i in after.runs <==> i in s.runs)
            && (i in s.services ==> after.services[i] == s.services[i])
            && (i in s.runs ==> after.runs[i] == s.runs[i])
  {}

  /** An accepted upsert writes its generation exactly if it tops the row's, or repeats that of
      an active row; otherwise it leaves row and run alone. */
  lemma UpsertAccepted(s: State, input: UpsertInput, runId: RunId, now: Time)
    requires Agreement(s) && UpsertService(s, input, runId, now).1.Ok?
    ensures var after, i := UpsertService(s, input, runId, now).0, input.id;
            && i in after.services
            && (i in s.services && StaleUpsert(s.services[i], input.generation) ==> after == s)
            && (i !in s.services || !StaleUpsert(s.services[i], input.generation) ==>
                  after.services[i].generation == input.generation && after.services[i].desired == DesiredActive)
            && (i !in s.services || s.services[i].generation < input.generation ==> Holds(after, i, input))
            && (i in s.services && i in s.runs && s.services[i].generation == input.generation
                && s.services[i].desired == DesiredActive ==>
                  after.services[i] == UpsertedService(s, input, now) && after.runs == s.runs)
  {}

  lemma UpsertDecides(s: State, input: UpsertInput, runId: RunId, now: Time, i: ServiceId,
                      said: int -> UpsertInput, asked: Asked)
    requires Agreement(s) && Decided(s, i, said, asked)
    requires input.id == i ==> input == said(input.generation)
    ensures Decided(UpsertService(s, input, runId, now).0, i, said,
                    AskedAfter(s, Step(OpUpsert(input, runId), now), i, asked))
  {
    var r := UpsertService(s, input, runId, now);
    if input.id == i && r.1.Ok? {
      UpsertAccepted(s, input, runId, now);
      assert input.generation in asked.upserts + {input.generation};
    } else {
      UpsertElsewhere(s, input, runId, now, i);
    }
  }

  lemma DeleteElsewhere(s: State, id: ServiceId, generation: int, textOk: bool, now: Time, i: ServiceId)
    requires id != i || DeleteService(s, id, generation, textOk, now).1.Err?
    ensures var after := DeleteService(s, id, generation, textOk, now).0;
            && (i in after.services <==> i in s.services) && (i in after.runs <==> i in s.runs)
            && (i in s.services ==> after.services[i] == s.services[i])
            && (i in s.runs ==> after.runs[i] == s.runs[i])
  {}

  lemma DeleteDecides(s: State, id: ServiceId, generation: int, textOk: bool, now: Time, i: ServiceId,
                      said: int -> UpsertInput, asked: Asked)
    requires Agreement(s) && Decided(s, i, said, asked)
    ensures Decided(DeleteService(s, id, generation, textOk, now).0, i, said,
                    AskedAfter(s, Step(OpDelete(id, generation, textOk), now), i, asked))
  {
    var r := DeleteService(s, id, generation, textOk, now);
    if id == i && r.1.Ok? {
      assert generation in asked.deletes + {generation};
    } else {
      DeleteElsewhere(s, id, generation, textOk, now, i);
    }
  }

  lemma StepDecides(s: State, step: Step, i: ServiceId, said: int -> UpsertInput, asked: Asked)
    requires Agreement(s) && Enabled(s, step.op) && Decided(s, i, said, asked)
    requires Writes(step, i) ==> step.op.input == said(step.op.input.generation)
    ensures Decided(Next(s, step), i, said, AskedAfter(s, step, i, asked))
  {
    match step.op {
      case OpUpsert(input, runId) => UpsertDecides(s, input, runId, step.now, i, said, asked);
      case OpDelete(id, generation, textOk) => DeleteDecides(s, id, generation, textOk, step.now, i, said, asked);
      case _ => OtherStepsKeepServices(s, step);
    }
  }

  lemma {:induction false} RunDecides(s: State, steps: seq<Step>, i: ServiceId, said: int -> UpsertInput, asked: Asked)
    requires Agreement(s) && Feasible(s, steps) && Decided(s, i, said, asked) && Determined(steps, i, said)
    ensures Decided(Exec(s, steps), i, said, AskedOver(s, steps, i, asked))
    decreases |steps|
  {
    if steps != [] {
      StepDecides(s, steps[0], i, said, asked);
      StepAgrees(s, steps[0]);
      RunDecides(Next(s, steps[0]), steps[1..], i, said, AskedAfter(s, steps[0], i, asked));
    }
  }

  /** Whatever the order, duplication and interleaving of upserts and deletes with each other
      and with other services, claims, reports and node steps: the service ends at the greatest
      generation asked for, and the greatest accepted upsert decides name, host, spec and
      requested work if and only if it came after the last delete and topped everything asked
      for until then. */
  lemma LastWriterWins(s: State, steps: seq<Step>, i: ServiceId, said: int -> UpsertInput, g: int)
    requires Agreement(s) && i !in s.services && Feasible(s, steps) && Determined(steps, i, said)
    requires Greatest(g, AskedOver(s, steps, i, NOTHING_ASKED).upserts)
    ensures
      var asked, after := AskedOver(s, steps, i, NOTHING_ASKED), Exec(s, steps);
      && i in after.services && Greatest(after.services[i].generation, asked.upserts + asked.deletes)
      && (Holds(after, i, said(g)) <==> asked.live)
      && (after.services[i].desired == DesiredActive <==> asked.live)
  {
    RunDecides(s, steps, i, said, NOTHING_ASKED);
    var asked, after := AskedOver(s, steps, i, NOTHING_ASKED), Exec(s, steps);
    assert g in asked.upserts + asked.deletes;
    if asked.live {
      assert after.services[i].generation == g;
    }
  }

  /** Two histories that accepted the same upserts, in whatever order and how often, and end
      alive, end with the same name, host, spec, generation and requested work. */
  lemma OrderDoesNotMatter(s: State, steps: seq<Step>, other: seq<Step>, i: ServiceId, said: int -> UpsertInput)
    requires Agreement(s) && i !in s.services
    requires Feasible(s, steps) && Determined(steps, i, said)
    requires Feasible(s, other) && Determined(other, i, said)
    requires AskedOver(s, steps, i, NOTHING_ASKED).upserts == AskedOver(s, other, i, NOTHING_ASKED).upserts
    requires AskedOver(s, steps, i, NOTHING_ASKED).live && AskedOver(s, other, i, NOTHING_ASKED).live
    ensures exists g :: Holds(Exec(s, steps), i, said(g)) && Holds(Exec(s, other), i, said(g))
  {
    RunDecides(s, steps, i, said, NOTHING_ASKED);
    RunDecides(s, other, i, said, NOTHING_ASKED);
    assert Holds(Exec(s, steps), i, said(Exec(s, steps).services[i].generation));
  }

  /** A delete counts even with a generation below the service's own, which it keeps. */
  lemma StaleDeleteWins(s: State, i: ServiceId, generation: int, now: Time)
    requires i in s.services && 0 < generation < s.services[i].generation
    ensures var (after, r) := DeleteService(s, i, generation, true, now);
            && r.Ok? && i in after.services
            && after.services[i].desired == DesiredDeleted
            && after.services[i].generation == s.services[i].generation
  {}
}
