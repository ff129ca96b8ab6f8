/** What the control plane reports about a service, from a snapshot whose executions and
    services the cloud plane reads one after the other. */
module Snapshots {
  import opened StoreModel
  import opened StoreSpec
  import opened Generations

  datatype ExecutionSnapshot = ExecutionSnapshot(serviceId: ServiceId, generation: int, status: RunStatus)

  datatype ServiceItem = ServiceItem(serviceId: ServiceId, generation: int)

  datatype Phase = PhasePending | PhaseProgressing | PhaseReady | PhaseDegraded

  datatype RunPhase = RunPhasePending | RunPhaseDispatching | RunPhaseRunning | RunPhaseFailed

  datatype ServiceView = ServiceView(serviceId: ServiceId, generation: int, phase: Phase, run: RunPhase)

  // ---- The two reads ----

  /** `ListExecutionSnapshots`: every run once, in some order. */
  ghost predicate ListsExecutions(s: State, items: seq<ExecutionSnapshot>) {
    && (forall k | 0 <= k < |items| ::
          && items[k].serviceId in s.runs
          && items[k].generation == s.runs[items[k].serviceId].generation
          && items[k].status == s.runs[items[k].serviceId].status)
    && (forall j, k | 0 <= j < k < |items| :: items[j].serviceId != items[k].serviceId)
    && (forall i | i in s.runs :: exists k :: 0 <= k < |items| && items[k].serviceId == i)
  }

  /** `ListServices`: every active service once, in some order. */
  ghost predicate ListsServices(s: State, items: seq<ServiceItem>) {
    && (forall k | 0 <= k < |items| ::
          && items[k].serviceId in s.services
          && s.services[items[k].serviceId].desired == DesiredActive
          && items[k].generation == s.services[items[k].serviceId].generation)
    && (forall j, k | 0 <= j < k < |items| :: items[j].serviceId != items[k].serviceId)
    && (forall i | i in s.services && s.services[i].desired == DesiredActive ::
          exists k :: 0 <= k < |items| && items[k].serviceId == i)
  }

  // ---- The overlay ----

  function PhaseOf(status: RunStatus): (Phase, RunPhase) {
    match status
    case Failed => (PhaseDegraded, RunPhaseFailed)
    case Running => (PhaseReady, RunPhaseRunning)
    case _ => (PhaseProgressing, RunPhaseDispatching)
  }

  /** The last execution with this service identifier: later entries overwrite earlier ones. */
  function LastExecution(executions: seq<ExecutionSnapshot>, id: ServiceId): Option<ExecutionSnapshot> {
    if executions == [] then None
    else
      var last := executions[|executions| - 1];
      if last.serviceId == id then Some(last) else LastExecution(executions[..|executions| - 1], id)
  }

  function View(item: ServiceItem, execution: Option<ExecutionSnapshot>): ServiceView {
    if execution.Some? && execution.value.generation == item.generation then
      var (phase, run) := PhaseOf(execution.value.status);
      ServiceView(item.serviceId, item.generation, phase, run)
    else ServiceView(item.serviceId, item.generation, PhasePending, RunPhasePending)
  }

  function Views(executions: seq<ExecutionSnapshot>, services: seq<ServiceItem>): seq<ServiceView> {
    if services == [] then []
    else
      var init, last := services[..|services| - 1], services[|services| - 1];
      Views(executions, init)
      + (if last.serviceId == "" then [] else [View(last, LastExecution(executions, last.serviceId))])
  }

  /** `servicesFromSnapshot`: index the executions, then build the list. */
  method ServicesFromSnapshot(executions: seq<ExecutionSnapshot>, services: seq<ServiceItem>)
    returns (out: seq<ServiceView>)
    ensures out == Views(executions, services)
  {
    var index: map<ServiceId, ExecutionSnapshot> := map[];
    for k := 0 to |executions|
      invariant forall id :: (id in index <==> LastExecution(executions[..k], id).Some?)
                          && (id in index ==> LastExecution(executions[..k], id) == Some(index[id]))
    {
      assert executions[..k + 1][..k] == executions[..k];
      index := index[executions[k].serviceId := executions[k]];
    }
    assert executions[..|executions|] == executions;

    out := [];
    for k := 0 to |services|
      invariant out == Views(executions, services[..k])
    {
      var item := services[k];
      assert services[..k + 1][..k] == services[..k];
      if item.serviceId != "" {
        var view := ServiceView(item.serviceId, item.generation, PhasePending, RunPhasePending);
        if item.serviceId in index && index[item.serviceId].generation == item.generation {
          var (phase, run) := PhaseOf(index[item.serviceId].status);
          view := view.(phase := phase, run := run);
        }
        out := out + [view];
      }
    }
    assert services[..|services|] == services;
  }

  lemma {:induction false} LastExecutionIsListed(executions: seq<ExecutionSnapshot>, id: ServiceId)
    ensures var last := LastExecution(executions, id);
            last.Some? ==> last.value in executions && last.value.serviceId == id
  {
    if executions != [] && executions[|executions| - 1].serviceId != id {
      LastExecutionIsListed(executions[..|executions| - 1], id);
    }
  }

  lemma {:induction false} ViewComesFromItem(executions: seq<ExecutionSnapshot>, services: seq<ServiceItem>,
                                             v: ServiceView)
    requires v in Views(executions, services)
    ensures exists item :: item in services && v == View(item, LastExecution(executions, item.serviceId))
  {
    var init, last := services[..|services| - 1], services[|services| - 1];
    if v in Views(executions, init) {
      ViewComesFromItem(executions, init, v);
    } else {
      assert last in services;
    }
  }

  // ---- Coherence ----

  /** What a run in this status makes a service look like. */
  predicate Shows(v: ServiceView, status: RunStatus) {
    && (v.phase == PhaseReady <==> status == Running) && (v.run == RunPhaseRunning <==> status == Running)
    && (v.phase == PhaseDegraded <==> status == Failed) && (v.run == RunPhaseFailed <==> status == Failed)
    && (v.phase == PhaseProgressing <==> status != Running && status != Failed)
    && (v.run == RunPhaseDispatching <==> status != Running && status != Failed)
  }

  lemma ViewShows(item: ServiceItem, execution: ExecutionSnapshot)
    ensures
      var v := View(item, Some(execution));
      && v.serviceId == item.serviceId && v.generation == item.generation
      && (if execution.generation == item.generation then Shows(v, execution.status)
          else v.phase == PhasePending && v.run == RunPhasePending)
  {}

  /** The cloud plane read the executions in `s`, the store then took any steps, and the cloud
      plane read the services. If the control plane shows a service as anything but pending at
      generation `g`, that service was active at `g` when the executions were read, with a run
      of `g`: a running one exactly if it is shown ready, a failed one exactly if degraded. */
  lemma SnapshotCoherent(s: State, steps: seq<Step>, executions: seq<ExecutionSnapshot>, services: seq<ServiceItem>,
                         v: ServiceView)
    requires Agreement(s) && Feasible(s, steps)
    requires ListsExecutions(s, executions) && ListsServices(Exec(s, steps), services)
    requires v in Views(executions, services) && (v.phase != PhasePending || v.run != RunPhasePending)
    ensures
      && v.serviceId in s.services && v.serviceId in s.runs
      && s.services[v.serviceId].desired == DesiredActive
      && s.services[v.serviceId].generation == v.generation == s.runs[v.serviceId].generation
      && Shows(v, s.runs[v.serviceId].status)
  {
    ViewComesFromItem(executions, services, v);
    var item :| item in services && v == View(item, LastExecution(executions, item.serviceId));
    LastExecutionIsListed(executions, item.serviceId);
    ViewShows(item, LastExecution(executions, item.serviceId).value);
    RunAgrees(s, steps);
    assert Forward(s, Exec(s, steps), item.serviceId);
  }

  lemma {:induction false} ItemHasView(executions: seq<ExecutionSnapshot>, services: seq<ServiceItem>,
                                       item: ServiceItem)
    requires item in services && item.serviceId != ""
    ensures View(item, LastExecution(executions, item.serviceId)) in Views(executions, services)
  {
    var init, last := services[..|services| - 1], services[|services| - 1];
    assert services == init + [last];
    if item != last {
      ItemHasView(executions, init, item);
    }
  }

  lemma {:induction false} ListedExecutionIsLast(executions: seq<ExecutionSnapshot>, k: nat)
    requires k < |executions|
    requires forall i, j | 0 <= i < j < |executions| :: executions[i].serviceId != executions[j].serviceId
    ensures LastExecution(executions, executions[k].serviceId) == Some(executions[k])
  {
    if k < |executions| - 1 {
      ListedExecutionIsLast(executions[..|executions| - 1], k);
    }
  }

  lemma ExecutionIs(s: State, executions: seq<ExecutionSnapshot>, i: ServiceId)
    requires ListsExecutions(s, executions)
    ensures LastExecution(executions, i)
         == if i in s.runs then Some(ExecutionSnapshot(i, s.runs[i].generation, s.runs[i].status)) else None
  {
    LastExecutionIsListed(executions, i);
    if i in s.runs {
      var k :| 0 <= k < |executions| && executions[k].serviceId == i;
      ListedExecutionIsLast(executions, k);
    }
  }

  /** And the other way round: every active service is shown, at the generation at which it was
      listed. If its run was at that generation when the executions were read, it is shown as
      that run; otherwise as pending. */
  lemma ActiveIsShown(s: State, steps: seq<Step>, executions: seq<ExecutionSnapshot>, services: seq<ServiceItem>,
                      i: ServiceId)
    requires Feasible(s, steps)
    requires ListsExecutions(s, executions) && ListsServices(Exec(s, steps), services)
    requires i != "" && i in Exec(s, steps).services && Exec(s, steps).services[i].desired == DesiredActive
    ensures exists v :: v in Views(executions, services) && v.serviceId == i
                        && v.generation == Exec(s, steps).services[i].generation
                        && (if i in s.runs && s.runs[i].generation == v.generation then Shows(v, s.runs[i].status)
                            else v.phase == PhasePending && v.run == RunPhasePending)
  {
    var k :| 0 <= k < |services| && services[k].serviceId == i;
    var item := services[k];
    ItemHasView(executions, services, item);
    ExecutionIs(s, executions, i);
    if i in s.runs {
      ViewShows(item, ExecutionSnapshot(i, s.runs[i].generation, s.runs[i].status));
    }
    assert View(item, LastExecution(executions, i)) in Views(executions, services);
  }

  /** No service is shown twice. */
  lemma {:induction false} ShownOnce(executions: seq<ExecutionSnapshot>, services: seq<ServiceItem>)
    requires forall j, k | 0 <= j < k < |services| :: services[j].serviceId != services[k].serviceId
    ensures |Views(executions, services)| <= |services|
    ensures forall j, k | 0 <= j < k < |Views(executions, services)| ::
              Views(executions, services)[j].serviceId != Views(executions, services)[k].serviceId
  {
    if services != [] {
      var init, last := services[..|services| - 1], services[|services| - 1];
      ShownOnce(executions, init);
      var front := Views(executions, init);
      forall j | 0 <= j < |front| && last.serviceId != "" ensures front[j].serviceId != last.serviceId {
        ViewComesFromItem(executions, init, front[j]);
        var item :| item in init && front[j] == View(item, LastExecution(executions, item.serviceId));
        var m :| 0 <= m < |init| && init[m] == item;
        assert services[m] == item && View(item, LastExecution(executions, item.serviceId)).serviceId == item.serviceId;
      }
    }
  }
}
