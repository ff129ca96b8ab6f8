/** The node reconciler: one round removes draining nodes, cleans up stale provisioning, adds
    capacity for the oldest pending run and, when no work is unsettled, removes idle nodes.
    Each method is proved to take the plane exactly where `ReconcileSpec` says. */
module NodeReconciler {
  import opened StoreModel
  import opened StoreSpec
  import opened Provisioning
  import opened ReconcileSpec
  import S = Store

  class NodeReconciler {
    const store: S.Store
    const cfg: Config

    /** The instances alive at the provider. */
    var live: set<string>

    ghost function View(): Plane
      reads this, store
    {
      Plane(store.View(), live)
    }

    constructor (store: S.Store, cfg: Config, live: set<string>)
      ensures this.store == store && this.cfg == cfg && this.live == live
    {
      this.store, this.cfg, this.live := store, cfg, live;
    }

    method DeleteProviderNode(instance: string, round: Round) returns (ok: bool)
      modifies this`live
      ensures ok <==> instance !in round.refuse
      ensures live == if ok then old(live) - {instance} else old(live)
    {
      ok := instance !in round.refuse;
      if ok {
        live := live - {instance};
      }
    }

    method ListElasticNodes(status: NodeStatus) returns (items: map<NodeId, NodeRow>)
      ensures items.Keys == ElasticIn(store.View(), status)
      ensures forall n | n in items :: items[n] == store.nodes[n]
    {
      items := map n | n in store.nodes && store.nodes[n].elastic && store.nodes[n].status == status :: store.nodes[n];
    }

    // ---- Two-phase deletion ----

    method ReconcileNodeDeletion(n: NodeId, item: NodeRow, round: Round) returns (ok: bool)
      requires store.Valid() && n in store.nodes && store.nodes[n] == item
      modifies this`live, store
      ensures store.Valid() && View() == Pass(old(View()), {n}, round)
      ensures ok <==> !PassFails(old(store.View()), {n}, round)
    {
      if item.status != Ready && item.status != Draining {
        PassNot(View(), n, round);
        return true;
      }
      if !item.elastic || item.instanceId == None {
        PassNot(View(), n, round);
        return true;
      }
      ghost var before := View();
      var prepared := store.PrepareNodeDeletion(n, round.now);
      if prepared.Err? {
        return false;
      }
      var (draining, deletable) := prepared.value;
      if !deletable {
        PassNot(before, n, round);
        return true;
      }
      PassOne(before, n, round);
      var instance := draining.instanceId.value;
      var deleted := DeleteProviderNode(instance, round);
      if !deleted {
        return false;
      }
      var marked := store.MarkNodeDeleted(n, round.now);
      return marked.Ok?;
    }

    /** Goes through the items in any order; one failure does not stop the others. */
    method ReconcileDeletableNodes(items: map<NodeId, NodeRow>, round: Round) returns (ok: bool)
      requires store.Valid()
      requires forall n | n in items :: n in store.nodes && store.nodes[n] == items[n]
      modifies this`live, store
      ensures store.Valid() && View() == Pass(old(View()), items.Keys, round)
      ensures ok <==> !PassFails(old(store.View()), items.Keys, round)
    {
      ghost var start := View();
      ghost var done: set<NodeId> := {};
      PassNone(start, round);
      ok := true;
      var rest := items.Keys;
      while rest != {}
        invariant done !! rest && done + rest == items.Keys
        invariant store.Valid() && View() == Pass(start, done, round)
        invariant ok <==> !PassFails(start.store, done, round)
        decreases rest
      {
        var n :| n in rest;
        PassMore(start, done, n, round);
        if items[n].instanceId == None || !items[n].elastic {
          PassNot(View(), n, round);
        } else {
          var one := ReconcileNodeDeletion(n, items[n], round);
          ok := ok && one;
        }
        rest, done := rest - {n}, done + {n};
      }
      assert done == items.Keys;
    }

    method ReconcileTerminatingNodes(round: Round) returns (ok: bool)
      requires store.Valid()
      modifies this`live, store
      ensures store.Valid() && View() == Terminated(old(View()), round)
      ensures ok <==> !PassFails(old(store.View()), ElasticIn(old(store.View()), Draining), round)
    {
      var items := ListElasticNodes(Draining);
      ok := ReconcileDeletableNodes(items, round);
    }

    method ReconcileIdleNodes(round: Round) returns (ok: bool)
      requires store.Valid()
      modifies this`live, store
      ensures store.Valid() && (View(), ok) == RemoveIdle(old(View()), round)
    {
      if Unsettled(State(store.services, store.runs, store.nodes)) {
        return true;
      }
      var items := ListElasticNodes(Ready);
      ok := ReconcileDeletableNodes(items, round);
    }

    // ---- Stale provisioning ----

    method ReconcileStaleProvisioningNode(n: NodeId, item: NodeRow, round: Round) returns (ok: bool)
      requires store.Valid() && n in store.nodes && store.nodes[n] == item
      requires item.status == Provisioning && item.elastic
      modifies this`live, store
      ensures store.Valid() && View() == Clean(old(View()), cfg, {n}, round)
      ensures ok <==> !CleanFails(old(store.View()), {n}, round)
    {
      ghost var before := View();
      CleanOne(before, cfg, n, round);
      if item.instanceId.Some? {
        var deleted := DeleteProviderNode(item.instanceId.value, round);
        if !deleted {
          return false;
        }
      }
      var marked := store.MarkNodeDeleted(n, round.now);
      var s := State(store.services, store.runs, store.nodes);
      var matching := set i | i in store.runs && NameFor(s, cfg, i) == item.name;
      assert matching == RunsNamed(before.store, cfg, {n});
      store.FailPendingRuns(matching, round.now);
      return marked.Ok?;
    }

    /** One turn of the loop that started in `start`: nothing, or one stale row more is cleaned. */
    method CleanNext(n: NodeId, item: NodeRow, round: Round, ghost start: Plane, ghost done: set<NodeId>)
      returns (ok: bool)
      requires store.Valid() && View() == Clean(start, cfg, done, round)
      requires n !in done && n in start.store.nodes && start.store.nodes[n] == item
      requires item.status == Provisioning && item.elastic
      modifies this`live, store
      ensures store.Valid()
      ensures var more := if item.updatedAt <= round.cutoff then done + {n} else done;
              && View() == Clean(start, cfg, more, round)
              && (CleanFails(start.store, more, round) <==> CleanFails(start.store, done, round) || !ok)
    {
      if item.updatedAt > round.cutoff {
        return true;
      }
      CleanMore(start, cfg, done, n, round);
      ok := ReconcileStaleProvisioningNode(n, item, round);
    }

    method ReconcileStaleProvisioningNodes(round: Round) returns (ok: bool)
      requires store.Valid()
      modifies this`live, store
      ensures store.Valid()
      ensures View() == Clean(old(View()), cfg, StaleProvisioning(old(store.View()), round), round)
      ensures ok <==> !CleanFails(old(store.View()), StaleProvisioning(old(store.View()), round), round)
    {
      ghost var start := View();
      var items := ListElasticNodes(Provisioning);
      ghost var stale := StaleProvisioning(start.store, round);
      assert stale - items.Keys == {};
      ghost var done: set<NodeId> := {};
      CleanNone(start, cfg, round);
      ok := true;
      var rest := items.Keys;
      while rest != {}
        invariant rest <= items.Keys
        invariant done == stale - rest
        invariant store.Valid() && View() == Clean(start, cfg, done, round)
        invariant ok <==> !CleanFails(start.store, done, round)
        decreases rest
      {
        var n :| n in rest;
        var one := CleanNext(n, items[n], round, start, done);
        ok, rest := ok && one, rest - {n};
        done := if items[n].updatedAt <= round.cutoff then done + {n} else done;
      }
      assert done == stale;
    }

    // ---- Capacity ----

    /** `ORDER BY created_at, id LIMIT 1` over the pending runs. */
    method GetNodeProvisioningCandidate() returns (c: Option<ServiceId>)
      ensures Candidate(store.View(), c)
    {
      c := None;
      var rest := store.runs.Keys;
      while rest != {}
        invariant rest <= store.runs.Keys
        invariant c == None ==> forall j | j !in rest :: !PendingRun(store.View(), j)
        invariant c.Some? ==>
                    && c.value !in rest
                    && PendingRun(store.View(), c.value)
                    && forall j | j !in rest && PendingRun(store.View(), j) ::
                         Older(store.runs[c.value].createdAt, store.runs[c.value].id,
                               store.runs[j].createdAt, store.runs[j].id)
        decreases rest
      {
        var i :| i in rest;
        rest := rest - {i};
        if store.runs[i].status == Pending {
          if c == None || !Older(store.runs[c.value].createdAt, store.runs[c.value].id,
                                 store.runs[i].createdAt, store.runs[i].id) {
            c := Some(i);
          }
        }
      }
    }

    method GiveUpOn(n: NodeId, service: ServiceId, now: Time)
      requires store.Valid()
      modifies store
      ensures store.Valid() && store.View() == GiveUp(old(store.View()), n, service, now)
    {
      var _ := store.MarkNodeDeleted(n, now);
      var _ := store.MarkServiceRunFailed(service, now);
    }

    method ReconcilePendingExecutionCapacity(round: Round)
      returns (created: bool, ok: bool, ghost c: Option<ServiceId>)
      requires store.Valid()
      modifies this`live, store
      ensures store.Valid() && Candidate(old(store.View()), c)
      ensures CapacityResult(View(), created, ok) == AddCapacity(old(View()), cfg, c, round)
    {
      var candidate := GetNodeProvisioningCandidate();
      c := candidate;
      if candidate == None {
        return false, true, c;
      }
      var s := State(store.services, store.runs, store.nodes);
      var service := candidate.value;
      var name := NameFor(s, cfg, service);
      if HasCapacity(s, store.runs[service].request) || HasProvisioning(s, name, cfg.instanceType) {
        return false, true, c;
      }
      var inserted := store.CreateProvisioningNode(
        ProvisioningInput(cfg.provider, cfg.region, name, cfg.instanceType, true), round.newNode, round.now);
      if inserted.Err? {
        return false, false, c;
      }
      live := live + round.created.Made();
      if round.created.NoAnswer? {
        GiveUpOn(round.newNode, service, round.now);
        return false, false, c;
      }
      var result := round.created.result;
      var bound := store.BindProvisionedNode(round.newNode, result.instanceId, result.instanceName,
                                             result.instanceType, round.now);
      if bound.Err? {
        var _ := DeleteProviderNode(result.instanceId, round);
        GiveUpOn(round.newNode, service, round.now);
        return false, false, c;
      }
      return true, true, c;
    }

    // ---- The round ----

    method ReconcileOnce(round: Round) returns (ok: bool, ghost c: Option<ServiceId>)
      requires store.Valid()
      modifies this`live, store
      ensures store.Valid() && CandidateOf(old(View()), cfg, round, c)
      ensures (View(), ok) == Once(old(View()), cfg, round, c)
    {
      c := SomeCandidate(CleanedUp(View(), cfg, round).store);
      var terminated := ReconcileTerminatingNodes(round);
      if !terminated {
        return false, c;
      }
      var cleaned := ReconcileStaleProvisioningNodes(round);
      if !cleaned {
        return false, c;
      }
      var created, added, candidate := ReconcilePendingExecutionCapacity(round);
      if !added {
        return false, candidate;
      }
      if created {
        return true, candidate;
      }
      ok := ReconcileIdleNodes(round);
      c := candidate;
    }
  }

  // ---- The candidate ----

  /** Some pending run is the oldest, unless there is none. */
  lemma OldestAmong(s: State, part: set<ServiceId>) returns (c: Option<ServiceId>)
    requires part <= s.runs.Keys
    ensures c == None ==> forall j | j in part :: !PendingRun(s, j)
    ensures c.Some? ==>
              && PendingRun(s, c.value)
              && forall j | j in part && PendingRun(s, j) ::
                   Older(s.runs[c.value].createdAt, s.runs[c.value].id, s.runs[j].createdAt, s.runs[j].id)
  {
    if part == {} {
      return None;
    }
    var i :| i in part;
    c := OldestAmong(s, part - {i});
    if PendingRun(s, i) {
      if c == None || !Older(s.runs[c.value].createdAt, s.runs[c.value].id, s.runs[i].createdAt, s.runs[i].id) {
        c := Some(i);
      }
    }
  }

  lemma SomeCandidate(s: State) returns (c: Option<ServiceId>)
    ensures Candidate(s, c)
  {
    c := OldestAmong(s, s.runs.Keys);
  }
}
