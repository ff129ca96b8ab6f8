/** What one round of the node reconciler does when nobody interleaves with it: four passes
    over the tables and the instances alive at the provider. */
module ReconcileSpec {
  import opened StoreModel
  import opened StoreSpec
  import opened Provisioning

  datatype Plane = Plane(store: State, live: set<string>)

  /** The outcomes the provider will give this round: the instances it refuses to delete, and
      what a creation returns. */
  datatype Round = Round(now: Time, cutoff: Time, refuse: set<string>, created: CreateOutcome, newNode: NodeId)

  ghost function ElasticIn(s: State, status: NodeStatus): set<NodeId> {
    set n | n in s.nodes && s.nodes[n].elastic && s.nodes[n].status == status
  }

  // ---- Deleting nodes in two phases ----

  predicate Deletable(s: State, n: NodeId) {
    && n in s.nodes && s.nodes[n].elastic && s.nodes[n].instanceId.Some?
    && (s.nodes[n].status == Draining || (s.nodes[n].status == Ready && !HasActiveRun(s, n)))
  }

  function DrainedRow(row: NodeRow, now: Time): NodeRow {
    if row.status == Draining then row else row.(status := Draining, schedulable := false, updatedAt := now)
  }

  predicate Refused(s: State, n: NodeId, round: Round) {
    n in s.nodes && s.nodes[n].instanceId.Some? && s.nodes[n].instanceId.value in round.refuse
  }

  ghost function PassedRow(s: State, n: NodeId, round: Round): NodeRow
    requires n in s.nodes
  {
    if !Deletable(s, n) then s.nodes[n]
    else if Refused(s, n, round) then DrainedRow(s.nodes[n], round.now)
    else DeletedRow(DrainedRow(s.nodes[n], round.now), round.now)
  }

  ghost function PassedInstances(s: State, targets: set<NodeId>, round: Round): set<string> {
    set n | n in targets && Deletable(s, n) && !Refused(s, n, round) :: s.nodes[n].instanceId.value
  }

  /** Drain every deletable node of `targets`; delete those whose instance the provider deletes. */
  ghost function Pass(p: Plane, targets: set<NodeId>, round: Round): Plane {
    Plane(p.store.(nodes := map n | n in p.store.nodes ::
                     if n in targets then PassedRow(p.store, n, round) else p.store.nodes[n]),
          p.live - PassedInstances(p.store, targets, round))
  }

  ghost predicate PassFails(s: State, targets: set<NodeId>, round: Round) {
    exists n :: n in targets && Deletable(s, n) && Refused(s, n, round)
  }

  // ---- Cleaning up stale provisioning ----

  ghost function StaleProvisioning(s: State, round: Round): set<NodeId> {
    set n | n in s.nodes && s.nodes[n].elastic && s.nodes[n].status == Provisioning
            && s.nodes[n].updatedAt <= round.cutoff
  }

  ghost function CleanedNodes(s: State, targets: set<NodeId>, round: Round): set<NodeId> {
    set n | n in targets && n in s.nodes && !Refused(s, n, round)
  }

  ghost function CleanedInstances(s: State, targets: set<NodeId>, round: Round): set<string> {
    set n | n in CleanedNodes(s, targets, round) && s.nodes[n].instanceId.Some? :: s.nodes[n].instanceId.value
  }

  /** The runs whose derived node name is that of a cleaned node. */
  ghost function RunsNamed(s: State, cfg: Config, cleaned: set<NodeId>): set<ServiceId> {
    set i | i in s.runs && exists n :: n in cleaned && n in s.nodes && NameFor(s, cfg, i) == s.nodes[n].name
  }

  ghost function Clean(p: Plane, cfg: Config, targets: set<NodeId>, round: Round): Plane {
    var s, cleaned := p.store, CleanedNodes(p.store, targets, round);
    Plane(FailPendingRuns(
            s.(nodes := map n | n in s.nodes :: if n in cleaned then DeletedRow(s.nodes[n], round.now) else s.nodes[n]),
            RunsNamed(s, cfg, cleaned), round.now),
          p.live - CleanedInstances(s, targets, round))
  }

  ghost predicate CleanFails(s: State, targets: set<NodeId>, round: Round) {
    exists n :: n in targets && Refused(s, n, round)
  }

  // ---- Adding capacity ----

  /** The query's row: the oldest pending run, if there is one. */
  ghost predicate Candidate(s: State, c: Option<ServiceId>) {
    if c.Some? then OldestPending(s, c.value) else forall i :: !PendingRun(s, i)
  }

  datatype CapacityResult = CapacityResult(plane: Plane, created: bool, ok: bool)

  ghost function GiveUp(s: State, n: NodeId, service: ServiceId, now: Time): State {
    MarkServiceRunFailed(MarkNodeDeleted(s, n, now).0, service, now).0
  }

  ghost function AddCapacity(p: Plane, cfg: Config, c: Option<ServiceId>, round: Round): CapacityResult
    requires c.Some? ==> c.value in p.store.runs
  {
    var s := p.store;
    if c == None || HasCapacity(s, s.runs[c.value].request)
       || HasProvisioning(s, NameFor(s, cfg, c.value), cfg.instanceType) then CapacityResult(p, false, true)
    else
      var name := NameFor(s, cfg, c.value);
      var input := ProvisioningInput(cfg.provider, cfg.region, name, cfg.instanceType, true);
      var inserted := CreateProvisioningNode(s, input, round.newNode, round.now);
      if inserted.1.Err? then CapacityResult(p, false, false)
      else if round.created.NoAnswer? then
        CapacityResult(Plane(GiveUp(inserted.0, round.newNode, c.value, round.now), p.live + round.created.Made()),
                       false, false)
      else
        var result := round.created.result;
        var bound := BindProvisionedNode(inserted.0, round.newNode, result.instanceId, result.instanceName,
                                         result.instanceType, round.now);
        var live := p.live + {result.instanceId};
        if bound.1.Ok? then CapacityResult(Plane(bound.0, live), true, true)
        else
          CapacityResult(Plane(GiveUp(inserted.0, round.newNode, c.value, round.now),
                               if result.instanceId in round.refuse then live else live - {result.instanceId}),
                         false, false)
  }

  // ---- The round ----

  predicate Unsettled(s: State) {
    exists i :: i in s.runs && (s.runs[i].status == Pending || s.runs[i].status == Deploying)
  }

  ghost function RemoveIdle(p: Plane, round: Round): (Plane, bool) {
    if Unsettled(p.store) then (p, true)
    else (Pass(p, ElasticIn(p.store, Ready), round), !PassFails(p.store, ElasticIn(p.store, Ready), round))
  }

  ghost function Terminated(p: Plane, round: Round): Plane {
    Pass(p, ElasticIn(p.store, Draining), round)
  }

  ghost function CleanedUp(p: Plane, cfg: Config, round: Round): Plane {
    Clean(Terminated(p, round), cfg, StaleProvisioning(Terminated(p, round).store, round), round)
  }

  /** `c` is the candidate the query would find after the first two passes. */
  ghost predicate CandidateOf(p: Plane, cfg: Config, round: Round, c: Option<ServiceId>) {
    Candidate(CleanedUp(p, cfg, round).store, c)
  }

  /** `reconcileOnce`: the plane after the round and whether it ended without an error. */
  ghost function Once(p: Plane, cfg: Config, round: Round, c: Option<ServiceId>): (Plane, bool)
    requires CandidateOf(p, cfg, round, c)
  {
    var terminated := Terminated(p, round);
    if PassFails(p.store, ElasticIn(p.store, Draining), round) then (terminated, false)
    else
      var cleaned := CleanedUp(p, cfg, round);
      if CleanFails(terminated.store, StaleProvisioning(terminated.store, round), round) then (cleaned, false)
      else
        var capacity := AddCapacity(cleaned, cfg, c, round);
        if !capacity.ok then (capacity.plane, false)
        else if capacity.created then (capacity.plane, true)
        else RemoveIdle(capacity.plane, round)
  }

  // ---- One target after the other ----

  lemma PassMore(p: Plane, done: set<NodeId>, n: NodeId, round: Round)
    requires n !in done
    ensures Pass(Pass(p, done, round), {n}, round) == Pass(p, done + {n}, round)
    ensures PassFails(p.store, done + {n}, round)
        <==> PassFails(p.store, done, round) || PassFails(Pass(p, done, round).store, {n}, round)
  {
    var mid := Pass(p, done, round);
    assert forall m :: HasActiveRun(mid.store, m) <==> HasActiveRun(p.store, m);
    assert Deletable(mid.store, n) <==> Deletable(p.store, n);
    assert Refused(mid.store, n, round) <==> Refused(p.store, n, round);
    var a, b := Pass(mid, {n}, round), Pass(p, done + {n}, round);
    assert a.store.nodes == b.store.nodes;
    assert PassedInstances(p.store, done + {n}, round)
        == PassedInstances(p.store, done, round) + PassedInstances(mid.store, {n}, round);
    assert a.live == b.live;
  }

  lemma PassNot(p: Plane, n: NodeId, round: Round)
    requires !Deletable(p.store, n)
    ensures Pass(p, {n}, round) == p && !PassFails(p.store, {n}, round)
  {
    assert Pass(p, {n}, round).store.nodes == p.store.nodes;
    assert PassedInstances(p.store, {n}, round) == {};
  }

  lemma PassOne(p: Plane, n: NodeId, round: Round)
    requires Deletable(p.store, n)
    ensures Pass(p, {n}, round).store == p.store.(nodes := p.store.nodes[n := PassedRow(p.store, n, round)])
    ensures Pass(p, {n}, round).live ==
            if Refused(p.store, n, round) then p.live else p.live - {p.store.nodes[n].instanceId.value}
    ensures PassFails(p.store, {n}, round) <==> Refused(p.store, n, round)
  {
    assert Pass(p, {n}, round).store.nodes == p.store.nodes[n := PassedRow(p.store, n, round)];
    if Refused(p.store, n, round) {
      assert PassedInstances(p.store, {n}, round) == {};
    } else {
      assert PassedInstances(p.store, {n}, round) == {p.store.nodes[n].instanceId.value};
    }
  }

  lemma CleanNone(p: Plane, cfg: Config, round: Round)
    ensures Clean(p, cfg, {}, round) == p && !CleanFails(p.store, {}, round)
  {
    assert CleanedNodes(p.store, {}, round) == {};
    assert RunsNamed(p.store, cfg, {}) == {};
    assert CleanedInstances(p.store, {}, round) == {};
    assert Clean(p, cfg, {}, round).store.nodes == p.store.nodes;
    assert Clean(p, cfg, {}, round).store.runs == p.store.runs;
  }

  lemma CleanOne(p: Plane, cfg: Config, n: NodeId, round: Round)
    requires n in p.store.nodes
    ensures Refused(p.store, n, round) ==> Clean(p, cfg, {n}, round) == p
    ensures !Refused(p.store, n, round) ==>
              && Clean(p, cfg, {n}, round).store
                 == FailPendingRuns(MarkNodeDeleted(p.store, n, round.now).0, RunsNamed(p.store, cfg, {n}), round.now)
              && Clean(p, cfg, {n}, round).live
                 == (if p.store.nodes[n].instanceId.Some? then p.live - {p.store.nodes[n].instanceId.value} else p.live)
    ensures CleanFails(p.store, {n}, round) <==> Refused(p.store, n, round)
  {
    if Refused(p.store, n, round) {
      CleanNone(p, cfg, round);
      assert CleanedNodes(p.store, {n}, round) == {} == CleanedNodes(p.store, {}, round);
      assert CleanedInstances(p.store, {n}, round) == {} == CleanedInstances(p.store, {}, round);
    } else {
      assert CleanedNodes(p.store, {n}, round) == {n};
      assert CleanedInstances(p.store, {n}, round)
          == if p.store.nodes[n].instanceId.Some? then {p.store.nodes[n].instanceId.value} else {};
      assert (map m | m in p.store.nodes ::
                if m in {n} then DeletedRow(p.store.nodes[m], round.now) else p.store.nodes[m])
          == p.store.nodes[n := DeletedRow(p.store.nodes[n], round.now)];
    }
  }

  lemma PassNone(p: Plane, round: Round)
    ensures Pass(p, {}, round) == p && !PassFails(p.store, {}, round)
  {
    assert Pass(p, {}, round).store.nodes == p.store.nodes;
    assert PassedInstances(p.store, {}, round) == {};
  }

  lemma CleanMoreNodes(p: Plane, cfg: Config, done: set<NodeId>, n: NodeId, round: Round)
    requires n !in done && n in p.store.nodes
    ensures Clean(Clean(p, cfg, done, round), cfg, {n}, round).store.nodes
         == Clean(p, cfg, done + {n}, round).store.nodes
  {}

  lemma FailTwice(s: State, a: set<ServiceId>, b: set<ServiceId>, now: Time)
    ensures FailPendingRuns(FailPendingRuns(s, a, now), b, now).runs == FailPendingRuns(s, a + b, now).runs
  {}

  lemma FailIgnoresNodes(s: State, nodes: map<NodeId, NodeRow>, a: set<ServiceId>, now: Time)
    ensures FailPendingRuns(s.(nodes := nodes), a, now).runs == FailPendingRuns(s, a, now).runs
  {}

  lemma CleanMoreNames(p: Plane, cfg: Config, done: set<NodeId>, n: NodeId, round: Round)
    requires n !in done && n in p.store.nodes
    ensures var mid := Clean(p, cfg, done, round);
            RunsNamed(p.store, cfg, CleanedNodes(p.store, done + {n}, round))
            == RunsNamed(p.store, cfg, CleanedNodes(p.store, done, round))
               + RunsNamed(mid.store, cfg, CleanedNodes(mid.store, {n}, round))
  {
    var mid := Clean(p, cfg, done, round);
    assert mid.store.nodes[n] == p.store.nodes[n];
    assert CleanedNodes(p.store, done + {n}, round)
        == CleanedNodes(p.store, done, round) + CleanedNodes(mid.store, {n}, round);
    assert forall i | i in p.store.runs :: NameFor(mid.store, cfg, i) == NameFor(p.store, cfg, i);
  }

  lemma CleanMoreRuns(p: Plane, cfg: Config, done: set<NodeId>, n: NodeId, round: Round)
    requires n !in done && n in p.store.nodes
    ensures Clean(Clean(p, cfg, done, round), cfg, {n}, round).store.runs == Clean(p, cfg, done + {n}, round).store.runs
  {
    var mid := Clean(p, cfg, done, round);
    var first := RunsNamed(p.store, cfg, CleanedNodes(p.store, done, round));
    var second := RunsNamed(mid.store, cfg, CleanedNodes(mid.store, {n}, round));
    CleanMoreNames(p, cfg, done, n, round);
    CleanRuns(p, cfg, done, round);
    CleanRuns(mid, cfg, {n}, round);
    CleanRuns(p, cfg, done + {n}, round);
    FailTwice(p.store, first, second, round.now);
    FailIgnoresNodes(FailPendingRuns(p.store, first, round.now), mid.store.nodes, second, round.now);
    assert FailPendingRuns(p.store, first, round.now).(nodes := mid.store.nodes) == mid.store;
  }

  lemma CleanRuns(p: Plane, cfg: Config, done: set<NodeId>, round: Round)
    ensures Clean(p, cfg, done, round).store.runs
         == FailPendingRuns(p.store, RunsNamed(p.store, cfg, CleanedNodes(p.store, done, round)), round.now).runs
  {}

  lemma CleanMore(p: Plane, cfg: Config, done: set<NodeId>, n: NodeId, round: Round)
    requires n !in done && n in p.store.nodes
    ensures Clean(Clean(p, cfg, done, round), cfg, {n}, round) == Clean(p, cfg, done + {n}, round)
    ensures CleanFails(p.store, done + {n}, round)
        <==> CleanFails(p.store, done, round) || CleanFails(Clean(p, cfg, done, round).store, {n}, round)
  {
    var mid := Clean(p, cfg, done, round);
    assert mid.store.nodes[n] == p.store.nodes[n];
    assert CleanedNodes(p.store, done + {n}, round)
        == CleanedNodes(p.store, done, round) + CleanedNodes(mid.store, {n}, round);
    CleanMoreNodes(p, cfg, done, n, round);
    CleanMoreRuns(p, cfg, done, n, round);
    assert CleanedInstances(p.store, done + {n}, round)
        == CleanedInstances(p.store, done, round) + CleanedInstances(mid.store, {n}, round);
  }
}
