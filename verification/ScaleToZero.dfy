/** What a whole round of the reconciler achieves: idle and draining nodes go, busy nodes stay,
    and a node whose instance the provider keeps is tried again. */
module ScaleToZero {
  import opened StoreModel
  import opened StoreSpec
  import opened Placement
  import opened Provisioning
  import opened ReconcileSpec

  predicate Runs(s: State, n: NodeId) {
    exists i :: i in s.runs && s.runs[i].node == Some(n) && s.runs[i].status == Running
  }

  /** An elastic node with an instance that is draining, or ready without a running run. */
  predicate Superfluous(s: State, n: NodeId) {
    && n in s.nodes && s.nodes[n].elastic && s.nodes[n].instanceId.Some?
    && (s.nodes[n].status == Draining || (s.nodes[n].status == Ready && !Runs(s, n)))
  }

  predicate GoneFrom(s: State, n: NodeId) {
    n in s.nodes && s.nodes[n].status == Deleted && s.nodes[n].instanceId == None
  }

  /** With every run settled the two middle passes touch no run and add no node. */
  lemma SettledRound(p: Plane, cfg: Config, round: Round, c: Option<ServiceId>)
    requires CandidateOf(p, cfg, round, c) && !Unsettled(p.store) && round.refuse == {}
    ensures CleanedUp(p, cfg, round).store.runs == p.store.runs
    ensures CleanedUp(p, cfg, round).store.services == p.store.services
    ensures Once(p, cfg, round, c)
         == (Pass(CleanedUp(p, cfg, round), ElasticIn(CleanedUp(p, cfg, round).store, Ready), round), true)
  {
    var terminated, cleaned := Terminated(p, round), CleanedUp(p, cfg, round);
    assert cleaned.store.runs == terminated.store.runs == p.store.runs;
    assert !PassFails(p.store, ElasticIn(p.store, Draining), round);
    assert !CleanFails(terminated.store, StaleProvisioning(terminated.store, round), round);
    assert c == None;
    assert !Unsettled(cleaned.store);
    assert !PassFails(cleaned.store, ElasticIn(cleaned.store, Ready), round);
  }

  /** What the first two passes did to one row. */
  lemma AfterCleanUp(p: Plane, cfg: Config, round: Round, n: NodeId)
    requires n in p.store.nodes && round.refuse == {}
    ensures n in CleanedUp(p, cfg, round).store.nodes
    ensures p.store.nodes[n].status == Ready || p.store.nodes[n].status == Registering ==>
              CleanedUp(p, cfg, round).store.nodes[n] == p.store.nodes[n]
    ensures p.store.nodes[n].status == Draining && p.store.nodes[n].elastic && p.store.nodes[n].instanceId.Some? ==>
              GoneFrom(CleanedUp(p, cfg, round).store, n)
  {
    assert n in ElasticIn(p.store, Draining)
      <==> p.store.nodes[n].elastic && p.store.nodes[n].status == Draining;
  }

  /** Scale to zero: when nothing is pending or deploying and the provider refuses nothing,
      one round deletes every superfluous node and leaves every node that carries a running
      run, every run and every service as they were. */
  lemma RoundScalesToZero(p: Plane, cfg: Config, round: Round, c: Option<ServiceId>)
    requires CandidateOf(p, cfg, round, c) && !Unsettled(p.store) && round.refuse == {}
    requires Placed(p.store)
    ensures var (after, ok) := Once(p, cfg, round, c);
            && ok
            && after.store.runs == p.store.runs && after.store.services == p.store.services
            && (forall n | Superfluous(p.store, n) :: GoneFrom(after.store, n))
            && (forall n | n in p.store.nodes && Runs(p.store, n) ::
                  n in after.store.nodes && after.store.nodes[n] == p.store.nodes[n])
  {
    SettledRound(p, cfg, round, c);
    var cleaned := CleanedUp(p, cfg, round);
    var after := Once(p, cfg, round, c).0;
    forall n | Superfluous(p.store, n) ensures GoneFrom(after.store, n) {
      AfterCleanUp(p, cfg, round, n);
      assert HasActiveRun(cleaned.store, n) <==> Runs(p.store, n);
    }
    forall n | n in p.store.nodes && Runs(p.store, n)
      ensures n in after.store.nodes && after.store.nodes[n] == p.store.nodes[n]
    {
      AfterCleanUp(p, cfg, round, n);
      assert HasActiveRun(cleaned.store, n);
    }
  }

  // ---- Instances ----

  predicate InstanceOf(s: State, n: NodeId, x: string) {
    n in s.nodes && s.nodes[n].instanceId == Some(x)
  }

  /** All nodes are the one provider's, so an instance belongs to one row. */
  ghost predicate OneProvider(s: State, cfg: Config) {
    forall n | n in s.nodes :: s.nodes[n].provider == cfg.provider
  }

  lemma PassSparesInstance(p: Plane, cfg: Config, targets: set<NodeId>, round: Round, n: NodeId, x: string)
    requires InstancesDiffer(p.store.nodes) && OneProvider(p.store, cfg)
    requires InstanceOf(p.store, n, x) && (n !in targets || !Deletable(p.store, n))
    ensures x in Pass(p, targets, round).live <==> x in p.live
    ensures InstanceOf(Pass(p, targets, round).store, n, x)
    ensures OneProvider(Pass(p, targets, round).store, cfg) && InstancesDiffer(Pass(p, targets, round).store.nodes)
  {
  }

  lemma CleanSparesInstance(p: Plane, cfg: Config, targets: set<NodeId>, round: Round, n: NodeId, x: string)
    requires InstancesDiffer(p.store.nodes) && OneProvider(p.store, cfg)
    requires InstanceOf(p.store, n, x) && n !in targets
    ensures x in Clean(p, cfg, targets, round).live <==> x in p.live
    ensures InstanceOf(Clean(p, cfg, targets, round).store, n, x)
    ensures OneProvider(Clean(p, cfg, targets, round).store, cfg)
    ensures InstancesDiffer(Clean(p, cfg, targets, round).store.nodes)
  {
  }

  /** The same round at the provider: the instance of a superfluous node is gone, and the
      instance of a node that carries a running run is as alive as before. */
  lemma RoundKeepsBusyInstances(p: Plane, cfg: Config, round: Round, c: Option<ServiceId>, n: NodeId, x: string)
    requires CandidateOf(p, cfg, round, c) && !Unsettled(p.store) && round.refuse == {}
    requires Placed(p.store) && Tables(p.store) && OneProvider(p.store, cfg)
    requires InstanceOf(p.store, n, x)
    ensures Superfluous(p.store, n) ==> x !in Once(p, cfg, round, c).0.live
    ensures Runs(p.store, n) ==> (x in Once(p, cfg, round, c).0.live <==> x in p.live)
  {
    SettledRound(p, cfg, round, c);
    AfterCleanUp(p, cfg, round, n);
    var terminated, cleaned := Terminated(p, round), CleanedUp(p, cfg, round);
    assert HasActiveRun(cleaned.store, n) <==> Runs(p.store, n);
    if Runs(p.store, n) {
      PassSparesInstance(p, cfg, ElasticIn(p.store, Draining), round, n, x);
      CleanSparesInstance(terminated, cfg, StaleProvisioning(terminated.store, round), round, n, x);
      PassSparesInstance(cleaned, cfg, ElasticIn(cleaned.store, Ready), round, n, x);
    }
  }

  // ---- While work waits ----

  lemma ReadyAfterCleanUp(p: Plane, cfg: Config, round: Round, n: NodeId)
    requires n in p.store.nodes && p.store.nodes[n].status == Ready
    ensures n in Terminated(p, round).store.nodes && Terminated(p, round).store.nodes[n] == p.store.nodes[n]
    ensures n in CleanedUp(p, cfg, round).store.nodes && CleanedUp(p, cfg, round).store.nodes[n] == p.store.nodes[n]
  {}

  lemma CapacityKeepsRow(p: Plane, cfg: Config, c: Option<ServiceId>, round: Round, n: NodeId)
    requires c.Some? ==> c.value in p.store.runs
    requires n in p.store.nodes
    ensures n in AddCapacity(p, cfg, c, round).plane.store.nodes
    ensures AddCapacity(p, cfg, c, round).plane.store.nodes[n] == p.store.nodes[n]
    ensures AddCapacity(p, cfg, c, round).ok && !AddCapacity(p, cfg, c, round).created ==>
              AddCapacity(p, cfg, c, round).plane == p
  {}

  /** Then the round ends before its last pass. */
  lemma WaitingWorkEndsRound(p: Plane, cfg: Config, round: Round, c: Option<ServiceId>)
    requires CandidateOf(p, cfg, round, c) && Unsettled(CleanedUp(p, cfg, round).store)
    ensures var after, cleaned := Once(p, cfg, round, c).0, CleanedUp(p, cfg, round);
            after == Terminated(p, round) || after == cleaned || after == AddCapacity(cleaned, cfg, c, round).plane
  {}

  /** While a run is pending or being started after the first two passes, the round takes down
      no node that was ready before it: idle nodes may be what the run needs. */
  lemma WaitingWorkKeepsReadyNodes(p: Plane, cfg: Config, round: Round, c: Option<ServiceId>, n: NodeId)
    requires CandidateOf(p, cfg, round, c) && n in p.store.nodes && p.store.nodes[n].status == Ready
    requires var s := CleanedUp(p, cfg, round).store;
             exists i :: i in s.runs && (s.runs[i].status == Pending || s.runs[i].status == Deploying)
    ensures var after := Once(p, cfg, round, c).0;
            n in after.store.nodes && after.store.nodes[n] == p.store.nodes[n]
  {
    ReadyAfterCleanUp(p, cfg, round, n);
    WaitingWorkEndsRound(p, cfg, round, c);
    CapacityKeepsRow(CleanedUp(p, cfg, round), cfg, c, round, n);
  }

  /** What the first two passes leave of the instance of a ready node. */
  lemma CleanUpSparesReady(p: Plane, cfg: Config, round: Round, n: NodeId, x: string)
    requires InstancesDiffer(p.store.nodes) && OneProvider(p.store, cfg)
    requires InstanceOf(p.store, n, x) && p.store.nodes[n].status == Ready
    ensures x in Terminated(p, round).live <==> x in p.live
    ensures var cleaned := CleanedUp(p, cfg, round);
            && (x in cleaned.live <==> x in p.live)
            && InstanceOf(cleaned.store, n, x) && OneProvider(cleaned.store, cfg)
  {
    var terminated := Terminated(p, round);
    ReadyAfterCleanUp(p, cfg, round, n);
    PassSparesInstance(p, cfg, ElasticIn(p.store, Draining), round, n, x);
    CleanSparesInstance(terminated, cfg, StaleProvisioning(terminated.store, round), round, n, x);
  }

  /** A node is bought in this round: the oldest pending run fits nowhere, and no row is being
      provisioned for it. */
  predicate Buys(s: State, cfg: Config, c: Option<ServiceId>, round: Round) {
    && c.Some? && c.value in s.runs && round.newNode !in s.nodes
    && (forall n | n in s.nodes && s.nodes[n].status == Ready && s.nodes[n].schedulable ::
          || s.nodes[n].allocation.cpu + s.runs[c.value].request.cpu > s.nodes[n].allocatable.cpu
          || s.nodes[n].allocation.mem + s.runs[c.value].request.mem > s.nodes[n].allocatable.mem)
    && (forall n | n in s.nodes && s.nodes[n].status == Provisioning ::
          || s.nodes[n].name != cfg.nameOf(c.value, s.runs[c.value].generation)
          || s.nodes[n].instanceType != cfg.instanceType)
  }

  /** Nobody who asks for work now could be handed the run a node is bought for. */
  lemma BoughtForUnclaimable(s: State, cfg: Config, c: Option<ServiceId>, round: Round, n: NodeId, choice: ClaimChoice)
    requires Buys(s, cfg, c, round) && ClaimSelects(s, n, choice)
    ensures choice != RunWork(c.value)
  {}

  /** The provider answers the request with an instance that the row of another node carries. */
  predicate Repeats(s: State, cfg: Config, c: Option<ServiceId>, round: Round, x: string) {
    Buys(s, cfg, c, round) && round.created.Answer? && round.created.result.instanceId == x
  }

  lemma CapacityTakesInstanceIff(p: Plane, cfg: Config, c: Option<ServiceId>, round: Round, n: NodeId, x: string)
    requires c.Some? ==> c.value in p.store.runs
    requires OneProvider(p.store, cfg) && InstanceOf(p.store, n, x) && x in p.live && x != ""
    ensures x !in AddCapacity(p, cfg, c, round).plane.live
       <==> Repeats(p.store, cfg, c, round, x) && x !in round.refuse
  {
    var s := p.store;
    if c.Some? {
      assert HasCapacity(s, s.runs[c.value].request) ||
             HasProvisioning(s, NameFor(s, cfg, c.value), cfg.instanceType) || round.newNode in s.nodes
             <==> !Buys(s, cfg, c, round);
      if Repeats(s, cfg, c, round, x) {
        var name := NameFor(s, cfg, c.value);
        var input := ProvisioningInput(cfg.provider, cfg.region, name, cfg.instanceType, true);
        var inserted := CreateProvisioningNode(s, input, round.newNode, round.now).0;
        assert inserted.nodes[n] == s.nodes[n];
        assert InstanceTaken(inserted, round.newNode, cfg.provider, x);
      }
    }
  }

  /** Exactly when the instance of a ready node is lost while work waits: when the round asks for
      a node, the provider answers with that very instance, and deletes it when the answer
      cannot be bound. */
  lemma WaitingWorkKeepsInstancesIff(p: Plane, cfg: Config, round: Round, c: Option<ServiceId>, n: NodeId, x: string)
    requires CandidateOf(p, cfg, round, c) && Tables(p.store) && OneProvider(p.store, cfg)
    requires InstanceOf(p.store, n, x) && p.store.nodes[n].status == Ready && x in p.live && x != ""
    requires var s := CleanedUp(p, cfg, round).store;
             exists i :: i in s.runs && (s.runs[i].status == Pending || s.runs[i].status == Deploying)
    requires !PassFails(p.store, ElasticIn(p.store, Draining), round)
    requires !CleanFails(Terminated(p, round).store, StaleProvisioning(Terminated(p, round).store, round), round)
    ensures x !in Once(p, cfg, round, c).0.live
       <==> Repeats(CleanedUp(p, cfg, round).store, cfg, c, round, x) && x !in round.refuse
  {
    var cleaned := CleanedUp(p, cfg, round);
    CleanUpSparesReady(p, cfg, round, n, x);
    CapacityTakesInstanceIff(cleaned, cfg, c, round, n, x);
    CapacityKeepsRow(cleaned, cfg, c, round, n);
  }

  /** A node bought, or given up with its run: what the third pass leaves of its new row. */
  lemma BoughtOrGivenUp(p: Plane, cfg: Config, c: Option<ServiceId>, round: Round)
    requires Candidate(p.store, c) && round.newNode !in p.store.nodes && (c.Some? ==> c.value != "")
    ensures
      var r := AddCapacity(p, cfg, c, round);
      && (round.newNode in r.plane.store.nodes <==> Buys(p.store, cfg, c, round))
      && (!Buys(p.store, cfg, c, round) ==> r.plane == p && !r.created && r.ok)
      && (Buys(p.store, cfg, c, round) ==>
            && r.created == r.ok && r.plane.store.services == p.store.services
            && r.plane.store.runs.Keys == p.store.runs.Keys
            && (forall i | i in p.store.runs && i != c.value :: r.plane.store.runs[i] == p.store.runs[i])
            && var row := r.plane.store.nodes[round.newNode];
               if r.created then
                 && r.plane.store.runs == p.store.runs && round.created.Answer?
                 && row.status == Provisioning && row.elastic && row.provider == cfg.provider
                 && row.region == cfg.region && row.updatedAt == round.now
                 && row.name == round.created.result.instanceName
                 && row.instanceType == round.created.result.instanceType
                 && (round.created.result.instanceId != "" ==>
                       row.instanceId == Some(round.created.result.instanceId))
                 && r.plane.live == p.live + {round.created.result.instanceId}
               else
                 row.status == Deleted && row.instanceId == None && r.plane.store.runs[c.value].status == Failed)
  {
    if c.Some? {
      var s := p.store;
      assert HasCapacity(s, s.runs[c.value].request) || HasProvisioning(s, NameFor(s, cfg, c.value), cfg.instanceType)
             <==> !Buys(s, cfg, c, round);
    }
  }

  // ---- Cleaning up stale provisioning ----

  /** The second pass deletes an elastic row in provisioning exactly if nobody has written it
      since the cutoff and the provider deletes its instance; any other such row stays. */
  lemma CleanedIff(p: Plane, cfg: Config, round: Round, n: NodeId)
    requires n in p.store.nodes && p.store.nodes[n].status == Provisioning
    ensures
      var row, s := p.store.nodes[n], CleanedUp(p, cfg, round).store;
      && n in s.nodes
      && (if row.elastic && row.updatedAt <= round.cutoff
             && (row.instanceId.Some? ==> row.instanceId.value !in round.refuse)
          then GoneFrom(s, n) else s.nodes[n] == row)
  {
    assert Terminated(p, round).store.nodes[n] == p.store.nodes[n];
  }

  /** A row written after the cutoff is given more time. */
  lemma FreshRowSurvives(p: Plane, cfg: Config, round: Round, input: ProvisioningInput, n: NodeId, at: Time)
    requires CreateProvisioningNode(p.store, input, n, at).1.Ok? && round.cutoff < at
    ensures
      var created := CreateProvisioningNode(p.store, input, n, at).0;
      var s := CleanedUp(p.(store := created), cfg, round).store;
      && n in s.nodes && s.nodes[n] == created.nodes[n]
      && s.nodes[n].status == Provisioning && s.nodes[n].name == input.name
      && s.nodes[n].instanceType == input.instanceType && s.nodes[n].instanceId == None
  {
    CleanedIff(p.(store := CreateProvisioningNode(p.store, input, n, at).0), cfg, round, n);
  }

  /** With the rows go the pending runs they were bought for, and no others. */
  lemma CleanedRunsIff(p: Plane, cfg: Config, round: Round, i: ServiceId)
    requires i in p.store.runs
    ensures
      var run, s := p.store.runs[i], CleanedUp(p, cfg, round).store;
      var wanted := exists n :: n in p.store.nodes && p.store.nodes[n].status == Provisioning && GoneFrom(s, n)
                                && p.store.nodes[n].name == cfg.nameOf(i, run.generation);
      && i in s.runs
      && s.runs[i] == if wanted && run.status == Pending then run.(status := Failed, updatedAt := round.now) else run
  {
    var terminated := Terminated(p, round);
    var s, t := CleanedUp(p, cfg, round).store, terminated.store;
    forall n | n in p.store.nodes
      ensures n in CleanedNodes(t, StaleProvisioning(t, round), round)
         <==> p.store.nodes[n].status == Provisioning && GoneFrom(s, n)
    {
      assert p.store.nodes[n].status == Provisioning <==> t.nodes[n].status == Provisioning;
    }
    assert NameFor(t, cfg, i) == cfg.nameOf(i, p.store.runs[i].generation);
  }

  // ---- Refusals and retries ----

  predicate Doomed(s: State, n: NodeId, x: string) {
    InstanceOf(s, n, x) && s.nodes[n].elastic && s.nodes[n].status == Draining
  }

  /** A draining node whose instance the provider refuses to delete keeps its row and its
      instance, and the round ends there with an error. */
  lemma RefusedStaysDraining(p: Plane, cfg: Config, round: Round, c: Option<ServiceId>, n: NodeId, x: string)
    requires CandidateOf(p, cfg, round, c) && Doomed(p.store, n, x) && x in round.refuse
    ensures !Once(p, cfg, round, c).1
    ensures n in Once(p, cfg, round, c).0.store.nodes && Once(p, cfg, round, c).0.store.nodes[n] == p.store.nodes[n]
    ensures InstancesDiffer(p.store.nodes) && OneProvider(p.store, cfg) ==>
              (x in Once(p, cfg, round, c).0.live <==> x in p.live)
  {
    assert n in ElasticIn(p.store, Draining) && Deletable(p.store, n) && Refused(p.store, n, round);
  }

  /** An idle node whose instance the provider refuses to delete is draining after the round. */
  lemma RefusedIdleDrains(p: Plane, cfg: Config, round: Round, c: Option<ServiceId>, n: NodeId, x: string)
    requires CandidateOf(p, cfg, round, c) && !Unsettled(p.store)
    requires Superfluous(p.store, n) && p.store.nodes[n].status == Ready
    requires InstanceOf(p.store, n, x) && x in round.refuse
    requires !PassFails(p.store, ElasticIn(p.store, Draining), round)
    requires !CleanFails(Terminated(p, round).store, StaleProvisioning(Terminated(p, round).store, round), round)
    ensures !Once(p, cfg, round, c).1
    ensures Doomed(Once(p, cfg, round, c).0.store, n, x)
  {
    var cleaned := CleanedUp(p, cfg, round);
    assert cleaned.store.nodes[n] == p.store.nodes[n];
    assert HasActiveRun(cleaned.store, n) <==> Runs(p.store, n);
    assert c == None;
    assert !Unsettled(cleaned.store);
    assert n in ElasticIn(cleaned.store, Ready) && Deletable(cleaned.store, n) && Refused(cleaned.store, n, round);
  }

  predicate NodeGone(p: Plane, n: NodeId, x: string) {
    GoneFrom(p.store, n) && x !in p.live
  }

  lemma PassKeepsGone(p: Plane, targets: set<NodeId>, round: Round, n: NodeId, x: string)
    requires NodeGone(p, n, x)
    ensures NodeGone(Pass(p, targets, round), n, x)
  {
  }

  lemma CleanKeepsGone(p: Plane, cfg: Config, round: Round, n: NodeId, x: string)
    requires NodeGone(p, n, x)
    ensures NodeGone(Clean(p, cfg, StaleProvisioning(p.store, round), round), n, x)
  {
  }

  lemma CapacityKeepsGone(p: Plane, cfg: Config, c: Option<ServiceId>, round: Round, n: NodeId, x: string)
    requires c.Some? ==> c.value in p.store.runs
    requires NodeGone(p, n, x) && x !in round.created.Made()
    ensures NodeGone(AddCapacity(p, cfg, c, round).plane, n, x)
  {
  }

  lemma TerminatedDeletes(p: Plane, round: Round, n: NodeId, x: string)
    requires Doomed(p.store, n, x) && x !in round.refuse
    ensures NodeGone(Terminated(p, round), n, x)
  {
    assert n in ElasticIn(p.store, Draining) && Deletable(p.store, n) && !Refused(p.store, n, round);
    assert x in PassedInstances(p.store, ElasticIn(p.store, Draining), round);
  }

  /** From any state at all: a draining node whose instance the provider no longer refuses to
      delete is deleted by the next round, whatever else the round runs into. (The provider
      gives a new instance an identifier of its own.) */
  lemma DrainingGoes(p: Plane, cfg: Config, round: Round, c: Option<ServiceId>, n: NodeId, x: string)
    requires CandidateOf(p, cfg, round, c) && Doomed(p.store, n, x) && x !in round.refuse
    requires x !in round.created.Made()
    ensures NodeGone(Once(p, cfg, round, c).0, n, x)
  {
    TerminatedDeletes(p, round, n, x);
    var terminated, cleaned := Terminated(p, round), CleanedUp(p, cfg, round);
    CleanKeepsGone(terminated, cfg, round, n, x);
    CapacityKeepsGone(cleaned, cfg, c, round, n, x);
    var added := AddCapacity(cleaned, cfg, c, round).plane;
    PassKeepsGone(added, ElasticIn(added.store, Ready), round, n, x);
  }

  /** Refused in one round, deleted in the next. */
  lemma RetriedNextRound(p: Plane, cfg: Config, first: Round, second: Round,
                         c: Option<ServiceId>, c': Option<ServiceId>, n: NodeId, x: string)
    requires CandidateOf(p, cfg, first, c) && Doomed(p.store, n, x) && x in first.refuse && x !in second.refuse
    requires CandidateOf(Once(p, cfg, first, c).0, cfg, second, c')
    requires x !in second.created.Made()
    ensures NodeGone(Once(Once(p, cfg, first, c).0, cfg, second, c').0, n, x)
  {
    RefusedStaysDraining(p, cfg, first, c, n, x);
    DrainingGoes(Once(p, cfg, first, c).0, cfg, second, c', n, x);
  }
}
