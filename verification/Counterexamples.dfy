/** Runs from the empty database that end where a property fails, step by step. */
module Counterexamples {
  import opened StoreModel
  import opened StoreSpec
  import opened Ledger
  import Capacity
  import Placement
  import P = Provisioning

  const WORK := Workload("nginx", [], [], map[], 8080, "/")
  const SPEC := ServiceSpec("small", Public, WORK)
  const SMALL := Resources(500, 512)

  function Host(id: ServiceId): string {
    if id == "a" then "a.example" else "b.example"
  }

  function Ask(id: ServiceId, generation: int): UpsertInput {
    UpsertInput(id, id, id, Host(id), generation, SPEC, true)
  }

  function Asked(id: ServiceId, generation: int, createdAt: Time, updatedAt: Time): ServiceRow {
    ServiceRow(id, id, Host(id), generation, DesiredActive, SPEC, createdAt, updatedAt)
  }

  function Waiting(id: ServiceId, runId: RunId, createdAt: Time): RunRow {
    RunRow(runId, id, 1, Public, WORK, SMALL, None, "", "", 0, Pending, createdAt, createdAt)
  }

  const REGISTRATION := RegisterInput("aliyun", "cn", "node", "10.0.0.1", "i-1", "t", 2000, 4096, true)

  /** `steps` may be taken from `s` and lead to `t`; none of them deletes a service. */
  ghost predicate Leads(s: State, steps: seq<Step>, t: State) {
    && Feasible(s, steps) && Exec(s, steps) == t
    && forall k | 0 <= k < |steps| :: !steps[k].op.OpDelete?
  }

  lemma {:induction false} OneMoreStep(s: State, steps: seq<Step>, t: State, step: Step, u: State)
    requires Leads(s, steps, t) && Enabled(t, step.op) && Next(t, step) == u && !step.op.OpDelete?
    ensures Leads(s, steps + [step], u)
    decreases |steps|
  {
    var all := steps + [step];
    if steps == [] {
      assert all[1..] == [];
    } else {
      assert all[1..] == steps[1..] + [step];
      OneMoreStep(Next(s, steps[0]), steps[1..], t, step, u);
    }
  }

  // ---- A delete of a run that an update left pinned ----

  const REGISTERED := NodeRow("aliyun", "cn", "node", "10.0.0.1", Some("i-1"), "t", Resources(2000, 4096), NOTHING,
                              NOTHING, Registering, true, false, None, 1, 1)
  const READY := REGISTERED.(allocatable := Resources(2000, 4096), status := Ready, lastHeartbeat := Some(2),
                             updatedAt := 2)

  /** The run while its node starts it, and once it reported. */
  function StartingOn(run: RunRow, name: string, now: Time): RunRow {
    run.(node := Some(7), containerName := name, status := Deploying, updatedAt := now)
  }

  function RunningOn(run: RunRow, name: string, container: string, port: int, now: Time): RunRow {
    run.(node := Some(7), containerName := name, containerId := container, hostPort := port, status := Running,
         updatedAt := now)
  }

  const A := Waiting("a", 1, 3)
  const B := Waiting("b", 2, 4)
  const A_RUNS := RunningOn(A, "a-1", "9f3c", 8001, 6)
  const B_RUNS := RunningOn(B, "b-1", "7d2e", 8002, 8)
  const BOTH := map["a" := Asked("a", 1, 3, 3), "b" := Asked("b", 1, 4, 4)]

  const S2 := State(map[], map[], map[7 := READY])
  const S3 := State(map["a" := Asked("a", 1, 3, 3)], map["a" := A], map[7 := READY])
  const S4 := State(BOTH, map["a" := A, "b" := B], map[7 := READY])
  const S5 := State(BOTH, map["a" := StartingOn(A, RunContainerName("a", 1), 5), "b" := B],
                    map[7 := READY.(allocation := SMALL, updatedAt := 5)])
  const S6 := S5.(runs := map["a" := A_RUNS, "b" := B])
  const S7 := State(BOTH, map["a" := A_RUNS, "b" := StartingOn(B, RunContainerName("b", 1), 7)],
                    map[7 := READY.(allocation := Resources(1000, 1024), updatedAt := 7)])
  const S8 := S7.(runs := map["a" := A_RUNS, "b" := B_RUNS])

  /** "b" runs and holds 500/512; "a" was running and then updated, so it waits, pinned to the
      node, and holds nothing. The ledger is exact. */
  const UPDATED := State(
    map["a" := Asked("a", 2, 3, 9), "b" := Asked("b", 1, 4, 4)],
    map["a" := A_RUNS.(generation := 2, status := Pending, updatedAt := 9), "b" := B_RUNS],
    map[7 := READY.(allocation := SMALL, updatedAt := 9)])

  function Started(name: string, container: string, port: int): ReportInput {
    ReportInput(Running, container, name, port, true)
  }

  const T1 := Step(OpRegister(REGISTRATION, 7), 1)
  const T2 := Step(OpHeartbeat(7, 2000, 4096), 2)
  const T3 := Step(OpUpsert(Ask("a", 1), 1), 3)
  const T4 := Step(OpUpsert(Ask("b", 1), 2), 4)
  const T5 := Step(OpClaim(7, RunWork("a")), 5)
  const T6 := Step(OpReport(7, 1, Started("a-1", "9f3c", 8001)), 6)
  const T7 := Step(OpClaim(7, RunWork("b")), 7)
  const T8 := Step(OpReport(7, 2, Started("b-1", "7d2e", 8002)), 8)
  const T9 := Step(OpUpsert(Ask("a", 2), 3), 9)

  lemma NodeJoins() returns (steps: seq<Step>)
    ensures Leads(EMPTY, steps, S2)
  {
    var s1 := State(map[], map[], map[7 := REGISTERED]);
    assert Next(EMPTY, T1) == s1;
    steps := [];
    OneMoreStep(EMPTY, steps, EMPTY, T1, s1);
    steps := steps + [T1];
    OneMoreStep(EMPTY, steps, s1, T2, S2);
    steps := steps + [T2];
  }

  lemma ServicesAsked()
    ensures Next(S2, T3) == S3 && Next(S3, T4) == S4
  {
    assert Ask("a", 1).Valid() && Ask("b", 1).Valid();
    assert Next(S2, T3).runs == S3.runs && Next(S2, T3).services == S3.services;
    assert "a.example"[0] == 'a' && "b.example"[0] == 'b';
    assert !NameOrHostTaken(S3, Ask("b", 1)) && !RunIdTaken(S3, 2);
    assert Next(S3, T4).runs == S4.runs && Next(S3, T4).services == S4.services;
  }

  lemma FirstClaimed()
    ensures Enabled(S4, T5.op) && Next(S4, T5) == S5
  {
    assert RunClaimable(S4, 7, "a");
    assert forall i :: !DeleteClaimable(S4, 7, i);
  }

  lemma FirstReported()
    ensures Next(S5, T6) == S6
  {
    assert Reported(S5, 7, 1, "a");
  }

  lemma SecondClaimed()
    ensures Enabled(S6, T7.op) && Next(S6, T7) == S7
  {
    assert RunClaimable(S6, 7, "b");
    assert forall i :: !DeleteClaimable(S6, 7, i);
  }

  lemma SecondReported()
    ensures Next(S7, T8) == S8
  {
    assert Reported(S7, 7, 2, "b");
  }

  lemma FirstUpdated()
    ensures Next(S8, T9) == UPDATED
  {
    assert Ask("a", 2).Valid();
    assert "a.example"[0] == 'a' && "b.example"[0] == 'b';
    assert !NameOrHostTaken(S8, Ask("a", 2)) && !StaleUpsert(S8.services["a"], 2);
    assert Next(S8, T9).runs["a"] == UPDATED.runs["a"];
    assert Next(S8, T9).runs == UPDATED.runs && Next(S8, T9).services == UPDATED.services;
    assert Next(S8, T9).nodes == UPDATED.nodes;
  }

  lemma FirstRuns() returns (steps: seq<Step>)
    ensures Leads(EMPTY, steps, S6)
  {
    steps := NodeJoins();
    ServicesAsked();
    OneMoreStep(EMPTY, steps, S2, T3, S3);
    steps := steps + [T3];
    OneMoreStep(EMPTY, steps, S3, T4, S4);
    steps := steps + [T4];
    FirstClaimed();
    OneMoreStep(EMPTY, steps, S4, T5, S5);
    steps := steps + [T5];
    FirstReported();
    OneMoreStep(EMPTY, steps, S5, T6, S6);
    steps := steps + [T6];
  }

  lemma UpdatedIsReached() returns (steps: seq<Step>)
    ensures Leads(EMPTY, steps, UPDATED)
  {
    steps := FirstRuns();
    SecondClaimed();
    OneMoreStep(EMPTY, steps, S6, T7, S7);
    steps := steps + [T7];
    SecondReported();
    OneMoreStep(EMPTY, steps, S7, T8, S8);
    steps := steps + [T8];
    FirstUpdated();
    OneMoreStep(EMPTY, steps, S8, T9, UPDATED);
    steps := steps + [T9];
  }

  lemma {:induction false} GentleWithoutDelete(s: State, steps: seq<Step>)
    requires Feasible(s, steps) && forall k | 0 <= k < |steps| :: !steps[k].op.OpDelete?
    ensures Capacity.Gentle(s, steps)
    decreases |steps|
  {
    if steps != [] {
      GentleWithoutDelete(Next(s, steps[0]), steps[1..]);
    }
  }

  lemma UpdatedIsSound(steps: seq<Step>)
    requires Leads(EMPTY, steps, UPDATED)
    ensures Sound(UPDATED)
  {
    GentleWithoutDelete(EMPTY, steps);
    Capacity.RunKeepsCoverIff(EMPTY, steps);
  }

  lemma UpdatedHoldsB()
    ensures Load(UPDATED, 7) == SMALL
  {
    SumInsert(map[], "b", SMALL);
    assert HeldOn(UPDATED, 7) == map["b" := SMALL];
  }

  ghost const THEN_DELETED := DeleteService(UPDATED, "a", 3, true, 10).0

  lemma PinnedDeleteLeaves()
    ensures Live(THEN_DELETED, 7) && Load(THEN_DELETED, 7) == SMALL && THEN_DELETED.nodes[7].allocation == NOTHING
  {
    UpdatedHoldsB();
    assert PinnedByUpdate(UPDATED, "a");
    PinnedDelete(UPDATED, "a", 3, 10);
  }

  /** From the empty database: two services run on a node, "a" is updated and, before its node
      picks it up again, deleted. Everything is sound up to the delete, which gives back the
      reservation of "b": 500/512 stay held and nothing is allocated. */
  lemma PinnedDeleteOvercommits() returns (steps: seq<Step>)
    ensures Leads(EMPTY, steps, UPDATED) && Sound(UPDATED)
    ensures Next(UPDATED, Step(OpDelete("a", 3, true), 10)) == THEN_DELETED
    ensures Live(THEN_DELETED, 7) && Load(THEN_DELETED, 7) == SMALL && THEN_DELETED.nodes[7].allocation == NOTHING
  {
    steps := UpdatedIsReached();
    UpdatedIsSound(steps);
    PinnedDeleteLeaves();
  }

  // ---- A delete older than the service ----

  const ASK_TWICE := Step(OpUpsert(Ask("a", 2), 1), 1)
  const STALE_DELETE := Step(OpDelete("a", 1, true), 2)

  const TWICE := State(map["a" := Asked("a", 2, 1, 1)], map["a" := Waiting("a", 1, 1).(generation := 2)], map[])

  lemma AskedTwice()
    ensures Leads(EMPTY, [ASK_TWICE], TWICE)
  {
    assert Ask("a", 2).Valid();
    assert Next(EMPTY, ASK_TWICE).runs == TWICE.runs && Next(EMPTY, ASK_TWICE).services == TWICE.services;
    var none: seq<Step> := [];
    OneMoreStep(EMPTY, none, EMPTY, ASK_TWICE, TWICE);
    assert none + [ASK_TWICE] == [ASK_TWICE];
  }

  /** From the empty database: an upsert at generation 2, then a delete at generation 1. The
      service is gone although the greatest generation asked for is the upsert's. */
  lemma StaleDeleteOutlivesUpsert()
    ensures Leads(EMPTY, [ASK_TWICE], TWICE)
    ensures var after := Next(TWICE, STALE_DELETE);
            && "a" in after.services
            && after.services["a"].generation == 2 && after.services["a"].desired == DesiredDeleted
  {
    AskedTwice();
  }

  // ---- A cleanup that acts on what it read earlier ----

  const CFG := P.Config("aliyun", "cn", "t", (i: ServiceId, g: int) => "node")

  ghost predicate MovesLead(y: P.Sys, moves: seq<P.Move>, z: P.Sys) {
    P.History(y, CFG, moves) && P.Reached(y, CFG, moves) == z
  }

  lemma {:induction false} OneMoreMove(y: P.Sys, moves: seq<P.Move>, z: P.Sys, move: P.Move, u: P.Sys)
    requires MovesLead(y, moves, z) && P.Can(z, CFG, move) && P.Apply(z, CFG, move) == u
    ensures MovesLead(y, moves + [move], u)
    decreases |moves|
  {
    var all := moves + [move];
    if moves == [] {
      assert all[1..] == [];
    } else {
      assert all[1..] == moves[1..] + [move];
      OneMoreMove(P.Apply(y, CFG, moves[0]), moves[1..], z, move, u);
    }
  }

  const WANTED := Waiting("a", 1, 1)
  const ONE := map["a" := Asked("a", 1, 1, 1)]
  const INSERTED := NodeRow("aliyun", "cn", "node", "", None, "t", NOTHING, NOTHING, NOTHING, Provisioning, false, true,
                            None, 2, 2)

  /** The row the cleanup reads. */
  const BOUND := INSERTED.(instanceId := Some("i-1"), updatedAt := 3)
  const JOINED := BOUND.(privateIp := "10.0.0.1", total := Resources(2000, 4096), status := Registering,
                         schedulable := true, updatedAt := 4)
  const BEATING := JOINED.(allocatable := Resources(2000, 4096), status := Ready, lastHeartbeat := Some(5),
                           updatedAt := 5)

  const Y1 := P.Sys(State(ONE, map["a" := WANTED], map[]), P.Idle, {}, {})
  const Y2 := Y1.(pc := P.Chosen("a", "node"))
  const Y3 := Y2.(store := Y1.store.(nodes := map[7 := INSERTED]), pc := P.Created("a", "node", 7))
  const Y4 := Y3.(live := {"i-1"}, pc := P.Accepted("a", "node", 7, "i-1"))
  const Y5 := Y4.(store := Y1.store.(nodes := map[7 := BOUND]), pc := P.Idle)
  const Y6 := Y5.(store := Y1.store.(nodes := map[7 := JOINED]))
  const Y7 := Y5.(store := Y1.store.(nodes := map[7 := BEATING]))
  const Y8 := Y5.(store := State(ONE, map["a" := StartingOn(WANTED, RunContainerName("a", 1), 6)],
                                 map[7 := BEATING.(allocation := SMALL, updatedAt := 6)]))

  const M1 := P.Outside(Step(OpUpsert(Ask("a", 1), 1), 1))
  const M2 := P.Choose("a")
  const M3 := P.Insert(7, 2)
  const M4 := P.AskProvider(P.Answer(P.CreateResult("i-1", "node", "t")))
  const M5 := P.Bind(false, 3)
  const M6 := P.Outside(Step(OpRegister(REGISTRATION, 8), 4))
  const M7 := P.Outside(Step(OpHeartbeat(7, 2000, 4096), 5))
  const M8 := P.Outside(Step(OpClaim(7, RunWork("a")), 6))

  lemma WantedAsked()
    ensures P.Can(P.EMPTY_PLANE, CFG, M1) && P.Apply(P.EMPTY_PLANE, CFG, M1) == Y1
  {
    assert Ask("a", 1).Valid();
    assert P.Apply(P.EMPTY_PLANE, CFG, M1).store.runs == Y1.store.runs;
  }

  lemma NodeWanted()
    ensures P.Can(Y1, CFG, M2) && P.Apply(Y1, CFG, M2) == Y2
    ensures P.Can(Y2, CFG, M3) && P.Apply(Y2, CFG, M3) == Y3
  {
    assert P.PendingRun(Y1.store, "a");
  }

  lemma NodeMade()
    ensures P.Can(Y3, CFG, M4) && P.Apply(Y3, CFG, M4) == Y4
    ensures P.Can(Y4, CFG, M5) && P.Apply(Y4, CFG, M5) == Y5
  {}

  lemma NodeJoinsAndBeats()
    ensures P.Can(Y5, CFG, M6) && P.Apply(Y5, CFG, M6) == Y6
    ensures P.Can(Y6, CFG, M7) && P.Apply(Y6, CFG, M7) == Y7
  {
    assert IsInstance(Y5.store, "aliyun", "i-1", 7);
  }

  lemma WantedClaimed()
    ensures P.Can(Y7, CFG, M8) && P.Apply(Y7, CFG, M8) == Y8
  {
    assert RunClaimable(Y7.store, 7, "a");
    assert forall i :: !DeleteClaimable(Y7.store, 7, i);
  }

  lemma BoundIsReached() returns (moves: seq<P.Move>)
    ensures MovesLead(P.EMPTY_PLANE, moves, Y5)
  {
    moves := [];
    WantedAsked();
    OneMoreMove(P.EMPTY_PLANE, moves, P.EMPTY_PLANE, M1, Y1);
    moves := moves + [M1];
    NodeWanted();
    OneMoreMove(P.EMPTY_PLANE, moves, Y1, M2, Y2);
    moves := moves + [M2];
    OneMoreMove(P.EMPTY_PLANE, moves, Y2, M3, Y3);
    moves := moves + [M3];
    NodeMade();
    OneMoreMove(P.EMPTY_PLANE, moves, Y3, M4, Y4);
    moves := moves + [M4];
    OneMoreMove(P.EMPTY_PLANE, moves, Y4, M5, Y5);
    moves := moves + [M5];
  }

  lemma NodeClaims(moves: seq<P.Move>)
    requires MovesLead(P.EMPTY_PLANE, moves, Y5)
    ensures MovesLead(P.EMPTY_PLANE, moves + [M6] + [M7] + [M8], Y8)
  {
    NodeJoinsAndBeats();
    OneMoreMove(P.EMPTY_PLANE, moves, Y5, M6, Y6);
    OneMoreMove(P.EMPTY_PLANE, moves + [M6], Y6, M7, Y7);
    WantedClaimed();
    OneMoreMove(P.EMPTY_PLANE, moves + [M6] + [M7], Y7, M8, Y8);
  }

  /** What `reconcileStaleProvisioningNode` does to the tables after it has read `read`. */
  ghost function CleanedAfter(s: State, n: NodeId, read: NodeRow, now: Time): State {
    FailPendingRuns(MarkNodeDeleted(s, n, now).0, P.Matching(s, CFG, read.name), now)
  }

  /** From an empty plane the reconciler provisions node 7 for "a". The cleanup then reads the
      row: elastic, in provisioning, last written at or before its cutoff. Before it goes on,
      the node registers, beats and claims "a"; marking the row deleted now strands the run. */
  lemma LateCleanupStrandsRun() returns (moves: seq<P.Move>)
    ensures MovesLead(P.EMPTY_PLANE, moves, Y5)
    ensures Y5.pc.Idle? && 7 in Y5.store.nodes && Y5.store.nodes[7] == BOUND
    ensures BOUND.status == Provisioning && BOUND.elastic && BOUND.instanceId.Some? && BOUND.updatedAt <= 3
    ensures MovesLead(P.EMPTY_PLANE, moves + [M6] + [M7] + [M8], Y8) && M6.Outside? && M7.Outside? && M8.Outside?
    ensures Placement.Placed(Y8.store) && HasActiveRun(Y8.store, 7)
    ensures !Placement.Placed(CleanedAfter(Y8.store, 7, BOUND, 7))
  {
    moves := BoundIsReached();
    NodeClaims(moves);
    P.EveryInterleaving(P.EMPTY_PLANE, CFG, moves + [M6] + [M7] + [M8]);
    assert Y8.store.runs["a"].node == Some(7);
    assert CleanedAfter(Y8.store, 7, BOUND, 7).runs["a"] == Y8.store.runs["a"];
  }

  // ---- A create request answered with an instance that is already there ----

  /** The node beats with less than "a" needs. */
  const CRAMPED := JOINED.(allocatable := Resources(100, 100), status := Ready, lastHeartbeat := Some(5),
                           updatedAt := 5)
  const AGAIN := INSERTED.(createdAt := 6, updatedAt := 6)

  const Z7 := Y5.(store := Y1.store.(nodes := map[7 := CRAMPED]))
  const Z8 := Z7.(pc := P.Chosen("a", "node"))
  const Z9 := Z8.(store := Y1.store.(nodes := map[7 := CRAMPED, 9 := AGAIN]), pc := P.Created("a", "node", 9))
  const Z10 := Z9.(pc := P.Accepted("a", "node", 9, "i-1"))
  const Z11 := Z10.(live := {}, pc := P.Abandoned("a", 9))

  const N7 := P.Outside(Step(OpHeartbeat(7, 100, 100), 5))
  const N9 := P.Insert(9, 6)
  const N11 := P.Bind(true, 7)

  lemma NodeIsCramped()
    ensures P.Can(Y6, CFG, N7) && P.Apply(Y6, CFG, N7) == Z7
    ensures P.Can(Z7, CFG, M2) && P.Apply(Z7, CFG, M2) == Z8
    ensures P.Can(Z8, CFG, N9) && P.Apply(Z8, CFG, N9) == Z9
  {
    assert P.PendingRun(Z7.store, "a");
    assert Z7.store.nodes[7].allocatable.cpu - Z7.store.nodes[7].allocation.cpu < SMALL.cpu;
  }

  lemma SameInstanceAnswered()
    ensures P.Can(Z9, CFG, M4) && P.Apply(Z9, CFG, M4) == Z10
    ensures P.Can(Z10, CFG, N11) && P.Apply(Z10, CFG, N11) == Z11
  {
    assert Z9.live + M4.outcome.Made() == Z9.live;
    assert Z10.store.nodes[7].instanceId == Some("i-1");
    assert InstanceTaken(Z10.store, 9, "aliyun", "i-1");
    assert Z10.live - {"i-1"} == {};
  }

  /** From an empty plane the reconciler provisions node 7 for "a", but the node beats with less
      than "a" needs. The reconciler asks again, in the name of the same service and generation,
      and is answered with the instance it got before. It cannot bind it to a second row, so it
      deletes it: node 7 is ready, and its instance is gone. */
  lemma RepeatedAnswerTakesNodeDown() returns (moves: seq<P.Move>)
    ensures MovesLead(P.EMPTY_PLANE, moves, Z11)
    ensures 7 in Z11.store.nodes && Z11.store.nodes[7].status == Ready
    ensures Z11.store.nodes[7].instanceId == Some("i-1") && "i-1" in Z7.live && "i-1" !in Z11.live
  {
    moves := BoundIsReached();
    NodeJoinsAndBeats();
    NodeIsCramped();
    SameInstanceAnswered();
    OneMoreMove(P.EMPTY_PLANE, moves, Y5, M6, Y6);
    moves := moves + [M6];
    OneMoreMove(P.EMPTY_PLANE, moves, Y6, N7, Z7);
    moves := moves + [N7];
    OneMoreMove(P.EMPTY_PLANE, moves, Z7, M2, Z8);
    moves := moves + [M2];
    OneMoreMove(P.EMPTY_PLANE, moves, Z8, N9, Z9);
    moves := moves + [N9];
    OneMoreMove(P.EMPTY_PLANE, moves, Z9, M4, Z10);
    moves := moves + [M4];
    OneMoreMove(P.EMPTY_PLANE, moves, Z10, N11, Z11);
    moves := moves + [N11];
  }

  // ---- A node bought for a deletion ----

  /** The node has room for "a" and nothing else. */
  const TIGHT := JOINED.(allocatable := SMALL, status := Ready, lastHeartbeat := Some(5), updatedAt := 5)
  const FULL := TIGHT.(allocation := SMALL, updatedAt := 6)
  const GOING := RunningOn(WANTED, "a-1", "9f3c", 8001, 7).(generation := 2, status := Pending, updatedAt := 8)

  const W7 := Y5.(store := Y1.store.(nodes := map[7 := TIGHT]))
  const W8 := Y5.(store := State(ONE, map["a" := StartingOn(WANTED, RunContainerName("a", 1), 6)], map[7 := FULL]))
  const W9 := Y5.(store := State(ONE, map["a" := RunningOn(WANTED, "a-1", "9f3c", 8001, 7)], map[7 := FULL]))
  const W10 := Y5.(store := State(
    map["a" := Asked("a", 2, 1, 8).(desired := DesiredDeleted)], map["a" := GOING], map[7 := FULL]))
  const W11 := W10.(pc := P.Chosen("a", "node"))

  const O7 := P.Outside(Step(OpHeartbeat(7, 500, 512), 5))
  const O9 := P.Outside(Step(OpReport(7, 1, Started("a-1", "9f3c", 8001)), 7))
  const O10 := P.Outside(Step(OpDelete("a", 2, true), 8))

  lemma TightNodeClaims()
    ensures P.Can(Y6, CFG, O7) && P.Apply(Y6, CFG, O7) == W7
    ensures P.Can(W7, CFG, M8) && P.Apply(W7, CFG, M8) == W8
  {
    assert RunClaimable(W7.store, 7, "a");
    assert forall i :: !DeleteClaimable(W7.store, 7, i);
  }

  lemma FullNodeRuns()
    ensures P.Can(W8, CFG, O9) && P.Apply(W8, CFG, O9) == W9
  {
    assert Reported(W8.store, 7, 1, "a");
  }

  lemma DeletionWaits()
    ensures P.Can(W9, CFG, O10) && P.Apply(W9, CFG, O10) == W10
    ensures P.Can(W10, CFG, M2) && P.Apply(W10, CFG, M2) == W11
  {
    assert P.PendingRun(W10.store, "a");
    assert W10.store.nodes[7].allocatable.cpu - W10.store.nodes[7].allocation.cpu < SMALL.cpu;
  }

  /** From an empty plane: "a" runs on a node it fills, and is deleted. Until the node picks the
      deletion up it is the oldest pending run, and the reconciler chooses to buy a node for it. */
  lemma DeletionBuysNode() returns (moves: seq<P.Move>)
    ensures MovesLead(P.EMPTY_PLANE, moves, W11)
    ensures W11.pc == P.Chosen("a", "node") && W11.store.services["a"].desired == DesiredDeleted
  {
    moves := BoundIsReached();
    NodeJoinsAndBeats();
    TightNodeClaims();
    FullNodeRuns();
    DeletionWaits();
    OneMoreMove(P.EMPTY_PLANE, moves, Y5, M6, Y6);
    moves := moves + [M6];
    OneMoreMove(P.EMPTY_PLANE, moves, Y6, O7, W7);
    moves := moves + [O7];
    OneMoreMove(P.EMPTY_PLANE, moves, W7, M8, W8);
    moves := moves + [M8];
    OneMoreMove(P.EMPTY_PLANE, moves, W8, O9, W9);
    moves := moves + [O9];
    OneMoreMove(P.EMPTY_PLANE, moves, W9, O10, W10);
    moves := moves + [O10];
    OneMoreMove(P.EMPTY_PLANE, moves, W10, M2, W11);
    moves := moves + [M2];
  }
}
