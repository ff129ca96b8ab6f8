/** A round of the node reconciler among the moves of the whole plane: every round is a history
    of those moves. */
module Rounds {
  import opened StoreModel
  import opened StoreSpec
  import opened Placement
  import opened Provisioning
  import opened ReconcileSpec

  /** The instance that the request of this round makes without telling anybody. */
  function Untold(round: Round): set<string> {
    if round.created.NoAnswer? then round.created.Made() else {}
  }

  /** `moves` may be made from `y` and lead to the plane `p`, with the reconciler idle again. */
  ghost predicate Leads(y: Sys, cfg: Config, round: Round, moves: seq<Move>, p: Plane) {
    && History(y, cfg, moves)
    && Reached(y, cfg, moves).store == p.store && Reached(y, cfg, moves).live == p.live
    && Reached(y, cfg, moves).pc.Idle? && Reached(y, cfg, moves).unanswered <= y.unanswered + Untold(round)
  }

  lemma {:induction false} OneMoveMore(y: Sys, cfg: Config, moves: seq<Move>, move: Move)
    requires History(y, cfg, moves) && Can(Reached(y, cfg, moves), cfg, move)
    ensures History(y, cfg, moves + [move])
    ensures Reached(y, cfg, moves + [move]) == Apply(Reached(y, cfg, moves), cfg, move)
    decreases |moves|
  {
    var all := moves + [move];
    if moves == [] {
      assert all[1..] == [];
    } else {
      assert all[1..] == moves[1..] + [move];
      OneMoveMore(Apply(y, cfg, moves[0]), cfg, moves[1..], move);
    }
  }

  // ---- Deleting nodes ----

  /** One node prepared, deleted at the provider and marked, as far as it gets. */
  lemma PassOneMoves(y: Sys, cfg: Config, before: seq<Move>, p: Plane, n: NodeId, round: Round)
    returns (moves: seq<Move>)
    requires Leads(y, cfg, round, before, p) && n in p.store.nodes && p.store.nodes[n].elastic
    ensures Leads(y, cfg, round, moves, Pass(p, {n}, round))
  {
    var told := !Refused(p.store, n, round);
    OneMoveMore(y, cfg, before, Prepare(n, round.now));
    moves := before + [Prepare(n, round.now)];
    if Deletable(p.store, n) {
      PassOne(p, n, round);
      OneMoveMore(y, cfg, moves, AskDelete(told, told));
      moves := moves + [AskDelete(told, told)];
      if told {
        OneMoveMore(y, cfg, moves, MarkDrained(round.now));
        moves := moves + [MarkDrained(round.now)];
      }
    } else {
      PassNot(p, n, round);
    }
  }

  lemma {:induction false} PassMoves(y: Sys, cfg: Config, before: seq<Move>, p: Plane, targets: set<NodeId>,
                                     round: Round)
    returns (moves: seq<Move>)
    requires Leads(y, cfg, round, before, p)
    requires forall n | n in targets :: n in p.store.nodes && p.store.nodes[n].elastic
    ensures Leads(y, cfg, round, moves, Pass(p, targets, round))
    decreases targets
  {
    if targets == {} {
      PassNone(p, round);
      return before;
    }
    var n :| n in targets;
    var rest := targets - {n};
    moves := PassMoves(y, cfg, before, p, rest, round);
    moves := PassOneMoves(y, cfg, moves, Pass(p, rest, round), n, round);
    PassMore(p, rest, n, round);
    assert rest + {n} == targets;
  }

  // ---- Cleaning up ----

  lemma CleanOneMoves(y: Sys, cfg: Config, before: seq<Move>, p: Plane, n: NodeId, round: Round)
    returns (moves: seq<Move>)
    requires Leads(y, cfg, round, before, p) && n in StaleProvisioning(p.store, round)
    ensures Leads(y, cfg, round, moves, Clean(p, cfg, {n}, round))
  {
    var told := !Refused(p.store, n, round);
    var move := CleanUp(n, told, told, round.cutoff, round.now);
    OneMoveMore(y, cfg, before, move);
    CleanOne(p, cfg, n, round);
    assert Matching(p.store, cfg, p.store.nodes[n].name) == RunsNamed(p.store, cfg, {n});
    moves := before + [move];
  }

  lemma {:induction false} CleanMoves(y: Sys, cfg: Config, before: seq<Move>, p: Plane, targets: set<NodeId>,
                                      round: Round)
    returns (moves: seq<Move>)
    requires Leads(y, cfg, round, before, p) && targets <= StaleProvisioning(p.store, round)
    ensures Leads(y, cfg, round, moves, Clean(p, cfg, targets, round))
    decreases targets
  {
    if targets == {} {
      CleanNone(p, cfg, round);
      return before;
    }
    var n :| n in targets;
    var rest := targets - {n};
    moves := CleanMoves(y, cfg, before, p, rest, round);
    assert Clean(p, cfg, rest, round).store.nodes[n] == p.store.nodes[n];
    moves := CleanOneMoves(y, cfg, moves, Clean(p, cfg, rest, round), n, round);
    CleanMore(p, cfg, rest, n, round);
    assert rest + {n} == targets;
  }

  // ---- Adding capacity ----

  /** An answered request names the instance as it was asked to. */
  predicate Echoed(s: State, cfg: Config, c: Option<ServiceId>, round: Round) {
    c.Some? && c.value in s.runs && round.created.Answer? ==>
      Echoes(cfg, NameFor(s, cfg, c.value), round.created.result)
  }

  lemma GiveUpMoves(y: Sys, cfg: Config, before: seq<Move>, round: Round) returns (moves: seq<Move>)
    requires History(y, cfg, before) && Reached(y, cfg, before).pc.Abandoned?
    requires Reached(y, cfg, before).unanswered <= y.unanswered + Untold(round)
    ensures var z := Reached(y, cfg, before);
            Leads(y, cfg, round, moves, Plane(GiveUp(z.store, z.pc.node, z.pc.service, round.now), z.live))
  {
    OneMoveMore(y, cfg, before, MarkAbandoned(round.now));
    moves := before + [MarkAbandoned(round.now)];
    OneMoveMore(y, cfg, moves, FailRun(round.now));
    moves := moves + [FailRun(round.now)];
  }

  lemma CapacityMoves(y: Sys, cfg: Config, before: seq<Move>, p: Plane, c: Option<ServiceId>, round: Round)
    returns (moves: seq<Move>)
    requires Leads(y, cfg, round, before, p) && Candidate(p.store, c) && Echoed(p.store, cfg, c, round)
    ensures Leads(y, cfg, round, moves, AddCapacity(p, cfg, c, round).plane)
  {
    moves := before;
    if c == None || HasCapacity(p.store, p.store.runs[c.value].request)
       || HasProvisioning(p.store, NameFor(p.store, cfg, c.value), cfg.instanceType) {
      return;
    }
    OneMoveMore(y, cfg, moves, Choose(c.value));
    moves := moves + [Choose(c.value)];
    OneMoveMore(y, cfg, moves, Insert(round.newNode, round.now));
    moves := moves + [Insert(round.newNode, round.now)];
    if Reached(y, cfg, moves).pc.Idle? {
      return;
    }
    OneMoveMore(y, cfg, moves, AskProvider(round.created));
    moves := moves + [AskProvider(round.created)];
    if round.created.NoAnswer? {
      moves := GiveUpMoves(y, cfg, moves, round);
    } else {
      var deleted := round.created.result.instanceId !in round.refuse;
      OneMoveMore(y, cfg, moves, Bind(deleted, round.now));
      moves := moves + [Bind(deleted, round.now)];
      if !Reached(y, cfg, moves).pc.Idle? {
        moves := GiveUpMoves(y, cfg, moves, round);
      }
    }
  }

  // ---- The round ----

  /** Every round, however it ends, is a history of the moves that `Provisioning` allows. */
  lemma RoundIsHistory(y: Sys, p: Plane, cfg: Config, round: Round, c: Option<ServiceId>)
    returns (moves: seq<Move>)
    requires y.store == p.store && y.live == p.live && y.pc.Idle?
    requires CandidateOf(p, cfg, round, c) && Echoed(CleanedUp(p, cfg, round).store, cfg, c, round)
    ensures Leads(y, cfg, round, moves, Once(p, cfg, round, c).0)
  {
    var terminated, cleaned := Terminated(p, round), CleanedUp(p, cfg, round);
    moves := PassMoves(y, cfg, [], p, ElasticIn(p.store, Draining), round);
    if !PassFails(p.store, ElasticIn(p.store, Draining), round) {
      var stale := StaleProvisioning(terminated.store, round);
      moves := CleanMoves(y, cfg, moves, terminated, stale, round);
      if !CleanFails(terminated.store, stale, round) {
        var capacity := AddCapacity(cleaned, cfg, c, round);
        moves := CapacityMoves(y, cfg, moves, cleaned, c, round);
        if capacity.ok && !capacity.created && !Unsettled(capacity.plane.store) {
          moves := PassMoves(y, cfg, moves, capacity.plane, ElasticIn(capacity.plane.store, Ready), round);
        }
      }
    }
  }

  /** So whole rounds keep what every interleaving of moves keeps, and forget no instance but
      the one that a request of theirs made without an answer. */
  lemma RoundKeepsPlane(y: Sys, p: Plane, cfg: Config, round: Round, c: Option<ServiceId>)
    requires Inv(y, cfg) && y.store == p.store && y.live == p.live && y.pc.Idle?
    requires CandidateOf(p, cfg, round, c) && Echoed(CleanedUp(p, cfg, round).store, cfg, c, round)
    ensures
      var after := Once(p, cfg, round, c).0;
      && Tables(after.store) && Placed(after.store) && SingleProvisioning(after.store)
      && forall x | x in after.live && x !in y.unanswered && !HasRow(after.store, x) ::
           round.created == NoAnswer(Some(x))
  {
    var moves := RoundIsHistory(y, p, cfg, round, c);
    EveryInterleaving(y, cfg, moves);
  }
}
