/** The offline sweep handles one stale node after the other, and the runs of a node one
    after the other. This module states where it stands in between, and why it ends where
    `StoreSpec.MarkStaleNodeHeartbeatsOffline` says. */
module Sweep {
  import opened StoreModel
  import opened StoreSpec

  // ---- The runs of one node ----

  ghost function Freed(nodes: map<NodeId, NodeRow>, n: NodeId, total: Resources): map<NodeId, NodeRow>
    requires n in nodes
  {
    nodes[n := nodes[n].(allocation := nodes[n].allocation.Less(total))]
  }

  lemma SumGrows(requests: map<ServiceId, Resources>, rest: set<ServiceId>, i: ServiceId)
    requires i in rest && i in requests
    ensures Adds(Sum(requests - (rest - {i})), requests[i], Sum(requests - rest))
  {
    SumInsert(requests - rest, i, requests[i]);
    assert requests - (rest - {i}) == (requests - rest)[i := requests[i]];
  }

  /** Freeing one more request is freeing the larger sum. */
  lemma FreeOneMore(nodes: map<NodeId, NodeRow>, n: NodeId, requests: map<ServiceId, Resources>,
                    rest: set<ServiceId>, i: ServiceId, now: Time)
    requires n in nodes && nodes[n].updatedAt == now && i in rest && i in requests
    ensures FreeOn(Freed(nodes, n, Sum(requests - rest)), n, requests[i], now)
         == Freed(nodes, n, Sum(requests - (rest - {i})))
  {
    SumGrows(requests, rest, i);
    LessTwice(nodes[n].allocation, Sum(requests - rest), requests[i], Sum(requests - (rest - {i})));
  }

  lemma FreeNone(nodes: map<NodeId, NodeRow>, n: NodeId, requests: map<ServiceId, Resources>)
    requires n in nodes
    ensures Freed(nodes, n, Sum(requests - requests.Keys)) == nodes
    ensures requests - {} == requests
  {
    assert |requests - requests.Keys| == 0;
  }

  ghost function FailedRuns(runs: map<ServiceId, RunRow>, failed: set<ServiceId>, now: Time): map<ServiceId, RunRow> {
    map i | i in runs :: if i in failed then runs[i].(status := Failed, updatedAt := now) else runs[i]
  }

  // ---- The nodes ----

  ghost function ImpactedRuns(s: State, n: NodeId): set<ServiceId> {
    set i | i in s.runs && Impacted(s, n, i)
  }

  /** One turn of the outer loop. */
  ghost function SweepNode(s: State, n: NodeId, now: Time): State
    requires n in s.nodes
  {
    var row := s.nodes[n].(status := Offline, schedulable := false, updatedAt := now);
    State(s.services,
          FailedRuns(s.runs, ImpactedRuns(s, n), now),
          Freed(s.nodes[n := row], n, Sum(ImpactedRequests(s, n))))
  }

  ghost function RunsOf(s: State, done: set<NodeId>): set<ServiceId> {
    set i | i in s.runs && s.runs[i].node.Some? && s.runs[i].node.value in done && Unfinished(s.runs[i].status)
  }

  /** Where the loop stands when the nodes in `done` are finished. */
  ghost function PartlySwept(s: State, done: set<NodeId>, cutoff: Time, now: Time): State {
    State(s.services,
          FailedRuns(s.runs, RunsOf(s, done), now),
          map n | n in s.nodes :: if n in done then SweptNode(s, n, cutoff, now) else s.nodes[n])
  }

  lemma OtherNodesKeepRequests(s: State, done: set<NodeId>, n: NodeId, cutoff: Time, now: Time)
    requires n !in done
    ensures ImpactedRequests(PartlySwept(s, done, cutoff, now), n) == ImpactedRequests(s, n)
    ensures ImpactedRuns(PartlySwept(s, done, cutoff, now), n) == ImpactedRuns(s, n)
  {}

  lemma FailMore(s: State, done: set<NodeId>, n: NodeId, now: Time)
    requires n !in done
    ensures FailedRuns(FailedRuns(s.runs, RunsOf(s, done), now), ImpactedRuns(s, n), now)
         == FailedRuns(s.runs, RunsOf(s, done + {n}), now)
    ensures RunsOf(s, done + {n}) == RunsOf(s, done) + ImpactedRuns(s, n)
  {}

  lemma SweepOneMore(s: State, done: set<NodeId>, n: NodeId, cutoff: Time, now: Time)
    requires Stale(s, n, cutoff) && n !in done
    ensures SweepNode(PartlySwept(s, done, cutoff, now), n, now) == PartlySwept(s, done + {n}, cutoff, now)
  {
    OtherNodesKeepRequests(s, done, n, cutoff, now);
    FailMore(s, done, n, now);
    var a, b := SweepNode(PartlySwept(s, done, cutoff, now), n, now), PartlySwept(s, done + {n}, cutoff, now);
    assert a.nodes == b.nodes;
  }

  ghost function StaleNodes(s: State, cutoff: Time): set<NodeId> {
    set n | n in s.nodes && StaleRow(s.nodes[n], cutoff)
  }

  /** What a turn for node `n` does, seen from where the loop stands. */
  lemma SweepTurn(s: State, before: State, done: set<NodeId>, n: NodeId, cutoff: Time, now: Time)
    requires Stale(s, n, cutoff) && n !in done && before == PartlySwept(s, done, cutoff, now)
    ensures n in before.nodes
    ensures SweepNode(before, n, now) == PartlySwept(s, done + {n}, cutoff, now)
    ensures RunsOf(s, done + {n}) == RunsOf(s, done) + ImpactedRuns(before, n)
  {
    SweepOneMore(s, done, n, cutoff, now);
    OtherNodesKeepRequests(s, done, n, cutoff, now);
    FailMore(s, done, n, now);
  }

  lemma RequestsIgnoreNodes(s: State, nodes: map<NodeId, NodeRow>, n: NodeId)
    ensures ImpactedRequests(s.(nodes := nodes), n) == ImpactedRequests(s, n)
    ensures ImpactedRuns(s.(nodes := nodes), n) == ImpactedRuns(s, n)
  {}

  lemma SweepStarts(s: State, cutoff: Time, now: Time)
    ensures PartlySwept(s, {}, cutoff, now) == s
    ensures RunsOf(s, {}) == {}
  {
    assert PartlySwept(s, {}, cutoff, now).runs == s.runs;
    assert PartlySwept(s, {}, cutoff, now).nodes == s.nodes;
  }

  /** When all stale nodes are done, the sweep is where the transaction's specification says. */
  lemma SweepEnds(s: State, cutoff: Time, now: Time)
    ensures
      PartlySwept(s, StaleNodes(s, cutoff), cutoff, now) == MarkStaleNodeHeartbeatsOffline(s, cutoff, now)
  {
    var a, b := PartlySwept(s, StaleNodes(s, cutoff), cutoff, now), MarkStaleNodeHeartbeatsOffline(s, cutoff, now);
    assert a.runs == b.runs;
    assert a.nodes == b.nodes;
  }
}
