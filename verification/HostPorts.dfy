/** Starting a container on a free host port: the runtime probes for a port, asks Docker to
    create the container there, and on a port conflict tries another one, without a bound of
    its own on the number of attempts. */
module HostPorts {
  import opened StoreModel

  /** Listening on a port for a moment. */
  datatype Probe = Free | Busy | CloseFails

  datatype Create = Created | PortTaken | Broken

  /** What the host answers may change from one attempt to the next. */
  type Probes = (nat, int) -> Probe
  type Creates = (nat, int) -> Create

  predicate InRange(low: int, high: int, port: int) {
    low <= port <= high
  }

  /** The first port in range that is not excluded and not busy decides. */
  ghost predicate Selects(low: int, high: int, excluded: set<int>, probes: Probes, attempt: nat, r: Result<int>) {
    if low <= 0 || high <= 0 || low > high then r.Err?
    else if r.Ok? then
      && InRange(low, high, r.value) && r.value !in excluded && probes(attempt, r.value) == Free
      && forall p | low <= p < r.value :: p in excluded || probes(attempt, p) == Busy
    else
      || (forall p | InRange(low, high, p) :: p in excluded || probes(attempt, p) == Busy)
      || exists p :: InRange(low, high, p) && p !in excluded && probes(attempt, p) == CloseFails
                     && forall q | low <= q < p :: q in excluded || probes(attempt, q) == Busy
  }

  method SelectAvailableHostPort(low: int, high: int, excluded: set<int>, probes: Probes, attempt: nat)
    returns (r: Result<int>)
    ensures Selects(low, high, excluded, probes, attempt, r)
  {
    if low <= 0 || high <= 0 {
      return Err(Invalid);
    }
    if low > high {
      return Err(Invalid);
    }
    var port := low;
    while port <= high
      invariant low <= port <= high + 1
      invariant forall p | low <= p < port :: p in excluded || probes(attempt, p) == Busy
    {
      if port !in excluded && probes(attempt, port) != Busy {
        return if probes(attempt, port) == CloseFails then Err(Invalid) else Ok(port);
      }
      port := port + 1;
    }
    return Err(Invalid);
  }

  function Ports(low: int, high: int): (ports: set<int>)
    ensures forall p :: p in ports <==> InRange(low, high, p)
    ensures |ports| == if low <= high then high - low + 1 else 0
    decreases high - low
  {
    if low > high then {} else Ports(low, high - 1) + {high}
  }

  function Tried(ports: seq<int>): set<int> {
    set p | p in ports
  }

  ghost predicate Distinct(ports: seq<int>) {
    forall i, j | 0 <= i < j < |ports| :: ports[i] != ports[j]
  }

  lemma {:induction false} DistinctCount(ports: seq<int>)
    requires Distinct(ports)
    ensures |Tried(ports)| == |ports|
  {
    if ports != [] {
      var front, last := ports[..|ports| - 1], ports[|ports| - 1];
      DistinctCount(front);
      assert ports == front + [last];
      assert Tried(ports) == Tried(front) + {last};
    }
  }

  /** Every attempt but the last met a port conflict. */
  ghost predicate OnlyConflicts(ports: seq<int>, create: Creates) {
    forall i | 0 <= i < |ports| :: create(i, ports[i]) == PortTaken
  }

  /** The port of attempt `i` was the first free one among those not tried before. */
  ghost predicate Chosen(low: int, high: int, ports: seq<int>, probes: Probes) {
    forall i | 0 <= i < |ports| ::
      Selects(low, high, Tried(ports[..i]), probes, i, Ok(ports[i]))
  }

  /** Different ports of the range, each chosen as it should be. */
  ghost predicate Sound(low: int, high: int, ports: seq<int>, probes: Probes) {
    && Distinct(ports)
    && (forall p | p in ports :: InRange(low, high, p))
    && Chosen(low, high, ports, probes)
  }

  /** There are no more of them than the range holds. */
  lemma AttemptsBounded(low: int, high: int, ports: seq<int>)
    requires Distinct(ports) && forall p | p in ports :: InRange(low, high, p)
    ensures ports != [] ==> |ports| <= high - low + 1
  {
    DistinctCount(ports);
    assert Ports(low, high) == Tried(ports) + (Ports(low, high) - Tried(ports));
    assert ports != [] ==> InRange(low, high, ports[0]);
  }

  lemma AttemptGrows(low: int, high: int, ports: seq<int>, port: int, probes: Probes)
    requires Sound(low, high, ports, probes)
    requires Selects(low, high, Tried(ports), probes, |ports|, Ok(port))
    ensures Sound(low, high, ports + [port], probes)
    ensures (ports + [port])[..|ports|] == ports && Tried(ports + [port]) == Tried(ports) + {port}
    ensures port !in Tried(ports) && port in Ports(low, high)
  {
    var all := ports + [port];
    forall i | 0 <= i < |all|
      ensures Selects(low, high, Tried(all[..i]), probes, i, Ok(all[i]))
    {
      assert all[..i] == ports[..i];
      assert ports[..|ports|] == ports;
    }
  }

  /** Attempt `i` is on a port of the range that was just found free and that no earlier attempt
      was on; the ports below it were attempted before or found busy. */
  ghost predicate FreshAt(low: int, high: int, ports: seq<int>, probes: Probes, i: nat)
    requires i < |ports|
  {
    && 0 < low <= ports[i] <= high && probes(i, ports[i]) == Free && ports[i] !in ports[..i]
    && forall p | low <= p < ports[i] :: p in ports[..i] || probes(i, p) == Busy
  }

  ghost predicate FreshlyProbed(low: int, high: int, ports: seq<int>, probes: Probes) {
    forall i | 0 <= i < |ports| :: FreshAt(low, high, ports, probes, i)
  }

  /** No port of the range is left to try, or a probe could not be closed. */
  ghost predicate NoneLeft(low: int, high: int, ports: seq<int>, probes: Probes) {
    || low <= 0 || low > high
    || (forall p | low <= p <= high :: p in ports || probes(|ports|, p) == Busy)
    || exists p :: low <= p <= high && p !in ports && probes(|ports|, p) == CloseFails
  }

  lemma SoundIsFreshlyProbed(low: int, high: int, ports: seq<int>, probes: Probes)
    requires Sound(low, high, ports, probes)
    ensures FreshlyProbed(low, high, ports, probes)
  {
    forall i | 0 <= i < |ports| ensures FreshAt(low, high, ports, probes, i) {
      assert Selects(low, high, Tried(ports[..i]), probes, i, Ok(ports[i]));
      assert forall p :: p in Tried(ports[..i]) <==> p in ports[..i];
    }
  }

  lemma NothingSelected(low: int, high: int, ports: seq<int>, probes: Probes, r: Result<int>)
    requires Selects(low, high, Tried(ports), probes, |ports|, r) && r.Err?
    ensures NoneLeft(low, high, ports, probes)
  {
    assert forall p :: p in Tried(ports) <==> p in ports;
  }

  /** What the loop knows when `r` was selected after the attempts in `ports`. */
  ghost predicate Trying(low: int, high: int, ports: seq<int>, probes: Probes, create: Creates, r: Result<int>) {
    && Sound(low, high, ports, probes) && OnlyConflicts(ports, create)
    && Selects(low, high, Tried(ports), probes, |ports|, r)
  }

  /** One attempt more: its port is new, and there is still room for it in the range. */
  lemma OneAttemptMore(low: int, high: int, ports: seq<int>, probes: Probes, create: Creates, r: Result<int>)
    requires Trying(low, high, ports, probes, create, r) && r.Ok?
    ensures var all := ports + [r.value];
            && Sound(low, high, all, probes) && FreshlyProbed(low, high, all, probes)
            && |all| <= high - low + 1 && all[..|ports|] == ports && Tried(all) == Tried(ports) + {r.value}
            && r.value !in Tried(ports) && r.value in Ports(low, high)
            && (OnlyConflicts(all, create) <==> create(|ports|, r.value) == PortTaken)
  {
    AttemptGrows(low, high, ports, r.value, probes);
    AttemptsBounded(low, high, ports + [r.value]);
    SoundIsFreshlyProbed(low, high, ports + [r.value], probes);
  }

  /** The retry loop. It ends whatever the host answers: the ports attempted are different
      ports of the range, at most one attempt for each, all but the last in conflict; it
      succeeds exactly when the last attempt did, and gives up only on an error other than a
      conflict or when the next selection fails. */
  method Run(low: int, high: int, probes: Probes, create: Creates) returns (r: Result<int>, attempts: seq<int>)
    ensures FreshlyProbed(low, high, attempts, probes)
    ensures attempts != [] ==> |attempts| <= high - low + 1
    ensures attempts != [] ==> OnlyConflicts(attempts[..|attempts| - 1], create)
    ensures r.Ok? <==> attempts != [] && create(|attempts| - 1, attempts[|attempts| - 1]) == Created
    ensures r.Ok? ==> r.value == attempts[|attempts| - 1]
    ensures r.Err? && OnlyConflicts(attempts, create) ==> NoneLeft(low, high, attempts, probes)
  {
    attempts := [];
    var attempted: set<int> := {};
    assert Tried(attempts) == {};
    r := SelectAvailableHostPort(low, high, {}, probes, 0);
    while r.Ok?
      invariant attempted == Tried(attempts)
      invariant Trying(low, high, attempts, probes, create, r)
      decreases Ports(low, high) - attempted
    {
      var port := r.value;
      OneAttemptMore(low, high, attempts, probes, create, r);
      var outcome := create(|attempts|, port);
      attempts := attempts + [port];
      if outcome == Created {
        return;
      }
      if outcome != PortTaken {
        return Err(Invalid), attempts;
      }
      attempted := attempted + {port};
      r := SelectAvailableHostPort(low, high, attempted, probes, |attempts|);
    }
    AttemptsBounded(low, high, attempts);
    SoundIsFreshlyProbed(low, high, attempts, probes);
    NothingSelected(low, high, attempts, probes, r);
  }
}
