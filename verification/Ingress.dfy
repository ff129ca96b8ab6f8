/** Building ingress routes: one query lists the public services with the run that may serve
    each, then every node is looked up in a read of its own. */
module Ingress {
  import opened StoreModel
  import opened Strings
  import Handover
  import StoreSpec

  datatype Source = Source(host: string, node: NodeId, hostPort: int, hasBackend: bool)

  /** What looking up the node of a source gave, at the moment it was looked up. */
  datatype Lookup = Found(row: NodeRow) | Missing | Unavailable

  datatype Route = Route(host: string, backends: seq<string>)

  // ---- The query ----

  predicate PublicService(s: State, i: ServiceId) {
    i in s.services && s.services[i].desired == DesiredActive && s.services[i].spec.exposure == Public
  }

  /** The LEFT JOIN finds a run. */
  predicate Serves(s: State, i: ServiceId) {
    && PublicService(s, i) && i in s.runs
    && s.runs[i].generation == s.services[i].generation
    && s.runs[i].status == Running
    && s.runs[i].node.Some?
    && s.runs[i].hostPort > 0
  }

  function SourceOf(s: State, i: ServiceId): Source
    requires PublicService(s, i)
  {
    if Serves(s, i) then Source(s.services[i].host, s.runs[i].node.value, s.runs[i].hostPort, true)
    else Source(s.services[i].host, 0, 0, false)
  }

  /** `ids` lists every public service once; `sources` are their rows in that order. */
  ghost predicate ListsSources(s: State, ids: seq<ServiceId>, sources: seq<Source>) {
    && |ids| == |sources|
    && (forall k, l | 0 <= k < l < |ids| :: ids[k] != ids[l])
    && (forall i :: i in ids <==> PublicService(s, i))
    && (forall k | 0 <= k < |ids| :: PublicService(s, ids[k]) && sources[k] == SourceOf(s, ids[k]))
  }

  // ---- Routes, host by host ----

  function JoinHostPort(ip: string, port: int): string {
    if ':' in ip then "[" + ip + "]:" + StoreSpec.Decimal(port) else ip + ":" + StoreSpec.Decimal(port)
  }

  predicate NeedsNode(source: Source) {
    Trim(source.host) != "" && source.hasBackend && source.hostPort > 0
  }

  /** The node was seen ready with an address. */
  predicate Reachable(lookup: Lookup) {
    lookup.Found? && lookup.row.status == Ready && Trim(lookup.row.privateIp) != ""
  }

  predicate GivesBackend(host: string, source: Source, lookup: Lookup) {
    Trim(source.host) == host && NeedsNode(source) && Reachable(lookup)
  }

  function BackendOf(source: Source, lookup: Lookup): string
    requires Reachable(lookup)
  {
    JoinHostPort(Trim(lookup.row.privateIp), source.hostPort)
  }

  /** What one source contributes to the backends of a host. */
  function Given(host: string, source: Source, lookup: Lookup): seq<string> {
    if GivesBackend(host, source, lookup) then [BackendOf(source, lookup)] else []
  }

  /** The backends of one host, in the order of the sources. */
  function BackendsOf(host: string, sources: seq<Source>, lookups: seq<Lookup>): seq<string>
    requires |sources| == |lookups|
  {
    if sources == [] then []
    else
      var last := |sources| - 1;
      BackendsOf(host, sources[..last], lookups[..last]) + Given(host, sources[last], lookups[last])
  }

  /** The hosts in the order in which they are first seen. */
  function HostsOf(sources: seq<Source>): seq<string> {
    if sources == [] then []
    else
      var before, host := HostsOf(sources[..|sources| - 1]), Trim(sources[|sources| - 1].host);
      if host == "" || host in before then before else before + [host]
  }

  function RoutesOf(sources: seq<Source>, lookups: seq<Lookup>): seq<Route>
    requires |sources| == |lookups|
  {
    var hosts := HostsOf(sources);
    seq(|hosts|, k requires 0 <= k < |hosts| => Route(hosts[k], BackendsOf(hosts[k], sources, lookups)))
  }

  predicate LookupFails(sources: seq<Source>, lookups: seq<Lookup>)
    requires |sources| == |lookups|
  {
    exists k :: 0 <= k < |sources| && NeedsNode(sources[k]) && lookups[k] == Unavailable
  }

  lemma OneMoreSource(sources: seq<Source>, lookups: seq<Lookup>, i: nat, host: string)
    requires |sources| == |lookups| && i < |sources|
    ensures BackendsOf(host, sources[..i + 1], lookups[..i + 1])
         == BackendsOf(host, sources[..i], lookups[..i])
            + Given(host, sources[i], lookups[i])
  {
    assert sources[..i + 1][..i] == sources[..i] && lookups[..i + 1][..i] == lookups[..i];
  }

  lemma OneMoreHost(sources: seq<Source>, i: nat)
    requires i < |sources|
    ensures var before, host := HostsOf(sources[..i]), Trim(sources[i].host);
            HostsOf(sources[..i + 1]) == if host == "" || host in before then before else before + [host]
  {
    assert sources[..i + 1][..i] == sources[..i];
  }

  /** The map holds the backends `host` should have; no entry means none. */
  predicate HoldsFor(host: string, backendsByHost: map<string, seq<string>>, backends: seq<string>) {
    if host in backendsByHost then backendsByHost[host] == backends else host == "" || backends == []
  }

  predicate HoldsAfter(host: string, sources: seq<Source>, lookups: seq<Lookup>, i: nat,
                       backendsByHost: map<string, seq<string>>)
    requires |sources| == |lookups| && i <= |sources|
  {
    HoldsFor(host, backendsByHost, BackendsOf(host, sources[..i], lookups[..i]))
  }

  /** What the loop has gathered from the first `i` sources. */
  ghost predicate Gathered(sources: seq<Source>, lookups: seq<Lookup>, i: nat,
                           hosts: seq<string>, backendsByHost: map<string, seq<string>>)
    requires |sources| == |lookups| && i <= |sources|
  {
    && hosts == HostsOf(sources[..i])
    && (forall h :: h in backendsByHost <==> h in hosts)
    && "" !in backendsByHost
    && (forall h :: HoldsAfter(h, sources, lookups, i, backendsByHost))
  }

  /** One turn of the loop changed the entry of one host, if any. */
  ghost predicate Appended(before: map<string, seq<string>>, after: map<string, seq<string>>, host: string,
                           more: seq<string>)
  {
    if host == "" then after == before
    else
      && after.Keys == before.Keys + {host}
      && after[host] == (if host in before then before[host] else []) + more
      && forall h | h in before && h != host :: after[h] == before[h]
  }

  lemma AppendedHolds(before: map<string, seq<string>>, after: map<string, seq<string>>, host: string,
                      more: seq<string>, h: string, backends: seq<string>)
    requires Appended(before, after, host, more) && "" !in before && HoldsFor(h, before, backends)
    ensures HoldsFor(h, after, backends + if h == host then more else [])
  {
    assert backends + [] == backends && [] + more == more;
  }

  lemma HoldsOneMore(sources: seq<Source>, lookups: seq<Lookup>, i: nat,
                     before: map<string, seq<string>>, after: map<string, seq<string>>, h: string)
    requires |sources| == |lookups| && i < |sources| && "" !in before && HoldsAfter(h, sources, lookups, i, before)
    requires Appended(before, after, Trim(sources[i].host), Given(Trim(sources[i].host), sources[i], lookups[i]))
    ensures HoldsAfter(h, sources, lookups, i + 1, after)
  {
    OneMoreSource(sources, lookups, i, h);
    AppendedHolds(before, after, Trim(sources[i].host), Given(Trim(sources[i].host), sources[i], lookups[i]),
                  h, BackendsOf(h, sources[..i], lookups[..i]));
  }

  lemma HostsOneMore(hosts: seq<string>, before: map<string, seq<string>>,
                     hosts': seq<string>, after: map<string, seq<string>>, host: string, more: seq<string>)
    requires "" !in before && forall h :: h in before <==> h in hosts
    requires hosts' == (if host == "" || host in before then hosts else hosts + [host])
    requires Appended(before, after, host, more)
    ensures "" !in after && forall h :: h in after <==> h in hosts'
  {}

  lemma AllHoldOneMore(sources: seq<Source>, lookups: seq<Lookup>, i: nat, next: nat,
                       before: map<string, seq<string>>, after: map<string, seq<string>>)
    requires |sources| == |lookups| && i < |sources| && next == i + 1 && "" !in before
    requires forall h :: HoldsAfter(h, sources, lookups, i, before)
    requires Appended(before, after, Trim(sources[i].host), Given(Trim(sources[i].host), sources[i], lookups[i]))
    ensures forall h :: HoldsAfter(h, sources, lookups, next, after)
  {
    forall h ensures HoldsAfter(h, sources, lookups, next, after) {
      HoldsOneMore(sources, lookups, i, before, after, h);
    }
  }

  lemma GatherOneMore(sources: seq<Source>, lookups: seq<Lookup>, i: nat,
                      hosts: seq<string>, before: map<string, seq<string>>,
                      hosts': seq<string>, after: map<string, seq<string>>)
    requires |sources| == |lookups| && i < |sources| && Gathered(sources, lookups, i, hosts, before)
    requires hosts' == if Trim(sources[i].host) == "" || Trim(sources[i].host) in before
                       then hosts else hosts + [Trim(sources[i].host)]
    requires Appended(before, after, Trim(sources[i].host), Given(Trim(sources[i].host), sources[i], lookups[i]))
    ensures Gathered(sources, lookups, i + 1, hosts', after)
  {
    OneMoreHost(sources, i);
    HostsOneMore(hosts, before, hosts', after, Trim(sources[i].host),
                 Given(Trim(sources[i].host), sources[i], lookups[i]));
    AllHoldOneMore(sources, lookups, i, i + 1, before, after);
  }

  /** The loop that grows a list of hosts and a map of backends. */
  method GatherBackends(sources: seq<Source>, lookups: seq<Lookup>)
    returns (ok: bool, hosts: seq<string>, backendsByHost: map<string, seq<string>>)
    requires |sources| == |lookups|
    ensures ok <==> !LookupFails(sources, lookups)
    ensures ok ==> Gathered(sources, lookups, |sources|, hosts, backendsByHost)
  {
    ok, hosts, backendsByHost := true, [], map[];
    for i := 0 to |sources|
      invariant ok && Gathered(sources, lookups, i, hosts, backendsByHost)
      invariant forall k | 0 <= k < i :: !(NeedsNode(sources[k]) && lookups[k] == Unavailable)
    {
      ghost var hostsBefore, before := hosts, backendsByHost;
      var source := sources[i];
      var host := Trim(source.host);
      if host != "" {
        if host !in backendsByHost {
          hosts := hosts + [host];
          backendsByHost := backendsByHost[host := []];
        }
        if source.hasBackend && source.hostPort > 0 {
          var lookup := lookups[i];
          if lookup.Unavailable? {
            return false, hosts, backendsByHost;
          }
          if lookup.Found? && lookup.row.status == Ready {
            var privateIp := Trim(lookup.row.privateIp);
            if privateIp != "" {
              var backend := JoinHostPort(privateIp, source.hostPort);
              backendsByHost := backendsByHost[host := backendsByHost[host] + [backend]];
            }
          }
        }
      }
      GatherOneMore(sources, lookups, i, hostsBefore, before, hosts, backendsByHost);
    }
  }

  method ListRoutes(hosts: seq<string>, backendsByHost: map<string, seq<string>>) returns (routes: seq<Route>)
    requires forall h | h in hosts :: h in backendsByHost
    ensures |routes| == |hosts|
    ensures forall k | 0 <= k < |hosts| :: routes[k] == Route(hosts[k], backendsByHost[hosts[k]])
  {
    routes := [];
    for k := 0 to |hosts|
      invariant |routes| == k
      invariant forall j | 0 <= j < k :: routes[j] == Route(hosts[j], backendsByHost[hosts[j]])
    {
      routes := routes + [Route(hosts[k], backendsByHost[hosts[k]])];
    }
  }

  lemma GatheredAll(sources: seq<Source>, lookups: seq<Lookup>, hosts: seq<string>,
                    backendsByHost: map<string, seq<string>>)
    requires |sources| == |lookups| && Gathered(sources, lookups, |sources|, hosts, backendsByHost)
    ensures hosts == HostsOf(sources)
    ensures forall h | h in hosts :: h in backendsByHost && backendsByHost[h] == BackendsOf(h, sources, lookups)
  {
    assert sources[..|sources|] == sources && lookups[..|sources|] == lookups;
    forall h | h in hosts ensures h in backendsByHost && backendsByHost[h] == BackendsOf(h, sources, lookups) {
      assert HoldsAfter(h, sources, lookups, |sources|, backendsByHost);
    }
  }

  /** The routes built are the per-host filter of the sources. */
  method BuildRoutes(sources: seq<Source>, lookups: seq<Lookup>) returns (r: Result<seq<Route>>)
    requires |sources| == |lookups|
    ensures r.Err? <==> exists k :: 0 <= k < |sources| && Trim(sources[k].host) != "" && sources[k].hasBackend
                                    && sources[k].hostPort > 0 && lookups[k] == Unavailable
    ensures r.Ok? ==> r.value == RoutesOf(sources, lookups)
  {
    var ok, hosts, backendsByHost := GatherBackends(sources, lookups);
    if !ok {
      return Err(NodeNotFound);
    }
    GatheredAll(sources, lookups, hosts, backendsByHost);
    var routes := ListRoutes(hosts, backendsByHost);
    assert routes == RoutesOf(sources, lookups);
    return Ok(routes);
  }

  // ---- What the routes say ----

  predicate Shows(sources: seq<Source>, host: string) {
    exists k :: 0 <= k < |sources| && Trim(sources[k].host) == host
  }

  /** The position at which a host is first seen. */
  ghost predicate FirstSeen(sources: seq<Source>, host: string, k: nat) {
    k < |sources| && Trim(sources[k].host) == host && !Shows(sources[..k], host)
  }

  /** Each host once, exactly those that occur, in the order in which they are first seen. */
  lemma {:induction false} HostsInOrder(sources: seq<Source>)
    ensures forall h :: h in HostsOf(sources) <==> h != "" && Shows(sources, h)
    ensures forall i, j | 0 <= i < j < |HostsOf(sources)| :: HostsOf(sources)[i] != HostsOf(sources)[j]
    ensures forall i, j, k, l | 0 <= i < j < |HostsOf(sources)|
                                && FirstSeen(sources, HostsOf(sources)[i], k)
                                && FirstSeen(sources, HostsOf(sources)[j], l) :: k < l
  {
    if sources != [] {
      var front, last := sources[..|sources| - 1], sources[|sources| - 1];
      HostsInOrder(front);
      var before, hosts := HostsOf(front), HostsOf(sources);
      forall h ensures Shows(sources, h) <==> Shows(front, h) || h == Trim(last.host) {
        if Shows(front, h) {
          var k :| 0 <= k < |front| && Trim(front[k].host) == h;
          assert sources[k] == front[k];
        }
        if h == Trim(last.host) {
          assert sources[|sources| - 1] == last;
        }
      }
      forall i, j, k, l | 0 <= i < j < |hosts| && FirstSeen(sources, hosts[i], k) && FirstSeen(sources, hosts[j], l)
        ensures k < l
      {
        assert hosts[i] in before;
        FirstSeenEarlier(sources, hosts[i], k);
        if j < |before| {
          assert hosts[j] in before;
          FirstSeenEarlier(sources, hosts[j], l);
        } else {
          NotSeenBefore(sources, hosts[j], l);
        }
      }
    }
  }

  lemma FirstSeenEarlier(sources: seq<Source>, host: string, k: nat)
    requires sources != [] && FirstSeen(sources, host, k) && Shows(sources[..|sources| - 1], host)
    ensures k < |sources| - 1 && FirstSeen(sources[..|sources| - 1], host, k)
  {
    var front := sources[..|sources| - 1];
    assert sources[..|front|] == front;
    if k < |front| {
      assert front[..k] == sources[..k];
    }
  }

  lemma NotSeenBefore(sources: seq<Source>, host: string, k: nat)
    requires sources != [] && FirstSeen(sources, host, k) && !Shows(sources[..|sources| - 1], host)
    ensures k == |sources| - 1
  {
    var front := sources[..|sources| - 1];
    assert forall j | 0 <= j < |front| :: front[j] == sources[j];
  }

  lemma Associative(x: seq<string>, y: seq<string>, z: seq<string>)
    ensures (x + y) + z == x + (y + z)
  {}

  lemma OneSourceAppended(host: string, a: seq<Source>, c: seq<Lookup>, source: Source, lookup: Lookup)
    requires |a| == |c|
    ensures BackendsOf(host, a + [source], c + [lookup]) == BackendsOf(host, a, c) + Given(host, source, lookup)
  {
    assert (a + [source])[..|a|] == a && (c + [lookup])[..|a|] == c;
  }

  lemma LastApart<T>(a: seq<T>, b: seq<T>)
    requires b != []
    ensures b == b[..|b| - 1] + [b[|b| - 1]] && a + b == (a + b[..|b| - 1]) + [b[|b| - 1]]
  {}

  lemma OrderOneMore(host: string, a: seq<Source>, b: seq<Source>, c: seq<Lookup>, d: seq<Lookup>,
                     source: Source, lookup: Lookup)
    requires |a| == |c| && |b| == |d|
    requires BackendsOf(host, a + b, c + d) == BackendsOf(host, a, c) + BackendsOf(host, b, d)
    ensures BackendsOf(host, (a + b) + [source], (c + d) + [lookup])
         == BackendsOf(host, a, c) + BackendsOf(host, b + [source], d + [lookup])
  {
    OneSourceAppended(host, b, d, source, lookup);
    OneSourceAppended(host, a + b, c + d, source, lookup);
    Associative(BackendsOf(host, a, c), BackendsOf(host, b, d), Given(host, source, lookup));
  }

  /** The backends of a host are those of a first part of the sources, then those of the rest. */
  lemma {:induction false} BackendsInOrder(host: string, a: seq<Source>, b: seq<Source>, c: seq<Lookup>, d: seq<Lookup>)
    requires |a| == |c| && |b| == |d|
    ensures BackendsOf(host, a + b, c + d) == BackendsOf(host, a, c) + BackendsOf(host, b, d)
    decreases |b|
  {
    if b == [] {
      assert a + b == a && c + d == c && d == [];
      assert BackendsOf(host, a, c) + [] == BackendsOf(host, a, c);
    } else {
      var last := |b| - 1;
      LastApart(a, b);
      LastApart(c, d);
      BackendsInOrder(host, a, b[..last], c, d[..last]);
      OrderOneMore(host, a, b[..last], c, d[..last], b[last], d[last]);
    }
  }

  ghost predicate Contributes(host: string, sources: seq<Source>, lookups: seq<Lookup>, k: nat, backend: string)
    requires |sources| == |lookups|
  {
    k < |sources| && GivesBackend(host, sources[k], lookups[k]) && BackendOf(sources[k], lookups[k]) == backend
  }

  lemma ContributesAppended(host: string, sources: seq<Source>, lookups: seq<Lookup>,
                            source: Source, lookup: Lookup, k: nat, backend: string)
    requires |sources| == |lookups|
    ensures Contributes(host, sources + [source], lookups + [lookup], k, backend) <==>
            || Contributes(host, sources, lookups, k, backend)
            || (k == |sources| && backend in Given(host, source, lookup))
  {}

  /** Every backend comes from a source, and every source that contributes one is heard. */
  lemma {:induction false} BackendHasSource(host: string, sources: seq<Source>, lookups: seq<Lookup>, backend: string)
    requires |sources| == |lookups|
    ensures backend in BackendsOf(host, sources, lookups) <==>
            exists k :: Contributes(host, sources, lookups, k, backend)
  {
    if sources != [] {
      var last := |sources| - 1;
      var front, before, source, lookup := sources[..last], lookups[..last], sources[last], lookups[last];
      BackendHasSource(host, front, before, backend);
      assert sources == front + [source] && lookups == before + [lookup];
      forall k: nat
        ensures Contributes(host, sources, lookups, k, backend) <==>
                Contributes(host, front, before, k, backend) || (k == last && backend in Given(host, source, lookup))
      {
        ContributesAppended(host, front, before, source, lookup, k, backend);
      }
      assert backend in Given(host, source, lookup) ==> Contributes(host, sources, lookups, last, backend);
    }
  }

  /** Service `i` is an active public one with this host whose running run of its current
      generation is on a node that was seen ready with the address in `backend`. */
  predicate Live(s: State, i: ServiceId, host: string, lookup: Lookup, backend: string) {
    && i in s.services && s.services[i].desired == DesiredActive && s.services[i].spec.exposure == Public
    && Trim(s.services[i].host) == host && host != ""
    && i in s.runs && s.runs[i].status == Running && s.runs[i].generation == s.services[i].generation
    && s.runs[i].node.Some? && s.runs[i].hostPort > 0
    && lookup.Found? && lookup.row.status == Ready && Trim(lookup.row.privateIp) != ""
    && backend == JoinHostPort(Trim(lookup.row.privateIp), s.runs[i].hostPort)
  }

  /** The node looked up for a source is the one its run sits on. */
  lemma LooksUpRunNode(s: State, ids: seq<ServiceId>, sources: seq<Source>, k: nat)
    requires ListsSources(s, ids, sources) && k < |ids| && NeedsNode(sources[k])
    ensures ids[k] in s.runs && s.runs[ids[k]].node == Some(sources[k].node)
  {}

  /** A route has exactly the backends that are live, as the query and the lookups saw them. */
  lemma BackendsAreLive(s: State, ids: seq<ServiceId>, sources: seq<Source>, lookups: seq<Lookup>,
                        host: string, backend: string)
    requires ListsSources(s, ids, sources) && |sources| == |lookups|
    ensures backend in BackendsOf(host, sources, lookups) <==>
            exists k :: 0 <= k < |ids| && Live(s, ids[k], host, lookups[k], backend)
  {
    BackendHasSource(host, sources, lookups, backend);
    forall k | 0 <= k < |ids|
      ensures Live(s, ids[k], host, lookups[k], backend) <==> Contributes(host, sources, lookups, k, backend)
    {
      assert sources[k] == SourceOf(s, ids[k]);
    }
  }

  /** Every active public service has a route, even while nothing serves it; there is no other. */
  lemma PublicServicesHaveRoutes(s: State, ids: seq<ServiceId>, sources: seq<Source>, host: string)
    requires ListsSources(s, ids, sources)
    ensures host in HostsOf(sources) <==>
            host != "" && exists i :: i in s.services && s.services[i].desired == DesiredActive
                                      && s.services[i].spec.exposure == Public && Trim(s.services[i].host) == host
  {
    HostsInOrder(sources);
    if i :| i in s.services && PublicService(s, i) && Trim(s.services[i].host) == host {
      assert i in ids;
      var k :| 0 <= k < |ids| && ids[k] == i;
      assert Trim(sources[k].host) == host;
    }
    if k :| 0 <= k < |sources| && Trim(sources[k].host) == host {
      assert PublicService(s, ids[k]);
    }
  }

  lemma {:induction false} OneSourceOneBackend(host: string, sources: seq<Source>, lookups: seq<Lookup>)
    requires |sources| == |lookups|
    requires forall k, l | 0 <= k < l < |sources| :: Trim(sources[k].host) != host || Trim(sources[l].host) != host
    ensures |BackendsOf(host, sources, lookups)| <= 1
    ensures !Shows(sources, host) ==> BackendsOf(host, sources, lookups) == []
  {
    if sources != [] {
      var last := |sources| - 1;
      OneSourceOneBackend(host, sources[..last], lookups[..last]);
      if Trim(sources[last].host) == host {
        assert !Shows(sources[..last], host);
      } else if Shows(sources[..last], host) {
        var k :| 0 <= k < last && Trim(sources[..last][k].host) == host;
        assert Trim(sources[k].host) == host;
      }
    }
  }

  /** Hosts are unique in the table and stored trimmed: no route has two backends. */
  lemma AtMostOneBackend(s: State, ids: seq<ServiceId>, sources: seq<Source>, lookups: seq<Lookup>, host: string)
    requires Tables(s) && forall i | i in s.services :: Trimmed(s.services[i].host)
    requires ListsSources(s, ids, sources) && |sources| == |lookups|
    ensures |BackendsOf(host, sources, lookups)| <= 1
  {
    forall k, l | 0 <= k < l < |sources|
      ensures Trim(sources[k].host) != host || Trim(sources[l].host) != host
    {
      TrimIsTrimmed(s.services[ids[k]].host);
      TrimIsTrimmed(s.services[ids[l]].host);
    }
    OneSourceOneBackend(host, sources, lookups);
  }

  // ---- From a report to a route ----

  lemma ColonEnds(x: string, port: nat)
    ensures var s := x + ":" + StoreSpec.Decimal(port);
            s[|x|] == ':' && forall k | |x| < k < |s| :: s[k] != ':'
  {
    Handover.DecimalDigits(port);
    var s := x + ":" + StoreSpec.Decimal(port);
    forall k | |x| < k < |s| ensures s[k] != ':' {
      assert s[k] == StoreSpec.Decimal(port)[k - |x| - 1];
      assert s[k] in StoreSpec.Decimal(port);
    }
  }

  lemma SameAddress(x: string, port: nat, y: string, port': nat)
    requires x + ":" + StoreSpec.Decimal(port) == y + ":" + StoreSpec.Decimal(port')
    ensures x == y && port == port'
  {
    ColonEnds(x, port);
    ColonEnds(y, port');
    var s := x + ":" + StoreSpec.Decimal(port);
    assert |x| == |y|;
    assert x == s[..|x|] && y == s[..|x|];
    assert StoreSpec.Decimal(port) == s[|x| + 1..] == StoreSpec.Decimal(port');
    Handover.DecimalIsInjective(port, port');
  }

  function Host(ip: string): string {
    if ':' in ip then "[" + ip + "]" else ip
  }

  lemma BackendIs(ip: string, port: int)
    ensures JoinHostPort(ip, port) == Host(ip) + ":" + StoreSpec.Decimal(port)
  {}

  /** A backend names one address and one port, of either family. */
  lemma BackendIsInjective(ip: string, port: nat, ip': string, port': nat)
    requires '[' !in ip && '[' !in ip'
    ensures JoinHostPort(ip, port) == JoinHostPort(ip', port') <==> ip == ip' && port == port'
  {
    if JoinHostPort(ip, port) == JoinHostPort(ip', port') {
      BackendIs(ip, port);
      BackendIs(ip', port');
      SameAddress(Host(ip), port, Host(ip'), port');
      assert ip != "" ==> ip[0] in ip;
      assert ip' != "" ==> ip'[0] in ip';
      assert ':' in ip ==> Host(ip)[1..][..|ip|] == ip;
      assert ':' in ip' ==> Host(ip')[1..][..|ip'|] == ip';
    }
  }

  /** The agent of node `n` reports that service `i` listens on a port; anything happens that
      neither updates nor claims the service. Whenever the routes are built while the run still
      runs for the active public service, and its node is seen ready with an address, ingress
      sends the host to that address and the reported port. */
  lemma ReportedPortIsRouted(s: State, n: NodeId, i: ServiceId, input: StoreSpec.ReportInput, now: Time,
                             steps: seq<StoreSpec.Step>, ids: seq<ServiceId>, sources: seq<Source>,
                             lookups: seq<Lookup>, k: nat)
    requires Handover.ReportedRunning(s, n, i, input)
    requires var reported := StoreSpec.Report(s, n, s.runs[i].id, input, now).0;
             && StoreSpec.Feasible(reported, steps) && Handover.AllLeaveAlone(steps, i)
             && var t := StoreSpec.Exec(reported, steps);
                && ListsSources(t, ids, sources) && |lookups| == |sources| && k < |ids| && ids[k] == i
                && i in t.runs && t.runs[i].status == Running && t.runs[i].generation == t.services[i].generation
                && Trim(t.services[i].host) != ""
    requires lookups[k].Found? && lookups[k].row.status == Ready && Trim(lookups[k].row.privateIp) != ""
    ensures var t := StoreSpec.Exec(StoreSpec.Report(s, n, s.runs[i].id, input, now).0, steps);
            && sources[k].node == n
            && JoinHostPort(Trim(lookups[k].row.privateIp), input.hostPort)
               in BackendsOf(Trim(t.services[i].host), sources, lookups)
  {
    var reported := StoreSpec.Report(s, n, s.runs[i].id, input, now).0;
    var t := StoreSpec.Exec(reported, steps);
    Handover.RunningIsKept(s, n, i, input, now);
    Handover.ContainerStays(reported, steps, i);
    var host, backend := Trim(t.services[i].host), JoinHostPort(Trim(lookups[k].row.privateIp), input.hostPort);
    BackendsAreLive(t, ids, sources, lookups, host, backend);
    assert Live(t, ids[k], host, lookups[k], backend);
  }
}
