/** The front door: every public host is a CDN domain, and the services table remembers which
    domains the plane made, so that it can take them down again. */
module FrontDoor {
  import opened StoreModel
  import opened Strings

  datatype Record = Record(subdomain: string, kind: string, content: string)

  /** The front-door columns of a service. */
  datatype Status = Status(cname: string, verification: Option<Record>)

  const UNTRACKED := Status("", None)

  predicate Tracks(status: Status) {
    status.cname != "" || (status.verification.Some? && status.verification.value.subdomain != "")
  }

  /** `rows` are the services by host; `domains` the domains at the CDN with the name each
      answers under ("" while it is being configured); `created` the domains this plane asked
      the CDN to add. */
  datatype Door = Door(rows: map<string, Status>, domains: map<string, string>, created: set<string>)

  predicate Under(host: string, base: string) {
    host == base || EndsWith(host, "." + base)
  }

  /** Under a domain are the domain itself and what a dot sets apart from it, not whatever ends
      in the same letters. */
  lemma UnderIff(host: string, base: string)
    ensures Under(host, base) <==> host == base || exists front: string :: host == front + "." + base
  {
    if EndsWith(host, "." + base) {
      var front := host[..|host| - |base| - 1];
      assert host == front + host[|front|..];
      assert host == front + "." + base;
    }
    if front: string :| host == front + "." + base {
      assert host == front + ("." + base);
      assert host[|front|..] == "." + base;
    }
  }

  // ---- The CDN driver ----

  datatype Outcome = Fine | Unverified | Broken

  /** How the calls for one host turn out. The driver looks the domain up first; a domain that
      does not exist needs a verification record, which names a subdomain. */
  datatype Answers = Answers(
    lookupFails: bool, recordFails: bool, record: Record, verify: Outcome,
    ensureLookupFails: bool, add: Outcome, addTakesEffect: bool, configure: Outcome,
    delete: Outcome, deleteTakesEffect: bool,
    saveRecordFails: bool, saveNameFails: bool, clearFails: bool)
  {
    predicate Proper() {
      record.subdomain != "" && delete != Unverified
    }
  }

  datatype Prepared = Prepared(record: Option<Record>, outcome: Outcome)

  function PrepareDomain(domains: map<string, string>, host: string, a: Answers): (p: Prepared)
    ensures a.Proper() && host !in domains && p.outcome != Broken ==> p.record.Some?
  {
    if a.lookupFails then Prepared(None, Broken)
    else if host in domains then Prepared(None, Fine)
    else if a.recordFails then Prepared(None, Broken)
    else Prepared(Some(a.record), a.verify)
  }

  /** Adds the domain if it is missing; otherwise answers its name once it is configured. */
  function EnsureDomain(s: Door, host: string, a: Answers): (Door, Result<string>) {
    if a.ensureLookupFails then (s, Err(Invalid))
    else if host !in s.domains then
      var added := if a.add == Fine || a.addTakesEffect
                   then s.(domains := s.domains[host := ""], created := s.created + {host}) else s;
      (added, if a.add == Broken then Err(Invalid) else Ok(""))
    else if s.domains[host] == "" then (s, Ok(""))
    else if a.configure == Broken then (s, Err(Invalid))
    else (s, Ok(if a.configure == Fine then s.domains[host] else ""))
  }

  function DeleteDomain(s: Door, host: string, a: Answers): (Door, bool) {
    var gone := s.(domains := s.domains - {host});
    if a.delete == Fine then (gone, true) else (if a.deleteTakesEffect then gone else s, false)
  }

  // ---- The rows ----

  function Save(s: Door, host: string, status: Status): Door {
    if host != "" && host in s.rows then s.(rows := s.rows[host := status]) else s
  }

  predicate Tracked(s: Door, host: string) {
    host in s.rows && Tracks(s.rows[host])
  }

  ghost function Managed(s: Door): set<string> {
    set host | host in s.rows && Tracks(s.rows[host])
  }

  // ---- One sync ----

  type Oracle = string -> Answers

  function EnsureHost(s: Door, host: string, a: Answers): (Door, bool) {
    var p := PrepareDomain(s.domains, host, a);
    if p.record.Some? && a.saveRecordFails then (s, false)
    else
      var recorded := if p.record.Some? then Save(s, host, Status("", p.record)) else s;
      if p.outcome != Fine then (recorded, p.outcome == Unverified)
      else
        var (ensured, name) := EnsureDomain(recorded, host, a);
        if name.Err? then (ensured, false)
        else if name.value == "" then (ensured, true)
        else if a.saveNameFails then (ensured, false)
        else (Save(ensured, host, Status(name.value, None)), true)
  }

  function ReleaseHost(s: Door, base: string, desired: set<string>, host: string, a: Answers): (Door, bool) {
    if !Under(host, base) then (if a.clearFails then s else Save(s, host, UNTRACKED), !a.clearFails)
    else if host in desired then (s, true)
    else
      var (deleted, ok) := DeleteDomain(s, host, a);
      if !ok then (deleted, false)
      else (if a.clearFails then deleted else Save(deleted, host, UNTRACKED), !a.clearFails)
  }

  /** The first failure ends the sync where it stands. */
  function EnsureHosts(s: Door, hosts: seq<string>, oracle: Oracle): (Door, bool)
    decreases |hosts|
  {
    if hosts == [] then (s, true)
    else
      var (next, ok) := EnsureHost(s, hosts[0], oracle(hosts[0]));
      if !ok then (next, false) else EnsureHosts(next, hosts[1..], oracle)
  }

  function ReleaseHosts(s: Door, base: string, desired: set<string>, hosts: seq<string>, oracle: Oracle): (Door, bool)
    decreases |hosts|
  {
    if hosts == [] then (s, true)
    else
      var (next, ok) := ReleaseHost(s, base, desired, hosts[0], oracle(hosts[0]));
      if !ok then (next, false) else ReleaseHosts(next, base, desired, hosts[1..], oracle)
  }

  function Desired(routes: seq<string>): set<string> {
    set host | host in routes && host != ""
  }

  predicate AnyOutside(routes: seq<string>, base: string) {
    exists host :: host in routes && host != "" && !Under(host, base)
  }

  ghost function Sync(s: Door, base: string, routes: seq<string>, oracle: Oracle): (Door, bool) {
    if AnyOutside(routes, base) then (s, false)
    else
      var desired := Desired(routes);
      var (ensured, ok) := EnsureHosts(s, SortedKeys(desired), oracle);
      if !ok then (ensured, false) else ReleaseHosts(ensured, base, desired, SortedKeys(Managed(s)), oracle)
  }

  // ---- The service ----

  class Service {
    const base: string
    var rows: map<string, Status>
    var domains: map<string, string>
    ghost var created: set<string>

    constructor (base: string, rows: map<string, Status>, domains: map<string, string>)
      ensures this.base == base && View() == Door(rows, domains, {})
    {
      this.base, this.rows, this.domains, this.created := base, rows, domains, {};
    }

    ghost function View(): Door
      reads this
    {
      Door(rows, domains, created)
    }

    method SaveServiceFrontDoor(host: string, status: Status)
      modifies this`rows
      ensures View() == Save(old(View()), host, status)
    {
      if host != "" && host in rows {
        rows := rows[host := status];
      }
    }

    method Ensure(host: string, a: Answers) returns (name: Result<string>)
      modifies this`domains, this`created
      ensures (View(), name) == EnsureDomain(old(View()), host, a)
    {
      if a.ensureLookupFails {
        return Err(Invalid);
      }
      if host !in domains {
        if a.add == Fine || a.addTakesEffect {
          domains := domains[host := ""];
          created := created + {host};
        }
        return if a.add == Broken then Err(Invalid) else Ok("");
      }
      if domains[host] == "" {
        return Ok("");
      }
      if a.configure == Broken {
        return Err(Invalid);
      }
      return Ok(if a.configure == Fine then domains[host] else "");
    }

    method SyncHost(host: string, a: Answers) returns (ok: bool)
      modifies this
      ensures (View(), ok) == EnsureHost(old(View()), host, a)
    {
      var prepared := PrepareDomain(domains, host, a);
      if prepared.record.Some? {
        if a.saveRecordFails {
          return false;
        }
        SaveServiceFrontDoor(host, Status("", prepared.record));
      }
      if prepared.outcome != Fine {
        return prepared.outcome == Unverified;
      }
      var name := Ensure(host, a);
      if name.Err? {
        return false;
      }
      if name.value == "" {
        return true;
      }
      if a.saveNameFails {
        return false;
      }
      SaveServiceFrontDoor(host, Status(name.value, None));
      return true;
    }

    method Release(host: string, desired: set<string>, a: Answers) returns (ok: bool)
      modifies this
      ensures (View(), ok) == ReleaseHost(old(View()), base, desired, host, a)
    {
      if Under(host, base) {
        if host in desired {
          return true;
        }
        if a.delete == Fine || a.deleteTakesEffect {
          domains := domains - {host};
        }
        if a.delete != Fine {
          return false;
        }
      }
      if a.clearFails {
        return false;
      }
      SaveServiceFrontDoor(host, UNTRACKED);
      return true;
    }

    method SyncHosts(hosts: seq<string>, oracle: Oracle) returns (ok: bool)
      modifies this
      ensures (View(), ok) == EnsureHosts(old(View()), hosts, oracle)
    {
      ghost var start := View();
      assert hosts[0..] == hosts;
      for i := 0 to |hosts|
        invariant EnsureHosts(View(), hosts[i..], oracle) == EnsureHosts(start, hosts, oracle)
      {
        assert hosts[i..][1..] == hosts[i + 1..];
        var one := SyncHost(hosts[i], oracle(hosts[i]));
        if !one {
          return false;
        }
      }
      return true;
    }

    method ReleaseStale(managed: seq<string>, desired: set<string>, oracle: Oracle) returns (ok: bool)
      modifies this
      ensures (View(), ok) == ReleaseHosts(old(View()), base, desired, managed, oracle)
    {
      ghost var start := View();
      assert managed[0..] == managed;
      for i := 0 to |managed|
        invariant ReleaseHosts(View(), base, desired, managed[i..], oracle)
               == ReleaseHosts(start, base, desired, managed, oracle)
      {
        assert managed[i..][1..] == managed[i + 1..];
        var one := Release(managed[i], desired, oracle(managed[i]));
        if !one {
          return false;
        }
      }
      return true;
    }

    /** The hosts asked for, or none at all when one lies outside the base domain. */
    method DesiredHosts(routes: seq<string>) returns (desired: Option<set<string>>)
      ensures desired == if AnyOutside(routes, base) then None else Some(Desired(routes))
    {
      var hosts: set<string> := {};
      for i := 0 to |routes|
        invariant hosts == Desired(routes[..i]) && !AnyOutside(routes[..i], base)
      {
        var host := routes[i];
        assert routes[..i + 1] == routes[..i] + [host];
        if host == "" {
          continue;
        }
        if !Under(host, base) {
          assert host in routes;
          return None;
        }
        hosts := hosts + {host};
      }
      assert routes[..|routes|] == routes;
      return Some(hosts);
    }

    method SyncRoutes(routes: seq<string>, oracle: Oracle) returns (ok: bool)
      modifies this
      ensures (View(), ok) == Sync(old(View()), base, routes, oracle)
    {
      var desired := DesiredHosts(routes);
      if desired == None {
        return false;
      }
      var tracked := set host | host in rows && Tracks(rows[host]);
      assert tracked == Managed(View());
      var managed := SortedElements(tracked);
      var hosts := SortedElements(desired.value);
      ok := SyncHosts(hosts, oracle);
      if ok {
        ok := ReleaseStale(managed, desired.value, oracle);
      }
    }
  }

  // ---- No orphans ----

  ghost predicate Proper(oracle: Oracle) {
    forall host :: oracle(host).Proper()
  }

  /** A domain the plane made that no row tracks. */
  predicate Orphan(s: Door, host: string) {
    host in s.created && host in s.domains && !Tracked(s, host)
  }

  ghost predicate NoOrphan(s: Door) {
    forall host | host in s.created :: !Orphan(s, host)
  }

  ghost predicate MadeUnder(s: Door, base: string) {
    forall host | host in s.created :: Under(host, base)
  }

  /** The calls for this host get as far as adding its missing domain. */
  predicate Adds(s: Door, host: string, a: Answers) {
    && host !in s.domains && !a.lookupFails && !a.recordFails && !a.saveRecordFails && a.verify == Fine
    && !a.ensureLookupFails && (a.add == Fine || a.addTakesEffect)
  }

  predicate SameAt(s: Door, after: Door, host: string) {
    && (host in s.domains <==> host in after.domains)
    && (host in s.domains ==> s.domains[host] == after.domains[host])
    && (host in s.rows <==> host in after.rows)
    && (host in s.rows ==> s.rows[host] == after.rows[host])
    && (host in s.created <==> host in after.created)
  }

  /** A host is tracked before its domain is added — unless it has no row. */
  lemma EnsureHostKeepsIff(s: Door, base: string, host: string, a: Answers)
    requires NoOrphan(s) && a.Proper() && host != ""
    ensures var after := EnsureHost(s, host, a).0;
            && (NoOrphan(after) <==> !(host !in s.rows && Adds(s, host, a)))
            && (host !in s.rows && Adds(s, host, a) ==> Orphan(after, host))
  {
    var after := EnsureHost(s, host, a).0;
    if host !in s.rows && Adds(s, host, a) {
      assert Orphan(after, host);
    } else {
      forall h | h in after.created ensures !Orphan(after, h) {
        assert h in s.created ==> !Orphan(s, h);
      }
    }
  }

  lemma EnsureHostFrame(s: Door, base: string, host: string, a: Answers)
    requires MadeUnder(s, base) && Under(host, base)
    ensures var after := EnsureHost(s, host, a).0;
            && MadeUnder(after, base) && after.rows.Keys == s.rows.Keys
            && s.domains.Keys <= after.domains.Keys && s.created <= after.created
            && Managed(after) <= Managed(s) + {host}
  {}

  lemma EnsureHostElsewhere(s: Door, host: string, a: Answers, other: string)
    requires other != host
    ensures SameAt(s, EnsureHost(s, host, a).0, other)
  {}

  lemma {:induction false} EnsureHostsFrame(s: Door, base: string, hosts: seq<string>, oracle: Oracle)
    requires MadeUnder(s, base) && forall host | host in hosts :: Under(host, base)
    ensures var after := EnsureHosts(s, hosts, oracle).0;
            && MadeUnder(after, base) && after.rows.Keys == s.rows.Keys
            && s.domains.Keys <= after.domains.Keys
            && Managed(after) <= Managed(s) + Elements(hosts)
    decreases |hosts|
  {
    if hosts != [] {
      var (next, ok) := EnsureHost(s, hosts[0], oracle(hosts[0]));
      EnsureHostFrame(s, base, hosts[0], oracle(hosts[0]));
      if ok {
        EnsureHostsFrame(next, base, hosts[1..], oracle);
        assert Elements(hosts[1..]) + {hosts[0]} == Elements(hosts);
      }
    }
  }

  lemma {:induction false} EnsureHostsElsewhere(s: Door, hosts: seq<string>, oracle: Oracle, other: string)
    requires other !in hosts
    ensures SameAt(s, EnsureHosts(s, hosts, oracle).0, other)
    decreases |hosts|
  {
    if hosts != [] {
      EnsureHostElsewhere(s, hosts[0], oracle(hosts[0]), other);
      EnsureHostsElsewhere(EnsureHost(s, hosts[0], oracle(hosts[0])).0, hosts[1..], oracle, other);
    }
  }

  /** The sync reaches a host without a row and adds its missing domain. */
  predicate AddsUntracked(s: Door, hosts: seq<string>, oracle: Oracle)
    decreases |hosts|
  {
    hosts != [] &&
    var a := oracle(hosts[0]);
    || (hosts[0] !in s.rows && Adds(s, hosts[0], a))
    || (EnsureHost(s, hosts[0], a).1 && AddsUntracked(EnsureHost(s, hosts[0], a).0, hosts[1..], oracle))
  }

  lemma {:induction false} EnsureHostsKeepIff(s: Door, base: string, hosts: seq<string>, oracle: Oracle)
    requires NoOrphan(s) && MadeUnder(s, base) && Proper(oracle) && Sorted(hosts)
    requires forall host | host in hosts :: Under(host, base) && host != ""
    ensures !AddsUntracked(s, hosts, oracle) ==> NoOrphan(EnsureHosts(s, hosts, oracle).0)
    ensures AddsUntracked(s, hosts, oracle) ==>
              exists host :: host in hosts && Orphan(EnsureHosts(s, hosts, oracle).0, host)
    decreases |hosts|
  {
    if hosts != [] {
      var host, a, rest := hosts[0], oracle(hosts[0]), hosts[1..];
      var (next, ok) := EnsureHost(s, host, a);
      assert hosts == [host] + rest && host in hosts;
      EnsureHostKeepsIff(s, base, host, a);
      EnsureHostFrame(s, base, host, a);
      if host !in s.rows && Adds(s, host, a) {
        if ok {
          EnsureHostsElsewhere(next, rest, oracle, host);
        }
        assert host in hosts && Orphan(EnsureHosts(s, hosts, oracle).0, host);
      } else if ok {
        EnsureHostsKeepIff(next, base, rest, oracle);
        if AddsUntracked(next, rest, oracle) {
          var other :| other in rest && Orphan(EnsureHosts(next, rest, oracle).0, other);
          assert other in hosts;
        }
      }
    }
  }

  /** A row is cleared only after its domain is gone, and desired hosts are left alone. */
  lemma ReleaseHostKeeps(s: Door, base: string, desired: set<string>, host: string, a: Answers)
    requires MadeUnder(s, base)
    ensures var (after, ok) := ReleaseHost(s, base, desired, host, a);
            && (NoOrphan(s) ==> NoOrphan(after))
            && MadeUnder(after, base) && after.rows.Keys == s.rows.Keys
            && (forall h | h in s.domains && (h in desired || !Under(h, base)) :: h in after.domains)
            && Managed(after) <= Managed(s)
            && (ok && host != "" && !(Under(host, base) && host in desired) ==> host !in Managed(after))
            && (forall h | h in desired && Under(h, base) :: SameAt(s, after, h))
  {
    var after := ReleaseHost(s, base, desired, host, a).0;
    if NoOrphan(s) {
      forall h | h in after.created ensures !Orphan(after, h) {
        assert !Orphan(s, h);
      }
    }
  }

  lemma {:induction false} ReleaseHostsKeep(s: Door, base: string, desired: set<string>, hosts: seq<string>,
                                            oracle: Oracle)
    requires MadeUnder(s, base)
    ensures var (after, ok) := ReleaseHosts(s, base, desired, hosts, oracle);
            && (NoOrphan(s) ==> NoOrphan(after))
            && MadeUnder(after, base) && after.rows.Keys == s.rows.Keys
            && (forall h | h in s.domains && (h in desired || !Under(h, base)) :: h in after.domains)
            && Managed(after) <= Managed(s)
            && (ok ==> forall h | h in hosts && h in Managed(after) :: h == "" || (h in desired && Under(h, base)))
            && (forall h | h in desired && Under(h, base) :: SameAt(s, after, h))
    decreases |hosts|
  {
    if hosts != [] {
      var (next, ok) := ReleaseHost(s, base, desired, hosts[0], oracle(hosts[0]));
      ReleaseHostKeeps(s, base, desired, hosts[0], oracle(hosts[0]));
      if ok {
        ReleaseHostsKeep(next, base, desired, hosts[1..], oracle);
        assert hosts == [hosts[0]] + hosts[1..];
      }
    }
  }

  ghost predicate SyncAddsUntracked(s: Door, base: string, routes: seq<string>, oracle: Oracle) {
    !AnyOutside(routes, base) && AddsUntracked(s, SortedKeys(Desired(routes)), oracle)
  }

  /** One sync, successful or failed midway, keeps every domain the plane made tracked, exactly
      when it adds no domain for a route host that has no row. */
  lemma SyncKeepsTrackIff(s: Door, base: string, routes: seq<string>, oracle: Oracle)
    requires NoOrphan(s) && MadeUnder(s, base) && Proper(oracle)
    ensures NoOrphan(Sync(s, base, routes, oracle).0) <==> !SyncAddsUntracked(s, base, routes, oracle)
  {
    if !AnyOutside(routes, base) {
      var desired := Desired(routes);
      var hosts := SortedKeys(desired);
      ElementsOf(hosts);
      EnsureHostsKeepIff(s, base, hosts, oracle);
      EnsureHostsFrame(s, base, hosts, oracle);
      var (ensured, ok) := EnsureHosts(s, hosts, oracle);
      if ok {
        ReleaseHostsKeep(ensured, base, desired, SortedKeys(Managed(s)), oracle);
        if AddsUntracked(s, hosts, oracle) {
          var host :| host in hosts && Orphan(ensured, host);
          assert Orphan(Sync(s, base, routes, oracle).0, host);
        }
      }
    }
  }

  /** Whatever its routes, a sync never takes down a desired host or one outside the base
      domain, adds and drops no row, and if it succeeds tracks desired hosts only. */
  lemma SyncSparesDesired(s: Door, base: string, routes: seq<string>, oracle: Oracle)
    requires MadeUnder(s, base)
    ensures var (after, ok) := Sync(s, base, routes, oracle);
            && MadeUnder(after, base) && after.rows.Keys == s.rows.Keys
            && (forall h | h in s.domains && (h in Desired(routes) || !Under(h, base)) :: h in after.domains)
            && (ok ==> forall h | h in Managed(after) :: h == "" || h in Desired(routes))
  {
    if !AnyOutside(routes, base) {
      var desired := Desired(routes);
      var hosts, managed := SortedKeys(desired), SortedKeys(Managed(s));
      ElementsOf(hosts);
      ElementsOf(managed);
      EnsureHostsFrame(s, base, hosts, oracle);
      var (ensured, ok) := EnsureHosts(s, hosts, oracle);
      if ok {
        ReleaseHostsKeep(ensured, base, desired, managed, oracle);
      }
    }
  }

  // ---- What a successful sync achieves ----

  /** A host whose domain was configured has its name on record and no verification any more;
      one whose domain was missing has its verification record, and a domain if the CDN took it.
      (Only a host with a row can have anything on record.) */
  predicate Progressed(s: Door, after: Door, host: string, a: Answers) {
    && (host in s.domains ==> host in after.domains)
    && (host in s.rows ==>
          && host in after.rows
          && (host in s.domains && s.domains[host] != "" && a.configure == Fine ==>
                after.rows[host] == Status(s.domains[host], None))
          && (host !in s.domains ==> after.rows[host] == Status("", Some(a.record))))
    && (host !in s.domains && a.verify == Fine && a.add == Fine ==> host in after.domains)
    && (host !in s.domains && a.verify != Fine ==> host !in after.domains)
  }

  /** A host stops the sync exactly for a call that fails. One whose ownership is not verified
      yet, or whose domain is not configured yet, does not hold up the others. */
  lemma EnsureHostFailsIff(s: Door, host: string, a: Answers)
    ensures
      !EnsureHost(s, host, a).1 <==>
        || a.lookupFails
        || (host !in s.domains
            && (a.recordFails || a.saveRecordFails || a.verify == Broken
                || (a.verify == Fine && (a.ensureLookupFails || a.add == Broken))))
        || (host in s.domains
            && (a.ensureLookupFails
                || (s.domains[host] != ""
                    && (a.configure == Broken || (a.configure == Fine && a.saveNameFails)))))
  {}

  lemma EnsureHostProgresses(s: Door, host: string, a: Answers)
    requires host != "" && EnsureHost(s, host, a).1
    ensures Progressed(s, EnsureHost(s, host, a).0, host, a)
  {}

  lemma {:induction false} EnsureHostsProgress(s: Door, hosts: seq<string>, oracle: Oracle, host: string)
    requires Sorted(hosts) && EnsureHosts(s, hosts, oracle).1 && host in hosts && host != ""
    ensures Progressed(s, EnsureHosts(s, hosts, oracle).0, host, oracle(host))
    decreases |hosts|
  {
    var next := EnsureHost(s, hosts[0], oracle(hosts[0])).0;
    if host == hosts[0] {
      EnsureHostProgresses(s, host, oracle(host));
      EnsureHostsElsewhere(next, hosts[1..], oracle, host);
    } else {
      EnsureHostElsewhere(s, hosts[0], oracle(hosts[0]), host);
      EnsureHostsProgress(next, hosts[1..], oracle, host);
    }
  }

  /** A successful sync has taken every desired host one step further. */
  lemma SyncProgresses(s: Door, base: string, routes: seq<string>, oracle: Oracle, host: string)
    requires MadeUnder(s, base) && Sync(s, base, routes, oracle).1 && host in Desired(routes)
    ensures Progressed(s, Sync(s, base, routes, oracle).0, host, oracle(host))
  {
    var desired := Desired(routes);
    var hosts := SortedKeys(desired);
    ElementsOf(hosts);
    var ensured := EnsureHosts(s, hosts, oracle).0;
    EnsureHostsProgress(s, hosts, oracle, host);
    EnsureHostsFrame(s, base, hosts, oracle);
    ReleaseHostsKeep(ensured, base, desired, SortedKeys(Managed(s)), oracle);
    assert SameAt(ensured, Sync(s, base, routes, oracle).0, host);
  }
}
