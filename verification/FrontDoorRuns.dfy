/** The front door's sync as one thread among the others: between any two of its calls to the
    CDN and the store, services are added and change their hosts, and the CDN goes on with its
    own work. */
module FrontDoorRuns {
  import opened StoreModel
  import opened Strings
  import opened FrontDoor

  /** What a sync in progress still has to do. */
  datatype Task = Task(desired: set<string>, hosts: seq<string>, managed: seq<string>, oracle: Oracle)

  /** Where the sync stands between two of its calls. A resting one remembers how it ended. */
  datatype Pc =
    | Resting(ok: bool)
    | Preparing(task: Task)
    | Recording(task: Task, prepared: Prepared)
    | Adding(task: Task)
    | Naming(task: Task, name: string)
    | Removing(task: Task)
    | Clearing(task: Task)

  datatype World = World(door: Door, pc: Pc)

  // ---- One call after the other ----

  predicate AtHost(pc: Pc) {
    && (pc.Recording? || pc.Adding? || pc.Naming? ==> pc.task.hosts != [])
    && (pc.Clearing? ==> pc.task.managed != [])
  }

  /** The checks on the routes and the list of tracked rows; no call has been made yet. */
  ghost function Started(s: Door, base: string, routes: seq<string>, oracle: Oracle): Pc {
    if AnyOutside(routes, base) then Resting(false)
    else Preparing(Task(Desired(routes), SortedKeys(Desired(routes)), SortedKeys(Managed(s)), oracle))
  }

  /** The next call of the sync. */
  function Turn(s: Door, base: string, pc: Pc): (Door, Pc)
    requires !pc.Resting? && AtHost(pc)
  {
    var t := pc.task;
    match pc
    case Preparing(_) =>
      if t.hosts == [] then (s, Removing(t))
      else (s, Recording(t, PrepareDomain(s.domains, t.hosts[0], t.oracle(t.hosts[0]))))
    case Recording(_, p) =>
      var host, a := t.hosts[0], t.oracle(t.hosts[0]);
      if p.record.Some? && a.saveRecordFails then (s, Resting(false))
      else
        (if p.record.Some? then Save(s, host, Status("", p.record)) else s,
         match p.outcome
         case Fine => Adding(t)
         case Unverified => Preparing(t.(hosts := t.hosts[1..]))
         case Broken => Resting(false))
    case Adding(_) =>
      var (ensured, name) := EnsureDomain(s, t.hosts[0], t.oracle(t.hosts[0]));
      (ensured,
       if name.Err? then Resting(false)
       else if name.value == "" then Preparing(t.(hosts := t.hosts[1..])) else Naming(t, name.value))
    case Naming(_, name) =>
      if t.oracle(t.hosts[0]).saveNameFails then (s, Resting(false))
      else (Save(s, t.hosts[0], Status(name, None)), Preparing(t.(hosts := t.hosts[1..])))
    case Removing(_) =>
      if t.managed == [] then (s, Resting(true))
      else if !Under(t.managed[0], base) then (s, Clearing(t))
      else if t.managed[0] in t.desired then (s, Removing(t.(managed := t.managed[1..])))
      else
        var (deleted, ok) := DeleteDomain(s, t.managed[0], t.oracle(t.managed[0]));
        (deleted, if ok then Clearing(t) else Resting(false))
    case Clearing(_) =>
      if t.oracle(t.managed[0]).clearFails then (s, Resting(false))
      else (Save(s, t.managed[0], UNTRACKED), Removing(t.(managed := t.managed[1..])))
  }

  function Stage(pc: Pc): nat {
    match pc
    case Resting(_) => 0
    case Clearing(_) => 1
    case Removing(_) => 2
    case Naming(_, _) => 3
    case Adding(_) => 4
    case Recording(_, _) => 5
    case Preparing(_) => 6
  }

  function Left(pc: Pc): nat {
    if pc.Resting? then 0 else |pc.task.hosts| + |pc.task.managed|
  }

  /** The sync left alone until it rests. */
  function Alone(s: Door, base: string, pc: Pc): (Door, bool)
    requires AtHost(pc)
    decreases Left(pc), Stage(pc)
  {
    if pc.Resting? then (s, pc.ok)
    else
      var (next, pc') := Turn(s, base, pc);
      Alone(next, base, pc')
  }

  lemma {:induction false} ReleasesAlone(s: Door, base: string, t: Task)
    ensures Alone(s, base, Removing(t)) == ReleaseHosts(s, base, t.desired, t.managed, t.oracle)
    decreases |t.managed|
  {
    if t.managed != [] {
      var (next, pc) := Turn(s, base, Removing(t));
      assert Alone(s, base, Removing(t)) == Alone(next, base, pc);
      if pc.Clearing? {
        var (cleared, pc') := Turn(next, base, pc);
        assert Alone(next, base, pc) == Alone(cleared, base, pc');
      }
      var (released, ok) := ReleaseHost(s, base, t.desired, t.managed[0], t.oracle(t.managed[0]));
      if ok {
        ReleasesAlone(released, base, t.(managed := t.managed[1..]));
      }
    }
  }

  lemma HostAlone(s: Door, base: string, t: Task)
    requires t.hosts != []
    ensures var (next, ok) := EnsureHost(s, t.hosts[0], t.oracle(t.hosts[0]));
            Alone(s, base, Preparing(t))
            == if ok then Alone(next, base, Preparing(t.(hosts := t.hosts[1..]))) else (next, false)
  {
    var p := PrepareDomain(s.domains, t.hosts[0], t.oracle(t.hosts[0]));
    var (recorded, pc) := Turn(s, base, Recording(t, p));
    assert Alone(s, base, Preparing(t)) == Alone(s, base, Recording(t, p)) == Alone(recorded, base, pc);
    if pc.Adding? {
      var (added, pc') := Turn(recorded, base, pc);
      assert Alone(recorded, base, pc) == Alone(added, base, pc');
      if pc'.Naming? {
        var (named, pc'') := Turn(added, base, pc');
        assert Alone(added, base, pc') == Alone(named, base, pc'');
      }
    }
  }

  lemma {:induction false} EnsuresAlone(s: Door, base: string, t: Task)
    ensures var (ensured, ok) := EnsureHosts(s, t.hosts, t.oracle);
            Alone(s, base, Preparing(t))
            == if ok then ReleaseHosts(ensured, base, t.desired, t.managed, t.oracle) else (ensured, false)
    decreases |t.hosts|
  {
    if t.hosts == [] {
      assert Alone(s, base, Preparing(t)) == Alone(s, base, Removing(t));
      ReleasesAlone(s, base, t);
    } else {
      HostAlone(s, base, t);
      var (next, ok) := EnsureHost(s, t.hosts[0], t.oracle(t.hosts[0]));
      if ok {
        EnsuresAlone(next, base, t.(hosts := t.hosts[1..]));
      }
    }
  }

  /** Left alone, call after call is `SyncRoutes`. */
  lemma AloneIsSync(s: Door, base: string, routes: seq<string>, oracle: Oracle)
    ensures Alone(s, base, Started(s, base, routes, oracle)) == Sync(s, base, routes, oracle)
  {
    if !AnyOutside(routes, base) {
      EnsuresAlone(s, base, Started(s, base, routes, oracle).task);
    }
  }

  // ---- What may happen in between ----

  /** A sync starts, with routes that may be older than the rows, or makes its next call; the
      CDN configures a domain or loses one; a service is added; an upsert changes a host. */
  datatype Event =
    | Start(routes: seq<string>, oracle: Oracle)
    | Call
    | Configured(host: string, name: string)
    | Vanished(host: string)
    | ServiceAdded(host: string)
    | HostChanged(host: string, newHost: string)

  ghost predicate Possible(w: World, event: Event) {
    match event
    case Start(_, oracle) => w.pc.Resting? && Proper(oracle)
    case Call => !w.pc.Resting? && AtHost(w.pc)
    case Configured(host, _) => host in w.door.domains
    case Vanished(_) => true
    case ServiceAdded(host) => host !in w.door.rows
    case HostChanged(host, newHost) => host in w.door.rows && newHost !in w.door.rows
  }

  /** The row takes its front-door columns along to the new host. */
  function Renamed(s: Door, host: string, newHost: string): Door
    requires host in s.rows
  {
    s.(rows := (s.rows - {host})[newHost := s.rows[host]])
  }

  ghost function After(w: World, base: string, event: Event): World
    requires Possible(w, event)
  {
    var s := w.door;
    match event
    case Start(routes, oracle) => w.(pc := Started(s, base, routes, oracle))
    case Call =>
      var (door, pc) := Turn(s, base, w.pc);
      World(door, pc)
    case Configured(host, name) => w.(door := s.(domains := s.domains[host := name]))
    case Vanished(host) => w.(door := s.(domains := s.domains - {host}))
    case ServiceAdded(host) => w.(door := s.(rows := s.rows[host := UNTRACKED]))
    case HostChanged(host, newHost) => w.(door := Renamed(s, host, newHost))
  }

  ghost predicate Happens(w: World, base: string, events: seq<Event>)
    decreases |events|
  {
    events == [] || (Possible(w, events[0]) && Happens(After(w, base, events[0]), base, events[1..]))
  }

  ghost function AfterAll(w: World, base: string, events: seq<Event>): World
    requires Happens(w, base, events)
    decreases |events|
  {
    if events == [] then w else AfterAll(After(w, base, events[0]), base, events[1..])
  }

  // ---- Exactly when nothing is orphaned ----

  ghost predicate TaskInOrder(t: Task, base: string) {
    Proper(t.oracle) && forall host | host in t.hosts :: Under(host, base) && host != ""
  }

  /** A row is cleared only for a domain that is gone or that the plane did not make. */
  ghost predicate InOrder(w: World, base: string) {
    && MadeUnder(w.door, base)
    && AtHost(w.pc)
    && (!w.pc.Resting? ==> TaskInOrder(w.pc.task, base))
    && (w.pc.Recording? && w.pc.prepared.record.Some? ==> w.pc.prepared.record.value.subdomain != "")
    && (w.pc.Naming? ==> w.pc.name != "")
    && (w.pc.Clearing? ==> !(w.pc.task.managed[0] in w.door.created && w.pc.task.managed[0] in w.door.domains))
  }

  predicate AddsNow(s: Door, host: string, a: Answers) {
    host !in s.domains && !a.ensureLookupFails && (a.add == Fine || a.addTakesEffect)
  }

  /** A service changes its host only while the plane has no domain for the old one, and the
      sync adds a missing domain only for a host that a row tracks at that moment. */
  predicate KeepsTrack(w: World, event: Event)
    requires AtHost(w.pc)
  {
    && (event.HostChanged? ==> !(event.host in w.door.created && event.host in w.door.domains))
    && (event.Call? && w.pc.Adding? && AddsNow(w.door, w.pc.task.hosts[0], w.pc.task.oracle(w.pc.task.hosts[0])) ==>
          Tracked(w.door, w.pc.task.hosts[0]))
  }

  lemma StartInOrder(w: World, base: string, routes: seq<string>, oracle: Oracle)
    requires InOrder(w, base) && Possible(w, Start(routes, oracle))
    ensures InOrder(After(w, base, Start(routes, oracle)), base)
  {
    ElementsOf(SortedKeys(Desired(routes)));
  }

  lemma RestOfHosts(t: Task, base: string)
    requires TaskInOrder(t, base) && t.hosts != []
    ensures TaskInOrder(t.(hosts := t.hosts[1..]), base)
  {}

  lemma CallInOrder(w: World, base: string)
    requires InOrder(w, base) && !w.pc.Resting?
    ensures InOrder(After(w, base, Call), base)
  {
    var t := w.pc.task;
    if t.hosts != [] {
      RestOfHosts(t, base);
      assert t.hosts[0] in t.hosts;
    }
  }

  lemma EventInOrder(w: World, base: string, event: Event)
    requires InOrder(w, base) && Possible(w, event)
    ensures InOrder(After(w, base, event), base)
  {
    match event {
      case Start(routes, oracle) => StartInOrder(w, base, routes, oracle);
      case Call => CallInOrder(w, base);
      case _ =>
    }
  }

  lemma CallKeepsTrackIff(w: World, base: string)
    requires InOrder(w, base) && NoOrphan(w.door) && !w.pc.Resting?
    ensures NoOrphan(After(w, base, Call).door) <==> KeepsTrack(w, Call)
  {
    var s, after := w.door, After(w, base, Call).door;
    if KeepsTrack(w, Call) {
      forall h | h in after.created ensures !Orphan(after, h) {
        assert h in s.created ==> !Orphan(s, h);
      }
    } else {
      assert Orphan(after, w.pc.task.hosts[0]);
    }
  }

  lemma RenameKeepsTrackIff(s: Door, host: string, newHost: string)
    requires NoOrphan(s) && host in s.rows && newHost !in s.rows
    ensures NoOrphan(Renamed(s, host, newHost)) <==> !(host in s.created && host in s.domains)
  {
    var after := Renamed(s, host, newHost);
    if host in s.created && host in s.domains {
      assert Orphan(after, host);
    } else {
      forall h | h in after.created ensures !Orphan(after, h) {
        assert !Orphan(s, h);
      }
    }
  }

  lemma OtherEventKeepsTrack(w: World, base: string, event: Event)
    requires NoOrphan(w.door) && Possible(w, event) && !event.Call? && !event.HostChanged?
    ensures NoOrphan(After(w, base, event).door)
  {
    var after := After(w, base, event).door;
    forall h | h in after.created ensures !Orphan(after, h) {
      assert !Orphan(w.door, h);
    }
  }

  lemma EventKeepsTrackIff(w: World, base: string, event: Event)
    requires InOrder(w, base) && NoOrphan(w.door) && Possible(w, event)
    ensures NoOrphan(After(w, base, event).door) <==> KeepsTrack(w, event)
  {
    match event {
      case Call => CallKeepsTrackIff(w, base);
      case HostChanged(host, newHost) => RenameKeepsTrackIff(w.door, host, newHost);
      case _ => OtherEventKeepsTrack(w, base, event);
    }
  }

  ghost predicate NoOrphanThroughout(w: World, base: string, events: seq<Event>)
    requires Happens(w, base, events)
    decreases |events|
  {
    NoOrphan(w.door) && (events == [] || NoOrphanThroughout(After(w, base, events[0]), base, events[1..]))
  }

  ghost predicate TrackKept(w: World, base: string, events: seq<Event>)
    requires InOrder(w, base) && Happens(w, base, events)
    decreases |events|
  {
    events == [] || (
      EventInOrder(w, base, events[0]);
      KeepsTrack(w, events[0]) && TrackKept(After(w, base, events[0]), base, events[1..]))
  }

  /** However the calls of syncs, each of which may fail, interleave with new services, changed
      hosts and the CDN: at no time does a domain the plane made exist untracked — exactly when
      no host changes while the plane has its domain, and no domain is added for a host that no
      row tracks at that moment. */
  lemma {:induction false} NeverOrphanedIff(w: World, base: string, events: seq<Event>)
    requires InOrder(w, base) && NoOrphan(w.door) && Happens(w, base, events)
    ensures NoOrphanThroughout(w, base, events) <==> TrackKept(w, base, events)
    decreases |events|
  {
    if events != [] {
      var after := After(w, base, events[0]);
      EventInOrder(w, base, events[0]);
      EventKeepsTrackIff(w, base, events[0]);
      if NoOrphan(after.door) {
        NeverOrphanedIff(after, base, events[1..]);
      }
    }
  }

  // ---- Routes with rows, hosts that stay ----

  /** No host changes, no domain vanishes, and the routes of a starting sync have rows. */
  predicate Steady(w: World, event: Event) {
    && !event.HostChanged? && !event.Vanished?
    && (event.Start? ==> forall host | host in event.routes && host != "" :: host in w.door.rows)
  }

  ghost predicate SteadyThroughout(w: World, base: string, events: seq<Event>)
    requires Happens(w, base, events)
    decreases |events|
  {
    events == [] || (Steady(w, events[0]) && SteadyThroughout(After(w, base, events[0]), base, events[1..]))
  }

  /** The hosts still to do have rows, and the one being added is tracked or has a domain. */
  ghost predicate HasRows(w: World)
    requires AtHost(w.pc)
  {
    !w.pc.Resting? ==>
      && (forall host | host in w.pc.task.hosts :: host in w.door.rows)
      && (w.pc.Adding? ==> Tracked(w.door, w.pc.task.hosts[0]) || w.pc.task.hosts[0] in w.door.domains)
      && (w.pc.Recording? ==> w.pc.prepared.record.Some? || w.pc.prepared.outcome == Broken
                              || w.pc.task.hosts[0] in w.door.domains)
  }

  lemma SteadyKeepsTrack(w: World, base: string, event: Event)
    requires InOrder(w, base) && HasRows(w) && Possible(w, event) && Steady(w, event)
    ensures KeepsTrack(w, event)
  {}

  lemma SteadyStartHasRows(w: World, base: string, routes: seq<string>, oracle: Oracle)
    requires InOrder(w, base) && Possible(w, Start(routes, oracle)) && Steady(w, Start(routes, oracle))
    ensures HasRows(After(w, base, Start(routes, oracle)))
  {
    ElementsOf(SortedKeys(Desired(routes)));
  }

  lemma CallHasRows(w: World, base: string)
    requires InOrder(w, base) && HasRows(w) && !w.pc.Resting?
    ensures HasRows(After(w, base, Call))
  {
    var t := w.pc.task;
    if t.hosts != [] {
      assert t.hosts[0] in t.hosts;
      assert forall host | host in t.hosts[1..] :: host in t.hosts;
      assert t.oracle(t.hosts[0]).Proper();
    }
  }

  lemma SteadyHasRows(w: World, base: string, event: Event)
    requires InOrder(w, base) && HasRows(w) && Possible(w, event) && Steady(w, event)
    ensures HasRows(After(w, base, event))
  {
    match event {
      case Start(routes, oracle) => SteadyStartHasRows(w, base, routes, oracle);
      case Call => CallHasRows(w, base);
      case _ =>
    }
  }

  lemma {:induction false} SteadyIsTracked(w: World, base: string, events: seq<Event>)
    requires InOrder(w, base) && HasRows(w) && Happens(w, base, events) && SteadyThroughout(w, base, events)
    ensures TrackKept(w, base, events)
    decreases |events|
  {
    if events != [] {
      EventInOrder(w, base, events[0]);
      SteadyKeepsTrack(w, base, events[0]);
      SteadyHasRows(w, base, events[0]);
      SteadyIsTracked(After(w, base, events[0]), base, events[1..]);
    }
  }

  /** In particular: from a plane at rest, any sequence of syncs whose routes have rows, failing
      wherever they may, orphans nothing as long as hosts stay. */
  lemma SteadySyncsNeverOrphan(s: Door, base: string, events: seq<Event>)
    requires NoOrphan(s) && MadeUnder(s, base) && Happens(World(s, Resting(true)), base, events)
    requires SteadyThroughout(World(s, Resting(true)), base, events)
    ensures NoOrphanThroughout(World(s, Resting(true)), base, events)
  {
    SteadyIsTracked(World(s, Resting(true)), base, events);
    NeverOrphanedIff(World(s, Resting(true)), base, events);
  }

  // ---- Changes of a host that orphan a domain ----

  const BASE := "apps"
  const OLD_HOST := "a.apps"
  const NEW_HOST := "b.apps"
  const WILLING := Answers(false, false, Record("_verify.apps", "TXT", "token"), Fine, false, Fine, true, Fine, Fine,
                           true, false, false, false)
  const ORACLE: Oracle := host => WILLING
  const VERIFIED := Status("", Some(WILLING.record))
  const TASK := Task({OLD_HOST}, [OLD_HOST], [], ORACLE)
  const PREPARED := Prepared(Some(WILLING.record), Fine)

  ghost predicate Leads(w: World, events: seq<Event>, u: World) {
    Happens(w, BASE, events) && AfterAll(w, BASE, events) == u
  }

  lemma {:induction false} OneMoreEvent(w: World, events: seq<Event>, u: World, event: Event, v: World)
    requires Leads(w, events, u) && Possible(u, event) && After(u, BASE, event) == v
    ensures Leads(w, events + [event], v)
    decreases |events|
  {
    var all := events + [event];
    if events == [] {
      assert all[1..] == [];
    } else {
      assert all[1..] == events[1..] + [event];
      OneMoreEvent(After(w, BASE, events[0]), events[1..], u, event, v);
    }
  }

  /** A sync of the old host starts over whatever rows it finds, none of them tracked. */
  lemma OldHostStarts(s: Door)
    requires Managed(s) == {}
    ensures Started(s, BASE, [OLD_HOST], ORACLE) == Preparing(TASK)
  {
    assert EndsWith(OLD_HOST, "." + BASE) && Under(OLD_HOST, BASE);
    assert Desired([OLD_HOST]) == {OLD_HOST} && Elements([OLD_HOST]) == {OLD_HOST};
    SortedIsUnique(SortedKeys({OLD_HOST}), [OLD_HOST]);
    NoElements(SortedKeys({}));
  }

  const NOTHING_YET := World(Door(map[], map[], {}), Resting(true))
  const ADDED := World(Door(map[OLD_HOST := UNTRACKED], map[], {}), Resting(true))
  const RECORDED := World(Door(map[OLD_HOST := VERIFIED], map[], {}), Adding(TASK))
  const MADE := World(Door(map[OLD_HOST := VERIFIED], map[OLD_HOST := ""], {OLD_HOST}), Preparing(TASK.(hosts := [])))

  /** The sync is about to add the domain, with the verification record saved. */
  lemma RecordedIsReached() returns (events: seq<Event>)
    ensures Leads(NOTHING_YET, events, RECORDED)
  {
    events := [];
    OneMoreEvent(NOTHING_YET, events, NOTHING_YET, ServiceAdded(OLD_HOST), ADDED);
    events := events + [ServiceAdded(OLD_HOST)];
    assert Managed(ADDED.door) == {};
    OldHostStarts(ADDED.door);
    var started := ADDED.(pc := Preparing(TASK));
    OneMoreEvent(NOTHING_YET, events, ADDED, Start([OLD_HOST], ORACLE), started);
    events := events + [Start([OLD_HOST], ORACLE)];
    var prepared := ADDED.(pc := Recording(TASK, PREPARED));
    OneMoreEvent(NOTHING_YET, events, started, Call, prepared);
    events := events + [Call];
    assert After(prepared, BASE, Call).door.rows == RECORDED.door.rows;
    OneMoreEvent(NOTHING_YET, events, prepared, Call, RECORDED);
    events := events + [Call];
  }

  /** A service is added and synced, and its domain made; then the service changes its host. */
  lemma RenameOrphans() returns (events: seq<Event>)
    ensures Leads(NOTHING_YET, events, MADE) && NoOrphan(MADE.door)
    ensures Possible(MADE, HostChanged(OLD_HOST, NEW_HOST)) && !KeepsTrack(MADE, HostChanged(OLD_HOST, NEW_HOST))
    ensures Orphan(After(MADE, BASE, HostChanged(OLD_HOST, NEW_HOST)).door, OLD_HOST)
  {
    events := RecordedIsReached();
    var next := After(RECORDED, BASE, Call);
    assert next.door.domains == MADE.door.domains && next.door.created == MADE.door.created;
    assert [OLD_HOST][1..] == [];
    OneMoreEvent(NOTHING_YET, events, RECORDED, Call, MADE);
    events := events + [Call];
    assert OLD_HOST[0] == 'a' && NEW_HOST[0] == 'b';
    assert Tracked(MADE.door, OLD_HOST);
  }

  /** The service changes its host after the record was saved and before the domain is added. */
  lemma RenameDuringSyncOrphans() returns (events: seq<Event>)
    ensures Leads(NOTHING_YET, events, RECORDED)
    ensures Possible(RECORDED, HostChanged(OLD_HOST, NEW_HOST)) && KeepsTrack(RECORDED, HostChanged(OLD_HOST, NEW_HOST))
    ensures var moved := After(RECORDED, BASE, HostChanged(OLD_HOST, NEW_HOST));
            Possible(moved, Call) && NoOrphan(moved.door) && Orphan(After(moved, BASE, Call).door, OLD_HOST)
  {
    events := RecordedIsReached();
    assert OLD_HOST[0] == 'a' && NEW_HOST[0] == 'b';
  }

  const MOVED := World(Door(map[NEW_HOST := UNTRACKED], map[], {}), Resting(true))
  const STALE := MOVED.(pc := Adding(TASK))

  /** The routes were built before the service changed its host: nothing is orphaned up to the
      call that adds the old domain, for which no row is left. */
  lemma StaleRoutesOrphan() returns (events: seq<Event>)
    ensures Leads(NOTHING_YET, events, STALE) && NoOrphan(STALE.door)
    ensures Possible(STALE, Call) && !KeepsTrack(STALE, Call)
    ensures Orphan(After(STALE, BASE, Call).door, OLD_HOST)
  {
    assert OLD_HOST[0] == 'a' && NEW_HOST[0] == 'b';
    events := [];
    OneMoreEvent(NOTHING_YET, events, NOTHING_YET, ServiceAdded(OLD_HOST), ADDED);
    events := events + [ServiceAdded(OLD_HOST)];
    assert Renamed(ADDED.door, OLD_HOST, NEW_HOST).rows == MOVED.door.rows;
    OneMoreEvent(NOTHING_YET, events, ADDED, HostChanged(OLD_HOST, NEW_HOST), MOVED);
    events := events + [HostChanged(OLD_HOST, NEW_HOST)];
    assert Managed(MOVED.door) == {};
    OldHostStarts(MOVED.door);
    var started := MOVED.(pc := Preparing(TASK));
    OneMoreEvent(NOTHING_YET, events, MOVED, Start([OLD_HOST], ORACLE), started);
    events := events + [Start([OLD_HOST], ORACLE)];
    var prepared := MOVED.(pc := Recording(TASK, PREPARED));
    OneMoreEvent(NOTHING_YET, events, started, Call, prepared);
    events := events + [Call];
    OneMoreEvent(NOTHING_YET, events, prepared, Call, STALE);
    events := events + [Call];
  }
}
