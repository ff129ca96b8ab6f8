/** The rows of the cloud-plane database and the arithmetic the store does on them.

    Identifiers of services are strings; run and node identifiers are numbers, so that the
    `ORDER BY created_at, id` of the claim queries is a plain lexicographic order. Times are
    numbers handed to each operation by its caller. */
module StoreModel {

  type ServiceId = string
  type RunId = nat
  type NodeId = nat
  type Time = nat

  datatype Option<+T> = None | Some(value: T)

  datatype Error =
    | Invalid
    | ServiceNotFound
    | NodeNotFound
    | ExecutionNotFound
    | AllocatableTooLarge
    | UniqueViolation
    | CheckViolation
    | AlreadyReported(current: RunStatus)

  datatype Result<+T> = Ok(value: T) | Err(error: Error)

  /** CPU (milli) and memory (Mi). The columns carry `CHECK (… >= 0)`. */
  datatype Resources = Resources(cpu: nat, mem: nat) {
    function Plus(o: Resources): Resources {
      Resources(cpu + o.cpu, mem + o.mem)
    }

    /** `GREATEST(allocated - request, 0)`, column by column. */
    function Less(o: Resources): Resources {
      Resources(if cpu >= o.cpu then cpu - o.cpu else 0, if mem >= o.mem then mem - o.mem else 0)
    }

    predicate Within(o: Resources) {
      cpu <= o.cpu && mem <= o.mem
    }
  }

  const NOTHING: Resources := Resources(0, 0)

  datatype RunStatus = Pending | Deploying | Running | Succeeded | Failed

  datatype NodeStatus = Provisioning | Registering | Ready | Draining | Offline | Deleted

  datatype DesiredState = DesiredActive | DesiredDeleted

  datatype Exposure = Public | Private

  datatype Workload = Workload(
    image: string, command: seq<string>, args: seq<string>, env: map<string, string>,
    containerPort: int, readinessPath: string)

  datatype ServiceSpec = ServiceSpec(instanceClass: string, exposure: Exposure, workload: Workload)

  datatype ServiceRow = ServiceRow(
    name: string, displayName: string, host: string, generation: int, desired: DesiredState,
    spec: ServiceSpec, createdAt: Time, updatedAt: Time)

  /** `service_id` is unique in `service_runs`: a table of runs is a map from service to run. */
  datatype RunRow = RunRow(
    id: RunId, serviceName: string, generation: int, exposure: Exposure, workload: Workload,
    request: Resources, node: Option<NodeId>, containerName: string, containerId: string,
    hostPort: int, status: RunStatus, createdAt: Time, updatedAt: Time)

  datatype NodeRow = NodeRow(
    provider: string, region: string, name: string, privateIp: string,
    instanceId: Option<string>, instanceType: string,
    total: Resources, allocatable: Resources, allocation: Resources,
    status: NodeStatus, schedulable: bool, elastic: bool,
    lastHeartbeat: Option<Time>, createdAt: Time, updatedAt: Time)

  /** The three tables. */
  datatype State = State(
    services: map<ServiceId, ServiceRow>,
    runs: map<ServiceId, RunRow>,
    nodes: map<NodeId, NodeRow>)

  const EMPTY := State(map[], map[], map[])

  function ResourceRequest(instanceClass: string): Option<Resources> {
    if instanceClass == "" || instanceClass == "small" then Some(Resources(500, 512))
    else if instanceClass == "medium" then Some(Resources(1000, 1024))
    else if instanceClass == "large" then Some(Resources(1500, 1536))
    else None
  }

  ghost predicate RunIdsDiffer(runs: map<ServiceId, RunRow>) {
    forall i, j | i in runs && j in runs && i != j :: runs[i].id != runs[j].id
  }

  ghost predicate RunsReferToRows(s: State) {
    && s.runs.Keys <= s.services.Keys
    && forall i | i in s.runs && s.runs[i].node.Some? :: s.runs[i].node.value in s.nodes
  }

  ghost predicate NamesAndHostsDiffer(services: map<ServiceId, ServiceRow>) {
    forall i, j | i in services && j in services && i != j ::
      services[i].name != services[j].name && services[i].host != services[j].host
  }

  ghost predicate InstancesDiffer(nodes: map<NodeId, NodeRow>) {
    forall m, n | m in nodes && n in nodes && m != n && nodes[m].instanceId.Some? ::
      nodes[m].provider != nodes[n].provider || nodes[m].instanceId != nodes[n].instanceId
  }

  /** Primary keys, unique constraints and foreign keys of the schema. */
  ghost predicate Tables(s: State) {
    && RunIdsDiffer(s.runs)
    && RunsReferToRows(s)
    && NamesAndHostsDiffer(s.services)
    && InstancesDiffer(s.nodes)
  }

  // ---- Sums over a table ----

  ghost function AnyKey(m: map<ServiceId, Resources>): (k: ServiceId)
    requires m != map[]
    ensures k in m
  {
    var k :| k in m; k
  }

  ghost function Sum(m: map<ServiceId, Resources>): Resources {
    if m == map[] then NOTHING else
      var k := AnyKey(m);
      var rest := Sum(m - {k});
      Resources(m[k].cpu + rest.cpu, m[k].mem + rest.mem)
  }

  predicate Adds(total: Resources, a: Resources, b: Resources) {
    total.cpu == a.cpu + b.cpu && total.mem == a.mem + b.mem
  }

  /** Two clamped subtractions are one. */
  lemma LessTwice(a: Resources, first: Resources, second: Resources, both: Resources)
    requires Adds(both, second, first)
    ensures a.Less(first).Less(second) == a.Less(both)
  {}

  /** The sum does not depend on the order in which keys are taken out. */
  lemma {:induction false} SumRemove(m: map<ServiceId, Resources>, k: ServiceId)
    requires k in m
    ensures Adds(Sum(m), m[k], Sum(m - {k}))
    decreases |m|
  {
    var first := AnyKey(m);
    if first != k {
      SumRemove(m - {first}, k);
      SumRemove(m - {k}, first);
      assert m - {first} - {k} == m - {k} - {first};
    }
  }

  lemma SumInsert(m: map<ServiceId, Resources>, k: ServiceId, r: Resources)
    requires k !in m
    ensures Adds(Sum(m[k := r]), r, Sum(m))
  {
    SumRemove(m[k := r], k);
    assert m[k := r] - {k} == m;
  }

  ghost function Inside(m: map<ServiceId, Resources>, part: set<ServiceId>): map<ServiceId, Resources> {
    m - (m.Keys - part)
  }

  ghost function Outside(m: map<ServiceId, Resources>, part: set<ServiceId>): map<ServiceId, Resources> {
    m - part
  }

  lemma {:induction false} SumSplit(m: map<ServiceId, Resources>, part: set<ServiceId>)
    ensures Adds(Sum(m), Sum(Outside(m, part)), Sum(Inside(m, part)))
    decreases |m|
  {
    if m == map[] {
      assert Outside(m, part) == m && Inside(m, part) == m;
    } else {
      var k := AnyKey(m);
      var rest := m - {k};
      SumSplit(rest, part);
      if k in part {
        assert Outside(m, part) == Outside(rest, part);
        assert Inside(m, part) - {k} == Inside(rest, part);
        SumRemove(Inside(m, part), k);
      } else {
        assert Inside(m, part) == Inside(rest, part);
        assert Outside(m, part) - {k} == Outside(rest, part);
        SumRemove(Outside(m, part), k);
      }
    }
  }

  lemma SumOfParts(m: map<ServiceId, Resources>, part: set<ServiceId>,
                   inside: map<ServiceId, Resources>, outside: map<ServiceId, Resources>)
    requires Inside(m, part) == inside && Outside(m, part) == outside
    ensures Adds(Sum(m), Sum(outside), Sum(inside))
  {
    SumSplit(m, part);
  }

  lemma {:induction false} SumOfZero(m: map<ServiceId, Resources>)
    requires forall k | k in m :: m[k] == NOTHING
    ensures Sum(m) == NOTHING
    decreases |m|
  {
    if m != map[] {
      SumOfZero(m - {AnyKey(m)});
    }
  }
}
