/** What the control plane may ask of the store, when it is refused, and what becomes of the run
    of a service that is updated or deleted. */
module Requests {
  import opened StoreModel
  import opened StoreSpec
  import opened Generations

  /** The classes are one, two and three times the smallest; there are no others. */
  lemma ClassesAreMultiples(class': string)
    ensures ResourceRequest("small") == ResourceRequest("") == Some(Resources(500, 512))
    ensures ResourceRequest("medium") == Some(Resources(500, 512).Plus(Resources(500, 512)))
    ensures ResourceRequest("large") == Some(Resources(500, 512).Plus(Resources(500, 512)).Plus(Resources(500, 512)))
    ensures ResourceRequest(class').Some? <==> class' in {"", "small", "medium", "large"}
  {}

  /** An upsert is turned away as invalid exactly for a blank, a generation that is not positive,
      an unknown class or a port that is none. */
  lemma UpsertInvalidIff(s: State, input: UpsertInput, runId: RunId, now: Time)
    ensures
      var (after, r) := UpsertService(s, input, runId, now);
      && (r == Err(Invalid) <==>
            || !input.textOk || input.id == "" || input.generation <= 0
            || input.spec.instanceClass !in {"", "small", "medium", "large"}
            || !(1 <= input.spec.workload.containerPort <= 65535))
      && (r == Err(Invalid) ==> after == s)
  {
    ClassesAreMultiples(input.spec.instanceClass);
  }

  /** One below the service's generation, or at the generation at which it was deleted, is
      answered with the row as it is, and changes nothing. */
  lemma StaleUpsertAnswered(s: State, input: UpsertInput, runId: RunId, now: Time)
    requires input.Valid() && input.id in s.services
    requires || input.generation < s.services[input.id].generation
             || (input.generation == s.services[input.id].generation
                 && s.services[input.id].desired == DesiredDeleted)
    ensures UpsertService(s, input, runId, now) == (s, Ok(s.services[input.id]))
  {}

  /** Any other is refused exactly for a name or host that another service has, or for a run
      identifier that is taken, and answered with the row it wrote. */
  lemma UpsertAcceptedIff(s: State, input: UpsertInput, runId: RunId, now: Time)
    requires input.Valid()
    requires input.id in s.services ==>
               || s.services[input.id].generation < input.generation
               || (s.services[input.id].generation == input.generation
                   && s.services[input.id].desired == DesiredActive)
    ensures
      var (after, r) := UpsertService(s, input, runId, now);
      && (r.Ok? <==>
            && (forall j | j in s.services && j != input.id ::
                  s.services[j].name != input.name && s.services[j].host != input.host)
            && (input.id in s.runs || forall j | j in s.runs :: s.runs[j].id != runId))
      && (r.Err? ==> after == s)
      && (r.Ok? ==> input.id in after.services && r.value == after.services[input.id])
  {}

  /** An update of a run that does not run takes it off its node: it waits for any node, without
      a container. One that runs stays with its node, and with its container if it has one. */
  lemma UpdatedRunWaits(s: State, input: UpsertInput, runId: RunId, now: Time)
    requires UpsertService(s, input, runId, now).1.Ok? && Agreement(s)
    requires input.id in s.runs && s.runs[input.id].generation < input.generation
    ensures
      var after, i := UpsertService(s, input, runId, now).0, input.id;
      && i in after.runs
      && var run, next := s.runs[i], after.runs[i];
         && next.status == Pending && next.updatedAt == now
         && next.node == (if run.status == Running then run.node else None)
         && (if run.status == Running && run.node.Some? && run.containerId != "" then
               next.containerName == run.containerName && next.containerId == run.containerId
               && next.hostPort == run.hostPort
             else next.containerName == next.containerId == "" && next.hostPort == 0)
  {}

  /** A delete of a known service is accepted. Only a run with a container that runs waits for its
      node to delete it; any other goes at once. */
  lemma DeletedRunWaitsIff(s: State, i: ServiceId, generation: int, textOk: bool, now: Time)
    ensures
      var (after, r) := DeleteService(s, i, generation, textOk, now);
      && (r.Ok? <==> textOk && generation > 0 && i in s.services)
      && (r == Err(ServiceNotFound) <==> textOk && generation > 0 && i !in s.services)
      && (r.Err? ==> after == s)
      && (r.Ok? ==>
            && i in after.services && after.services[i].desired == DesiredDeleted
            && after.services[i].generation == (if generation < s.services[i].generation
                                                then s.services[i].generation else generation)
            && after.services[i].name == s.services[i].name && after.services[i].host == s.services[i].host
            && (i in after.runs <==> i in s.runs && s.runs[i].status == Running && s.runs[i].node.Some?
                                     && s.runs[i].containerId != "")
            && (i in after.runs ==>
                  after.runs[i] == s.runs[i].(generation := after.services[i].generation, status := Pending,
                                              updatedAt := now))
            && (forall j | j != i :: (j in after.services <==> j in s.services)
                                     && (j in s.services ==> after.services[j] == s.services[j])
                                     && (j in after.runs <==> j in s.runs)
                                     && (j in s.runs ==> after.runs[j] == s.runs[j])))
  {}

  /** A failure mark reaches pending and deploying runs only, and changes nothing else. */
  lemma MarkedFailedIff(s: State, i: ServiceId, now: Time, j: ServiceId)
    requires j in s.runs
    ensures
      var (after, r) := MarkServiceRunFailed(s, i, now);
      && (r == Err(Invalid) <==> i == "") && (r.Ok? <==> i != "")
      && after.nodes == s.nodes && after.services == s.services && after.runs.Keys == s.runs.Keys
      && after.runs[j] == if j == i && i != "" && (s.runs[j].status == Pending || s.runs[j].status == Deploying)
                          then s.runs[j].(status := Failed, updatedAt := now) else s.runs[j]
  {}
}
