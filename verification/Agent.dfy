/** The node agent: the heartbeat loop and the work loop run concurrently and share the node
    identifier and the identifier of the node whose runtime was reset. A step below is what a
    loop does between two points where the other loop may run: one critical section, or one
    call to the cloud plane or the container runtime. */
module Agent {
  import opened StoreModel

  datatype Thread = Heartbeat | Work {
    function Other(): Thread {
      if this == Heartbeat then Work else Heartbeat
    }
  }

  /** Where a loop stands. `Registering` holds the registration lock; `Resetting` and
      `ResetReturned` hold the reset lock. A number is the epoch in which the runtime was
      found reset. */
  datatype Pc =
    | Idle
    | Registering
    | HasNode(node: string)
    | Resetting(node: string)
    | ResetReturned(node: string)
    | Prepared(node: string, epoch: nat)
    | Acting(node: string, epoch: nat)
    | Clearing(node: string)

  /** What happened. Work bears the number of the epoch in which its loop found the runtime reset. */
  datatype Event = Registered(node: string) | Reset(node: string) | Worked(node: string, epoch: nat) | Cleared

  /** `epoch` counts the changes of `nodeID`. */
  datatype Agent = Agent(nodeID: string, resetNode: string, heartbeat: Pc, work: Pc, epoch: nat, history: seq<Event>)
  {
    function Of(t: Thread): Pc {
      if t == Heartbeat then heartbeat else work
    }

    function At(t: Thread, pc: Pc): Agent {
      if t == Heartbeat then this.(heartbeat := pc) else this.(work := pc)
    }

    function Log(event: Event): Agent {
      this.(history := history + [event])
    }

    predicate RegisterFree() {
      !heartbeat.Registering? && !work.Registering?
    }

    predicate ResetFree() {
      && !heartbeat.Resetting? && !heartbeat.ResetReturned?
      && !work.Resetting? && !work.ResetReturned?
    }
  }

  datatype Step =
    | Ensure(t: Thread)
    | RegisterReturns(t: Thread, id: Option<string>)
    | CheckReset(t: Thread)
    | ResetReturns(t: Thread, ok: bool)
    | MarkReset(t: Thread)
    | Act(t: Thread)
    | ActReturns(t: Thread, unknownNode: bool)
    | Clear(t: Thread)

  /** A lock must be free to be taken; the cloud plane never answers an empty identifier. */
  predicate Can(s: Agent, step: Step) {
    match step
    case Ensure(t) => s.Of(t).Idle? && s.RegisterFree()
    case RegisterReturns(t, id) => s.Of(t).Registering? && id != Some("")
    case CheckReset(t) => s.Of(t).HasNode? && s.ResetFree()
    case ResetReturns(t, _) => s.Of(t).Resetting?
    case MarkReset(t) => s.Of(t).ResetReturned?
    case Act(t) => s.Of(t).Prepared?
    case ActReturns(t, _) => s.Of(t).Acting?
    case Clear(t) => s.Of(t).Clearing?
  }

  function Next(s: Agent, step: Step): Agent
    requires Can(s, step)
  {
    match step
    case Ensure(t) => s.At(t, if s.nodeID != "" then HasNode(s.nodeID) else Pc.Registering)
    case RegisterReturns(t, id) =>
      if id == None then s.At(t, Idle)
      else s.(nodeID := id.value, resetNode := "", epoch := s.epoch + 1)
           .Log(Registered(id.value)).At(t, HasNode(id.value))
    case CheckReset(t) =>
      var n := s.Of(t).node;
      s.At(t, if s.resetNode == n then Prepared(n, s.epoch) else Resetting(n))
    case ResetReturns(t, ok) =>
      var n := s.Of(t).node;
      if ok then s.Log(Reset(n)).At(t, ResetReturned(n)) else s.At(t, Idle)
    case MarkReset(t) =>
      var n := s.Of(t).node;
      s.(resetNode := if s.nodeID == n then n else s.resetNode).At(t, Prepared(n, s.epoch))
    case Act(t) =>
      var pc := s.Of(t);
      (if t == Work then s.Log(Worked(pc.node, pc.epoch)) else s).At(t, Acting(pc.node, pc.epoch))
    case ActReturns(t, unknownNode) => s.At(t, if unknownNode then Clearing(s.Of(t).node) else Idle)
    case Clear(t) =>
      s.(nodeID := "", resetNode := "", epoch := s.epoch + 1).Log(Cleared).At(t, Idle)
  }

  /** Before the loops start the agent registers and resets once, if it can. */
  function Booted(id: Option<string>, resetOk: bool): Agent {
    if id == None then Agent("", "", Idle, Idle, 0, [])
    else if !resetOk then Agent(id.value, "", Idle, Idle, 0, [Registered(id.value)])
    else Agent(id.value, id.value, Idle, Idle, 0, [Registered(id.value), Reset(id.value)])
  }

  // ---- What the history says ----

  /** Successful resets of the registered node since it was registered. */
  function EpochResets(history: seq<Event>): nat {
    if history == [] then 0
    else
      var before, event := history[..|history| - 1], history[|history| - 1];
      match event
      case Registered(_) => 0
      case Cleared => 0
      case Reset(n) => EpochResets(before) + (if CurrentNode(before) == n then 1 else 0)
      case Worked(_, _) => EpochResets(before)
  }

  function CurrentNode(history: seq<Event>): string {
    if history == [] then ""
    else
      match history[|history| - 1]
      case Registered(n) => n
      case Cleared => ""
      case _ => CurrentNode(history[..|history| - 1])
  }

  /** Work for a node comes after a successful reset of that node. */
  ghost predicate WorkAfterReset(history: seq<Event>) {
    forall i | 0 <= i < |history| && history[i].Worked? :: Reset(history[i].node) in history[..i]
  }

  // ---- The invariant ----

  ghost predicate LocksExclude(s: Agent) {
    && !(s.heartbeat.Registering? && s.work.Registering?)
    && !((s.heartbeat.Resetting? || s.heartbeat.ResetReturned?) && (s.work.Resetting? || s.work.ResetReturned?))
  }

  ghost predicate ThreadInOrder(s: Agent, pc: Pc) {
    match pc
    case Resetting(n) => n != "" && s.resetNode != n
    case ResetReturned(n) => n != "" && Reset(n) in s.history
    case HasNode(n) => n != ""
    case Prepared(n, e) => Reset(n) in s.history && e <= s.epoch && (e == s.epoch && n == s.nodeID ==> s.resetNode == n)
    case Acting(n, e) => Reset(n) in s.history && e <= s.epoch && (e == s.epoch && n == s.nodeID ==> s.resetNode == n)
    case _ => true
  }

  /** One reset of the current node is remembered, or about to be. */
  ghost predicate ResetRemembered(s: Agent) {
    || s.resetNode == s.nodeID
    || s.heartbeat == ResetReturned(s.nodeID) || s.work == ResetReturned(s.nodeID)
  }

  ghost predicate Inv(s: Agent) {
    && (s.resetNode == "" || s.resetNode == s.nodeID)
    && (s.resetNode != "" ==> Reset(s.resetNode) in s.history)
    && LocksExclude(s)
    && ThreadInOrder(s, s.heartbeat) && ThreadInOrder(s, s.work)
    && CurrentNode(s.history) == s.nodeID
    && EpochResets(s.history) <= 1
    && (EpochResets(s.history) == 1 ==> ResetRemembered(s))
    && WorkAfterReset(s.history)
  }

  lemma LogKeepsWork(history: seq<Event>, event: Event)
    requires WorkAfterReset(history) && (event.Worked? ==> Reset(event.node) in history)
    ensures WorkAfterReset(history + [event])
  {
    var all := history + [event];
    forall i | 0 <= i < |all| && all[i].Worked? ensures Reset(all[i].node) in all[..i] {
      assert all[..i] == history[..i];
      assert history[..|history|] == history;
    }
  }

  lemma BootKeepsInv(id: Option<string>, resetOk: bool)
    requires id != Some("")
    ensures Inv(Booted(id, resetOk))
  {
    if id.Some? && resetOk {
      assert [Registered(id.value), Reset(id.value)][..1] == [Registered(id.value)];
    }
  }

  /** What one more event does to the readings of the history. */
  lemma LogOne(s: Agent, event: Event)
    ensures forall e: Event | e in s.history :: e in s.history + [event]
    ensures event in s.history + [event]
    ensures CurrentNode(s.history + [event])
         == (if event.Registered? then event.node else if event.Cleared? then "" else CurrentNode(s.history))
    ensures EpochResets(s.history + [event])
         == if event.Registered? || event.Cleared? then 0
            else EpochResets(s.history) + (if event == Reset(CurrentNode(s.history)) then 1 else 0)
  {
    assert (s.history + [event])[..|s.history|] == s.history;
  }

  lemma RegisterKeepsInv(s: Agent, t: Thread, id: string)
    requires Inv(s) && Can(s, RegisterReturns(t, Some(id)))
    ensures Inv(Next(s, RegisterReturns(t, Some(id))))
  {
    LogOne(s, Registered(id));
    LogKeepsWork(s.history, Registered(id));
  }

  lemma ClearKeepsInv(s: Agent, t: Thread)
    requires Inv(s) && Can(s, Clear(t))
    ensures Inv(Next(s, Clear(t)))
  {
    LogOne(s, Cleared);
    LogKeepsWork(s.history, Cleared);
  }

  lemma ResetKeepsInv(s: Agent, t: Thread)
    requires Inv(s) && Can(s, ResetReturns(t, true))
    ensures Inv(Next(s, ResetReturns(t, true)))
  {
    var n := s.Of(t).node;
    LogOne(s, Reset(n));
    LogKeepsWork(s.history, Reset(n));
    var next := Next(s, ResetReturns(t, true));
    if n == s.nodeID {
      assert s.resetNode != n && EpochResets(s.history) == 0;
      assert next.Of(t) == ResetReturned(next.nodeID);
    }
  }

  lemma WorkKeepsInv(s: Agent)
    requires Inv(s) && Can(s, Act(Work))
    ensures Inv(Next(s, Act(Work)))
  {
    var event := Worked(s.work.node, s.work.epoch);
    LogOne(s, event);
    LogKeepsWork(s.history, event);
  }

  lemma HeartbeatKeepsInv(s: Agent)
    requires Inv(s) && Can(s, Act(Heartbeat))
    ensures Inv(Next(s, Act(Heartbeat)))
  {}

  lemma ActKeepsInv(s: Agent, t: Thread)
    requires Inv(s) && Can(s, Act(t))
    ensures Inv(Next(s, Act(t)))
  {
    if t == Work {
      WorkKeepsInv(s);
    } else {
      HeartbeatKeepsInv(s);
    }
  }

  /** The steps that leave no trace. */
  lemma QuietStepKeepsInv(s: Agent, step: Step)
    requires Inv(s) && Can(s, step)
    requires step.Ensure? || step.ActReturns?
    ensures Inv(Next(s, step))
  {}

  lemma CheckKeepsInv(s: Agent, t: Thread)
    requires Inv(s) && Can(s, CheckReset(t))
    ensures Inv(Next(s, CheckReset(t)))
  {}

  lemma MarkKeepsInv(s: Agent, t: Thread)
    requires Inv(s) && Can(s, MarkReset(t))
    ensures Inv(Next(s, MarkReset(t)))
  {}

  lemma StepKeepsInv(s: Agent, step: Step)
    requires Inv(s) && Can(s, step)
    ensures Inv(Next(s, step))
  {
    match step
    case RegisterReturns(t, Some(id)) => RegisterKeepsInv(s, t, id);
    case Clear(t) => ClearKeepsInv(s, t);
    case ResetReturns(t, true) => ResetKeepsInv(s, t);
    case Act(t) => ActKeepsInv(s, t);
    case CheckReset(t) => CheckKeepsInv(s, t);
    case MarkReset(t) => MarkKeepsInv(s, t);
    case RegisterReturns(t, None) =>
    case ResetReturns(t, false) =>
    case _ => QuietStepKeepsInv(s, step);
  }

  // ---- Runs ----

  ghost predicate Feasible(s: Agent, steps: seq<Step>)
    decreases |steps|
  {
    steps == [] || (Can(s, steps[0]) && Feasible(Next(s, steps[0]), steps[1..]))
  }

  ghost function Exec(s: Agent, steps: seq<Step>): Agent
    requires Feasible(s, steps)
    decreases |steps|
  {
    if steps == [] then s else Exec(Next(s, steps[0]), steps[1..])
  }

  lemma {:induction false} RunKeepsInv(s: Agent, steps: seq<Step>)
    requires Inv(s) && Feasible(s, steps)
    ensures Inv(Exec(s, steps))
    decreases |steps|
  {
    if steps != [] {
      StepKeepsInv(s, steps[0]);
      RunKeepsInv(Next(s, steps[0]), steps[1..]);
    }
  }

  /** However the two loops interleave: the reset mark is empty or names the registered node;
      work for a node is executed only after a successful reset of that node; the registered
      node is successfully reset at most once per registration. */
  lemma EveryInterleaving(id: Option<string>, resetOk: bool, steps: seq<Step>)
    requires id != Some("") && Feasible(Booted(id, resetOk), steps)
    ensures var s := Exec(Booted(id, resetOk), steps);
            && (s.resetNode == "" || s.resetNode == s.nodeID)
            && WorkAfterReset(s.history)
            && EpochResets(s.history) <= 1
  {
    BootKeepsInv(id, resetOk);
    RunKeepsInv(Booted(id, resetOk), steps);
  }

  /** A node is registered only while none is. */
  ghost predicate RegisteredFromNone(history: seq<Event>) {
    forall i | 0 <= i < |history| && history[i].Registered? :: CurrentNode(history[..i]) == ""
  }

  /** A loop registers only because it found no node, and keeps the other one from registering. */
  ghost predicate RegistersFromNone(s: Agent) {
    && CurrentNode(s.history) == s.nodeID && RegisteredFromNone(s.history)
    && !(s.heartbeat.Registering? && s.work.Registering?)
    && (s.heartbeat.Registering? || s.work.Registering? ==> s.nodeID == "")
  }

  lemma LogFromNone(s: Agent, event: Event)
    requires RegistersFromNone(s) && (event.Registered? ==> s.nodeID == "")
    ensures RegisteredFromNone(s.history + [event])
    ensures CurrentNode(s.history + [event])
         == if event.Registered? then event.node else if event.Cleared? then "" else s.nodeID
  {
    var all := s.history + [event];
    LogOne(s, event);
    forall i | 0 <= i < |all| && all[i].Registered? ensures CurrentNode(all[..i]) == "" {
      assert all[..i] == s.history[..i];
      assert s.history[..|s.history|] == s.history;
    }
  }

  /** The steps that leave a trace. */
  lemma LoggedFromNone(s: Agent, step: Step)
    requires RegistersFromNone(s) && Can(s, step)
    requires step.RegisterReturns? || step.Clear? || step.ResetReturns? || step.Act?
    ensures RegistersFromNone(Next(s, step))
  {
    match step
    case RegisterReturns(_, Some(id)) => LogFromNone(s, Registered(id));
    case Clear(_) => LogFromNone(s, Cleared);
    case ResetReturns(t, true) => LogFromNone(s, Reset(s.Of(t).node));
    case Act(Work) => LogFromNone(s, Worked(s.work.node, s.work.epoch));
    case _ =>
  }

  lemma QuietFromNone(s: Agent, step: Step)
    requires RegistersFromNone(s) && Can(s, step)
    requires step.Ensure? || step.CheckReset? || step.MarkReset? || step.ActReturns?
    ensures RegistersFromNone(Next(s, step))
  {}

  lemma {:induction false} RunFromNone(s: Agent, steps: seq<Step>)
    requires RegistersFromNone(s) && Feasible(s, steps)
    ensures RegistersFromNone(Exec(s, steps))
    decreases |steps|
  {
    if steps != [] {
      var step := steps[0];
      if step.Ensure? || step.CheckReset? || step.MarkReset? || step.ActReturns? {
        QuietFromNone(s, step);
      } else {
        LoggedFromNone(s, step);
      }
      RunFromNone(Next(s, step), steps[1..]);
    }
  }

  /** However the loops interleave, the agent never registers over a node it has: between two
      registrations the first one was cleared. */
  lemma RegistersOnlyFromNone(id: Option<string>, resetOk: bool, steps: seq<Step>)
    requires id != Some("") && Feasible(Booted(id, resetOk), steps)
    ensures RegisteredFromNone(Exec(Booted(id, resetOk), steps).history)
  {
    BootKeepsInv(id, resetOk);
    assert RegisteredFromNone(Booted(id, resetOk).history);
    RunFromNone(Booted(id, resetOk), steps);
  }

  /** A node the cloud plane does not know is forgotten, and the loop registers anew; any other
      answer leaves node and reset mark alone, and the next cycle goes on with them. */
  lemma UnknownNodeRegistersAnew(s: Agent, t: Thread, unknownNode: bool)
    requires Inv(s) && s.Of(t).Acting? && !s.Of(t.Other()).Registering?
    ensures
      var answered := Next(s, ActReturns(t, unknownNode));
      if unknownNode then
        && Can(answered, Clear(t))
        && var cleared := Next(answered, Clear(t));
           && cleared.nodeID == cleared.resetNode == "" && cleared.history == s.history + [Cleared]
           && Can(cleared, Ensure(t)) && Next(cleared, Ensure(t)).Of(t).Registering?
      else
        && answered.nodeID == s.nodeID && answered.resetNode == s.resetNode && answered.history == s.history
        && Can(answered, Ensure(t))
        && (s.nodeID != "" ==> Next(answered, Ensure(t)).Of(t) == HasNode(s.nodeID))
  {}

  /** A loop that acts for the registered node, prepared in the same epoch, never overlaps a
      reset of that node. */
  lemma NoResetUnderWork(id: Option<string>, resetOk: bool, steps: seq<Step>, t: Thread)
    requires id != Some("") && Feasible(Booted(id, resetOk), steps)
    ensures var s := Exec(Booted(id, resetOk), steps);
            s.Of(t).Acting? && s.Of(t).epoch == s.epoch && s.Of(t).node == s.nodeID ==>
              s.Of(t.Other()) != Resetting(s.nodeID)
  {
    BootKeepsInv(id, resetOk);
    RunKeepsInv(Booted(id, resetOk), steps);
  }

  // ---- All resets after one registration ----

  /** Steps that register nothing and clear nothing. */
  predicate Quiet(step: Step) {
    !step.Clear? && !(step.RegisterReturns? && step.id.Some?)
  }

  predicate AllQuiet(steps: seq<Step>) {
    forall k | 0 <= k < |steps| :: Quiet(steps[k])
  }

  /** Successful resets, of whatever node. */
  function ResetCount(history: seq<Event>): nat {
    if history == [] then 0
    else ResetCount(history[..|history| - 1]) + (if history[|history| - 1].Reset? then 1 else 0)
  }

  ghost function ResetsAlong(s: Agent, steps: seq<Step>): int
    requires Feasible(s, steps)
  {
    ResetCount(Exec(s, steps).history) - ResetCount(s.history)
  }

  /** A loop that is on its way to reset a node other than `n`. */
  predicate LeftBehind(pc: Pc, n: string) {
    (pc.HasNode? || pc.Resetting?) && pc.node != n
  }

  lemma CountOne(s: Agent, event: Event)
    ensures ResetCount(s.history + [event]) == ResetCount(s.history) + (if event.Reset? then 1 else 0)
  {
    assert (s.history + [event])[..|s.history|] == s.history;
  }

  /** Since node `n` was registered there were `count` resets, and no loop is left behind. */
  ghost predicate InEpoch(s: Agent, n: string, count: int) {
    && Inv(s) && s.nodeID == n && n != ""
    && !LeftBehind(s.heartbeat, n) && !LeftBehind(s.work, n)
    && 0 <= count <= 1
    && (count == 1 ==> s.resetNode == n || s.heartbeat == ResetReturned(n) || s.work == ResetReturned(n))
  }

  lemma ResetStaysInEpoch(s: Agent, t: Thread, n: string, count: int)
    requires InEpoch(s, n, count) && Can(s, ResetReturns(t, true))
    ensures InEpoch(Next(s, ResetReturns(t, true)), n, count + 1)
  {
    ResetKeepsInv(s, t);
  }

  lemma MarkingStaysInEpoch(s: Agent, step: Step, n: string, count: int)
    requires InEpoch(s, n, count) && Can(s, step) && Inv(Next(s, step)) && (step.CheckReset? || step.MarkReset?)
    ensures InEpoch(Next(s, step), n, count)
  {}

  lemma SilentStaysInEpoch(s: Agent, step: Step, n: string, count: int)
    requires InEpoch(s, n, count) && Can(s, step) && Inv(Next(s, step)) && Quiet(step)
    requires !step.CheckReset? && !step.MarkReset? && !(step.ResetReturns? && step.ok)
    ensures InEpoch(Next(s, step), n, count)
  {}

  lemma OthersStayInEpoch(s: Agent, step: Step, n: string, count: int)
    requires InEpoch(s, n, count) && Can(s, step) && Quiet(step) && !(step.ResetReturns? && step.ok)
    ensures InEpoch(Next(s, step), n, count)
  {
    StepKeepsInv(s, step);
    if step.CheckReset? || step.MarkReset? {
      MarkingStaysInEpoch(s, step, n, count);
    } else {
      SilentStaysInEpoch(s, step, n, count);
    }
  }

  lemma StepStaysInEpoch(s: Agent, step: Step, n: string, count: int)
    requires InEpoch(s, n, count) && Can(s, step) && Quiet(step)
    ensures InEpoch(Next(s, step), n, count + ResetCount(Next(s, step).history) - ResetCount(s.history))
  {
    if step.ResetReturns? && step.ok {
      ResetStaysInEpoch(s, step.t, n, count);
      CountOne(s, Reset(s.Of(step.t).node));
    } else {
      OthersStayInEpoch(s, step, n, count);
      if step.Act? && step.t == Work {
        CountOne(s, Worked(s.Of(step.t).node, s.Of(step.t).epoch));
      }
    }
  }

  lemma {:induction false} AtMostOneReset(s: Agent, steps: seq<Step>, n: string, count: int)
    requires InEpoch(s, n, count) && Feasible(s, steps) && AllQuiet(steps)
    ensures 0 <= count + ResetsAlong(s, steps) <= 1
    decreases |steps|
  {
    if steps != [] {
      var next := Next(s, steps[0]);
      StepStaysInEpoch(s, steps[0], n, count);
      assert AllQuiet(steps[1..]);
      AtMostOneReset(next, steps[1..], n, count + ResetCount(next.history) - ResetCount(s.history));
    }
  }

  lemma {:induction false} OneMore(s: Agent, steps: seq<Step>, step: Step)
    requires Feasible(s, steps) && Can(Exec(s, steps), step)
    ensures Feasible(s, steps + [step]) && Exec(s, steps + [step]) == Next(Exec(s, steps), step)
    decreases |steps|
  {
    var all := steps + [step];
    if steps == [] {
      assert all[1..] == [];
    } else {
      assert all[1..] == steps[1..] + [step];
      OneMore(Next(s, steps[0]), steps[1..], step);
    }
  }

  lemma CountedStep(s: Agent, steps: seq<Step>, step: Step)
    requires Feasible(s, steps) && AllQuiet(steps) && Can(Exec(s, steps), step) && Quiet(step)
    ensures Feasible(s, steps + [step]) && AllQuiet(steps + [step])
    ensures Exec(s, steps + [step]) == Next(Exec(s, steps), step)
    ensures ResetsAlong(s, steps + [step])
         == ResetsAlong(s, steps) + (if step.ResetReturns? && step.ok then 1 else 0)
  {
    OneMore(s, steps, step);
    var mid := Exec(s, steps);
    if step.ResetReturns? && step.ok {
      CountOne(mid, Reset(mid.Of(step.t).node));
    } else if step.Act? && step.t == Work {
      CountOne(mid, Worked(mid.Of(step.t).node, mid.Of(step.t).epoch));
    }
  }

  /** The loop left behind resets its old node, then the other one the new node. */
  lemma LeftBehindResets(s: Agent, t: Thread, n: string) returns (steps: seq<Step>)
    requires Inv(s) && s.nodeID == n && s.resetNode == "" && s.Of(t) == HasNode(n) && LeftBehind(s.Of(t.Other()), n)
    ensures Feasible(s, steps) && AllQuiet(steps) && ResetsAlong(s, steps) == 1
    ensures var after := Exec(s, steps);
            after.nodeID == n && after.resetNode == "" && after.Of(t) == HasNode(n) && after.Of(t.Other()).Prepared?
  {
    var other := t.Other();
    steps := [];
    if s.Of(other).HasNode? {
      CountedStep(s, steps, CheckReset(other));
      steps := steps + [CheckReset(other)];
    }
    CountedStep(s, steps, ResetReturns(other, true));
    steps := steps + [ResetReturns(other, true)];
    CountedStep(s, steps, MarkReset(other));
    steps := steps + [MarkReset(other)];
  }

  lemma LeftBehindResetsTwice(s: Agent, t: Thread, n: string) returns (steps: seq<Step>)
    requires Inv(s) && s.nodeID == n && s.resetNode == "" && s.Of(t) == HasNode(n) && LeftBehind(s.Of(t.Other()), n)
    ensures Feasible(s, steps) && AllQuiet(steps) && ResetsAlong(s, steps) == 2
  {
    steps := LeftBehindResets(s, t, n);
    CountedStep(s, steps, CheckReset(t));
    steps := steps + [CheckReset(t)];
    CountedStep(s, steps, ResetReturns(t, true));
    steps := steps + [ResetReturns(t, true)];
  }

  ghost predicate ResetsAtMostOnce(s: Agent) {
    forall steps | Feasible(s, steps) && AllQuiet(steps) :: ResetsAlong(s, steps) <= 1
  }

  /** Exactly when a registration epoch sees at most one successful reset of any node, however
      the loops go on until the next registration or clearing: when the other loop is not on
      its way to reset another node as the registration returns. */
  lemma OneResetPerRegistrationIff(s: Agent, t: Thread, n: string)
    requires Inv(s) && Can(s, RegisterReturns(t, Some(n)))
    ensures ResetsAtMostOnce(Next(s, RegisterReturns(t, Some(n)))) <==> !LeftBehind(s.Of(t.Other()), n)
  {
    var next := Next(s, RegisterReturns(t, Some(n)));
    RegisterKeepsInv(s, t, n);
    if LeftBehind(s.Of(t.Other()), n) {
      var steps := LeftBehindResetsTwice(next, t, n);
      assert ResetsAlong(next, steps) == 2;
    } else {
      forall steps | Feasible(next, steps) && AllQuiet(steps) ensures ResetsAlong(next, steps) <= 1 {
        AtMostOneReset(next, steps, n, 0);
      }
    }
  }

  /** Without a node, since the state was cleared. */
  ghost predicate InGap(s: Agent, count: int) {
    && Inv(s) && s.nodeID == ""
    && 0 <= count <= 1
    && (count == 1 ==> !s.heartbeat.HasNode? && !s.heartbeat.Resetting? && !s.work.HasNode? && !s.work.Resetting?)
    && !((s.heartbeat.HasNode? || s.heartbeat.Resetting?) && (s.work.HasNode? || s.work.Resetting?))
  }

  lemma ResetStaysInGap(s: Agent, t: Thread, count: int)
    requires InGap(s, count) && Can(s, ResetReturns(t, true))
    ensures InGap(Next(s, ResetReturns(t, true)), count + 1)
  {
    ResetKeepsInv(s, t);
  }

  lemma OthersStayInGap(s: Agent, step: Step, count: int)
    requires InGap(s, count) && Can(s, step) && Quiet(step) && !(step.ResetReturns? && step.ok)
    ensures InGap(Next(s, step), count)
  {
    StepKeepsInv(s, step);
  }

  lemma StepStaysInGap(s: Agent, step: Step, count: int)
    requires InGap(s, count) && Can(s, step) && Quiet(step)
    ensures InGap(Next(s, step), count + ResetCount(Next(s, step).history) - ResetCount(s.history))
  {
    if step.ResetReturns? && step.ok {
      ResetStaysInGap(s, step.t, count);
      CountOne(s, Reset(s.Of(step.t).node));
    } else {
      OthersStayInGap(s, step, count);
      if step.Act? && step.t == Work {
        CountOne(s, Worked(s.Of(step.t).node, s.Of(step.t).epoch));
      }
    }
  }

  lemma {:induction false} AtMostOneResetInGap(s: Agent, steps: seq<Step>, count: int)
    requires InGap(s, count) && Feasible(s, steps) && AllQuiet(steps)
    ensures 0 <= count + ResetsAlong(s, steps) <= 1
    decreases |steps|
  {
    if steps != [] {
      var next := Next(s, steps[0]);
      StepStaysInGap(s, steps[0], count);
      assert AllQuiet(steps[1..]);
      AtMostOneResetInGap(next, steps[1..], count + ResetCount(next.history) - ResetCount(s.history));
    }
  }

  /** Between a clearing and the next registration there is at most one successful reset, that
      of a loop that still held the old node. */
  lemma OneResetAfterClear(s: Agent, t: Thread)
    requires Inv(s) && Can(s, Clear(t))
    ensures ResetsAtMostOnce(Next(s, Clear(t)))
  {
    var next := Next(s, Clear(t));
    ClearKeepsInv(s, t);
    forall steps | Feasible(next, steps) && AllQuiet(steps) ensures ResetsAlong(next, steps) <= 1 {
      AtMostOneResetInGap(next, steps, 0);
    }
  }

  // ---- The reset before a piece of work ----

  /** From position `start` of the history: work for `n` in epoch `e` follows a reset of `n`. */
  ghost predicate OwnWorkAfterReset(history: seq<Event>, start: nat, n: string, e: nat) {
    forall i | start <= i < |history| && history[i] == Worked(n, e) :: Reset(n) in history[start..i]
  }

  ghost predicate ResetSince(s: Agent, start: nat, n: string) {
    start <= |s.history| && Reset(n) in s.history[start..]
  }

  predicate FoundReset(pc: Pc, n: string, e: nat) {
    pc == Prepared(n, e) || pc == ResetReturned(n)
  }

  /** Node `n` was registered at position `start`, and whoever takes its runtime for reset has a
      reset since then to rely on. */
  ghost predicate OwnReset(s: Agent, start: nat, n: string) {
    && Inv(s) && s.nodeID == n && n != "" && start <= |s.history|
    && (s.resetNode == n || FoundReset(s.heartbeat, n, s.epoch) || FoundReset(s.work, n, s.epoch) ==>
          ResetSince(s, start, n))
    && OwnWorkAfterReset(s.history, start, n, s.epoch)
  }

  lemma LogSince(s: Agent, event: Event, start: nat, n: string, e: nat)
    requires start <= |s.history| && OwnWorkAfterReset(s.history, start, n, e)
    requires event == Worked(n, e) ==> ResetSince(s, start, n)
    ensures OwnWorkAfterReset(s.history + [event], start, n, e)
    ensures ResetSince(s, start, n) ==> Reset(n) in (s.history + [event])[start..]
    ensures event == Reset(n) ==> Reset(n) in (s.history + [event])[start..]
  {
    var all := s.history + [event];
    assert all[start..] == s.history[start..] + [event];
    forall i | start <= i < |all| && all[i] == Worked(n, e) ensures Reset(n) in all[start..i] {
      assert all[start..i] == s.history[start..i];
      assert s.history[start..|s.history|] == s.history[start..];
    }
  }

  lemma ResetKeepsOwnReset(s: Agent, t: Thread, start: nat, n: string)
    requires OwnReset(s, start, n) && Can(s, ResetReturns(t, true))
    ensures OwnReset(Next(s, ResetReturns(t, true)), start, n)
  {
    ResetKeepsInv(s, t);
    LogSince(s, Reset(s.Of(t).node), start, n, s.epoch);
  }

  lemma WorkKeepsOwnReset(s: Agent, start: nat, n: string)
    requires OwnReset(s, start, n) && Can(s, Act(Work))
    ensures OwnReset(Next(s, Act(Work)), start, n)
  {
    WorkKeepsInv(s);
    LogSince(s, Worked(s.work.node, s.work.epoch), start, n, s.epoch);
  }

  /** The steps that leave history and mark as they are. */
  lemma SilentKeepsOwnReset(s: Agent, step: Step, start: nat, n: string)
    requires OwnReset(s, start, n) && Can(s, step) && Inv(Next(s, step))
    requires step.Ensure? || step.ActReturns? || step == RegisterReturns(step.t, None)
          || step == ResetReturns(step.t, false) || step == Act(Heartbeat)
    ensures OwnReset(Next(s, step), start, n)
  {}

  lemma MarkingKeepsOwnReset(s: Agent, step: Step, start: nat, n: string)
    requires OwnReset(s, start, n) && Can(s, step) && Inv(Next(s, step)) && (step.CheckReset? || step.MarkReset?)
    ensures OwnReset(Next(s, step), start, n)
  {}

  lemma StepKeepsOwnReset(s: Agent, step: Step, start: nat, n: string)
    requires OwnReset(s, start, n) && Can(s, step) && Quiet(step)
    ensures OwnReset(Next(s, step), start, n)
  {
    if step.ResetReturns? && step.ok {
      ResetKeepsOwnReset(s, step.t, start, n);
    } else if step == Act(Work) {
      WorkKeepsOwnReset(s, start, n);
    } else {
      StepKeepsInv(s, step);
      if step.CheckReset? || step.MarkReset? {
        MarkingKeepsOwnReset(s, step, start, n);
      } else {
        SilentKeepsOwnReset(s, step, start, n);
      }
    }
  }

  lemma {:induction false} OwnWorkFollowsReset(s: Agent, steps: seq<Step>, start: nat, n: string)
    requires OwnReset(s, start, n) && Feasible(s, steps) && AllQuiet(steps)
    ensures Exec(s, steps).epoch == s.epoch && OwnWorkAfterReset(Exec(s, steps).history, start, n, s.epoch)
    decreases |steps|
  {
    if steps != [] {
      StepKeepsOwnReset(s, steps[0], start, n);
      assert AllQuiet(steps[1..]);
      OwnWorkFollowsReset(Next(s, steps[0]), steps[1..], start, n);
    }
  }

  /** A loop whose reset of `n` returned before the registration marks the new epoch with it. */
  lemma OldResetIsReused(s: Agent, t: Thread, n: string) returns (steps: seq<Step>)
    requires Inv(s) && s.nodeID == n && s.resetNode == "" && s.Of(t) == HasNode(n)
    requires s.Of(t.Other()) == ResetReturned(n)
    ensures Feasible(s, steps) && AllQuiet(steps) && Exec(s, steps).history == s.history + [Worked(n, s.epoch)]
  {
    steps := [];
    CountedStep(s, steps, MarkReset(t.Other()));
    steps := steps + [MarkReset(t.Other())];
    if t == Work {
      CountedStep(s, steps, CheckReset(t));
      steps := steps + [CheckReset(t)];
    }
    CountedStep(s, steps, Act(Work));
    steps := steps + [Act(Work)];
  }

  ghost predicate WorksAfterOwnReset(s: Agent, n: string) {
    forall steps | Feasible(s, steps) && AllQuiet(steps) ::
      OwnWorkAfterReset(Exec(s, steps).history, |s.history|, n, s.epoch)
  }

  /** Exactly when the work of a registration's own epoch follows a reset since that
      registration, however the loops go on until the next registration or clearing: when the
      other loop does not come back with an older reset of the same node. */
  lemma OwnResetIff(s: Agent, t: Thread, n: string)
    requires Inv(s) && Can(s, RegisterReturns(t, Some(n)))
    ensures WorksAfterOwnReset(Next(s, RegisterReturns(t, Some(n))), n) <==> s.Of(t.Other()) != ResetReturned(n)
  {
    var next := Next(s, RegisterReturns(t, Some(n)));
    RegisterKeepsInv(s, t, n);
    if s.Of(t.Other()) == ResetReturned(n) {
      var steps := OldResetIsReused(next, t, n);
      var history, i := Exec(next, steps).history, |next.history|;
      assert history[i] == Worked(n, next.epoch) && history[i..i] == [];
      assert !OwnWorkAfterReset(history, i, n, next.epoch);
    } else {
      assert OwnReset(next, |next.history|, n);
      forall steps | Feasible(next, steps) && AllQuiet(steps)
        ensures OwnWorkAfterReset(Exec(next, steps).history, |next.history|, n, next.epoch)
      {
        OwnWorkFollowsReset(next, steps, |next.history|, n);
      }
    }
  }

  // ---- A loop left behind, in a run from the start ----

  /** The heartbeat loop has read "a"; the work loop learns that "a" is unknown and is about to
      register "b". */
  lemma OldNodeReplaced() returns (steps: seq<Step>)
    ensures Feasible(Booted(Some("a"), true), steps)
    ensures Exec(Booted(Some("a"), true), steps) == Agent("", "", HasNode("a"), Pc.Registering, 1,
              [Registered("a"), Reset("a"), Worked("a", 0), Cleared])
  {
    var boot := Booted(Some("a"), true);
    steps := [];
    OneMore(boot, steps, Ensure(Heartbeat)); steps := steps + [Ensure(Heartbeat)];
    OneMore(boot, steps, Ensure(Work)); steps := steps + [Ensure(Work)];
    OneMore(boot, steps, CheckReset(Work)); steps := steps + [CheckReset(Work)];
    OneMore(boot, steps, Act(Work)); steps := steps + [Act(Work)];
    OneMore(boot, steps, ActReturns(Work, true)); steps := steps + [ActReturns(Work, true)];
    OneMore(boot, steps, Clear(Work)); steps := steps + [Clear(Work)];
    OneMore(boot, steps, Ensure(Work)); steps := steps + [Ensure(Work)];
  }

  /** From boot, the runtime can be reset twice after one registration: a heartbeat loop that
      still holds "a" resets it after "b" was registered, and "b" is reset as well. */
  lemma StaleLoopResetsOldNode() returns (steps: seq<Step>, more: seq<Step>)
    ensures Feasible(Booted(Some("a"), true), steps)
    ensures var s := Exec(Booted(Some("a"), true), steps);
            && Can(s, RegisterReturns(Work, Some("b")))
            && var next := Next(s, RegisterReturns(Work, Some("b")));
               Feasible(next, more) && AllQuiet(more) && ResetsAlong(next, more) == 2
  {
    var boot := Booted(Some("a"), true);
    steps := OldNodeReplaced();
    BootKeepsInv(Some("a"), true);
    RunKeepsInv(boot, steps);
    var s := Exec(boot, steps);
    RegisterKeepsInv(s, Work, "b");
    more := LeftBehindResetsTwice(Next(s, RegisterReturns(Work, Some("b"))), Work, "b");
  }

  // ---- The runner's two fields ----

  /** The fields the loops share, and the sections of code that touch them. Where each loop
      stands, and what happened so far, is known to the proof only. */
  class Runner {
    var nodeID: string
    var runtimeResetNode: string
    ghost var heartbeat: Pc
    ghost var work: Pc
    ghost var epoch: nat
    ghost var history: seq<Event>

    ghost function View(): Agent
      reads this
    {
      Agent(nodeID, runtimeResetNode, heartbeat, work, epoch, history)
    }

    ghost predicate Valid()
      reads this
    {
      Inv(View())
    }

    ghost method Become(s: Agent)
      requires s.nodeID == nodeID && s.resetNode == runtimeResetNode
      modifies this`heartbeat, this`work, this`epoch, this`history
      ensures View() == s
    {
      heartbeat, work, epoch, history := s.heartbeat, s.work, s.epoch, s.history;
    }

    /** Registers and resets once before the loops start. */
    constructor (id: Option<string>, resetOk: bool)
      requires id != Some("")
      ensures Valid() && View() == Booted(id, resetOk)
    {
      nodeID := if id.Some? then id.value else "";
      runtimeResetNode := if id.Some? && resetOk then id.value else "";
      heartbeat, work, epoch := Idle, Idle, 0;
      history := Booted(id, resetOk).history;
      new;
      BootKeepsInv(id, resetOk);
    }

    /** `ensureNodeRegistration`: the known identifier, or none when a registration is due. */
    method EnsureNodeRegistration(ghost t: Thread) returns (id: Option<string>)
      requires Valid() && Can(View(), Ensure(t))
      modifies this
      ensures Valid() && View() == Next(old(View()), Ensure(t))
      ensures id == if nodeID != "" then Some(nodeID) else None
    {
      StepKeepsInv(View(), Ensure(t));
      Become(Next(View(), Ensure(t)));
      return if nodeID != "" then Some(nodeID) else None;
    }

    /** `registerNode`, once the cloud plane has answered. */
    method FinishRegistration(ghost t: Thread, answer: Option<string>)
      requires Valid() && Can(View(), RegisterReturns(t, answer))
      modifies this
      ensures Valid() && View() == Next(old(View()), RegisterReturns(t, answer))
    {
      ghost var step := RegisterReturns(t, answer);
      ghost var next := Next(View(), step);
      StepKeepsInv(View(), step);
      if answer.Some? {
        nodeID := answer.value;
        runtimeResetNode := "";
      }
      Become(next);
    }

    /** The first section of `resetRuntimeOnce`: whether nothing is left to do. */
    method AlreadyReset(ghost t: Thread, node: string) returns (done: bool)
      requires Valid() && Can(View(), CheckReset(t)) && View().Of(t) == HasNode(node)
      modifies this
      ensures Valid() && View() == Next(old(View()), CheckReset(t))
      ensures done <==> View().Of(t).Prepared?
    {
      StepKeepsInv(View(), CheckReset(t));
      done := runtimeResetNode == node;
      Become(Next(View(), CheckReset(t)));
    }

    /** The last section of `resetRuntimeOnce`: the node may have changed during the reset. */
    method MarkRuntimeReset(ghost t: Thread, node: string)
      requires Valid() && Can(View(), MarkReset(t)) && View().Of(t) == ResetReturned(node)
      modifies this
      ensures Valid() && View() == Next(old(View()), MarkReset(t))
    {
      ghost var next := Next(View(), MarkReset(t));
      StepKeepsInv(View(), MarkReset(t));
      if nodeID == node {
        runtimeResetNode := node;
      }
      Become(next);
    }

    /** `handleNodeError` on an unknown node: the state is cleared whatever it holds by now. */
    method HandleNodeError(ghost t: Thread)
      requires Valid() && Can(View(), Clear(t))
      modifies this
      ensures Valid() && View() == Next(old(View()), Clear(t))
    {
      ghost var next := Next(View(), Clear(t));
      StepKeepsInv(View(), Clear(t));
      nodeID := "";
      runtimeResetNode := "";
      Become(next);
    }

    /** A call returns or begins: the two fields stay as they are. */
    ghost method Outside(step: Step)
      requires Valid() && Can(View(), step) && (step.ResetReturns? || step.Act? || step.ActReturns?)
      modifies this`heartbeat, this`work, this`epoch, this`history
      ensures Valid() && View() == Next(old(View()), step)
    {
      StepKeepsInv(View(), step);
      Become(Next(View(), step));
    }
  }
}
