/**
 * Proxy workers, their connection tasks, and the two recorders the tasks drive, as one transition
 * system. Every step is one lock-protected action or one await boundary of the source, so a run is
 * any interleaving of service calls, workers and tasks.
 */
module ProxyMachine {
  import opened Common
  import D = FlowDiagnosing
  import T = TrafficMonitoring
  import C = CappedCounts
  import W = TrafficWindow

  const MAX_CONNECTIONS: nat := 256

  /**
   * Where a connection task stands; `Failed` has recorded its error and not yet its observation. A
   * flow is known to the traffic monitor under its task's identity.
   */
  datatype Phase = Preparing | Failed(observation: string) | Prepared | Flowing | Finished | Ended

  datatype Task = Task(worker: nat, phase: Phase)

  datatype Stage = Accepting | Draining | Aborting | Returned

  datatype Worker = Worker(plan: string, signalled: bool, stage: Stage, ingressShutdowns: nat)

  /**
   * `owner` is the worker of a started service, `stopping` the one a `stop` call still waits for, and
   * `abandoned` are those whose `stop` call was dropped while it waited.
   */
  datatype Service = Service(owner: Option<nat>, stopping: Option<nat>, abandoned: set<nat>)

  /** `tasks` are the spawned and not yet joined ones; `lost` counts accepted flows that never completed. */
  datatype System = System(
    service: Service,
    workers: map<nat, Worker>,
    tasks: map<nat, Task>,
    spawned: set<nat>,
    diagnostics: D.Diagnostics,
    history: seq<D.Event>,
    traffic: T.TrafficState,
    lost: nat)

  const INITIAL: System :=
    System(Service(None, None, {}), map[], map[], {}, D.EMPTY, [], T.EMPTY, 0)

  datatype Event =
    | StartWorker(worker: nat, plan: string)
    | BeginStop
    | EndStop
    | AbandonStop
    | ReceiveShutdown(worker: nat)
    | Spawn(worker: nat, task: nat)
    | AcceptError(worker: nat, error: string)
    | Join(task: nat)
    | DrainTimeout(worker: nat)
    | Return(worker: nat)
    | Prepare(task: nat)
    | PrepareFail(task: nat, error: string, observed: Option<string>)
    | ObserveFailure(task: nat)
    | StartFlow(task: nat, host: string)
    | Bytes(task: nat, dir: W.Direction, bytes: nat, now: nat)
    | FinishFlow(task: nat)
    | RecordResult(task: nat, context: D.Context, result: Result<D.Outcome, string>, observation: string)
    | Abort(task: nat)
    | Panic(task: nat)

  function TasksOf(tasks: map<nat, Task>, w: nat): set<nat> {
    set t | t in tasks && tasks[t].worker == w
  }

  function FlowingTasks(tasks: map<nat, Task>): set<nat> {
    set t | t in tasks && tasks[t].phase.Flowing?
  }

  /** Tasks between `record_accepted` and `record_completed`. */
  function Running(tasks: map<nat, Task>): set<nat> {
    set t | t in tasks && (tasks[t].phase.Prepared? || tasks[t].phase.Flowing? || tasks[t].phase.Finished?)
  }

  predicate IsAt(tasks: map<nat, Task>, t: nat, p: Phase) {
    t in tasks && tasks[t].phase == p
  }

  predicate InStage(workers: map<nat, Worker>, w: nat, stage: Stage) {
    w in workers && workers[w].stage == stage
  }

  predicate HasRoom(tasks: map<nat, Task>, w: nat) {
    |TasksOf(tasks, w)| < MAX_CONNECTIONS
  }

  predicate Enabled(s: System, e: Event) {
    match e
    case StartWorker(w, _) => s.service.owner.None? && s.service.stopping.None? && w !in s.workers
    case BeginStop => s.service.owner.Some? && s.service.stopping.None?
    case EndStop => s.service.stopping.Some? && InStage(s.workers, s.service.stopping.value, Returned)
    case AbandonStop => s.service.stopping.Some?
    case ReceiveShutdown(w) => InStage(s.workers, w, Accepting) && s.workers[w].signalled
    case Spawn(w, t) => InStage(s.workers, w, Accepting) && HasRoom(s.tasks, w) && t !in s.spawned
    case AcceptError(w, _) => InStage(s.workers, w, Accepting) && HasRoom(s.tasks, w)
    case Join(t) => IsAt(s.tasks, t, Ended)
    case DrainTimeout(w) => InStage(s.workers, w, Draining) && TasksOf(s.tasks, w) != {}
    case Return(w) =>
      (InStage(s.workers, w, Draining) || InStage(s.workers, w, Aborting)) && TasksOf(s.tasks, w) == {}
    case Prepare(t) => IsAt(s.tasks, t, Preparing)
    case PrepareFail(t, _, _) => IsAt(s.tasks, t, Preparing)
    case ObserveFailure(t) => t in s.tasks && s.tasks[t].phase.Failed?
    case StartFlow(t, _) => IsAt(s.tasks, t, Prepared)
    case Bytes(_, _, _, _) => true
    case FinishFlow(t) => IsAt(s.tasks, t, Flowing)
    case RecordResult(t, _, _, _) => IsAt(s.tasks, t, Finished)
    case Abort(t) =>
      (IsAt(s.tasks, t, Preparing) || IsAt(s.tasks, t, Flowing)) && InStage(s.workers, s.tasks[t].worker, Aborting)
    case Panic(t) => IsAt(s.tasks, t, Preparing) || IsAt(s.tasks, t, Flowing)
  }

  function NextService(c: Service, e: Event): Service {
    match e
    case StartWorker(w, _) => c.(owner := Some(w))
    case BeginStop => c.(owner := None, stopping := c.owner)
    case EndStop => c.(stopping := None)
    case AbandonStop =>
      c.(stopping := None, abandoned := c.abandoned + if c.stopping.Some? then {c.stopping.value} else {})
    case _ => c
  }

  function NextWorkers(workers: map<nat, Worker>, c: Service, e: Event): map<nat, Worker> {
    match e
    case StartWorker(w, plan) => workers[w := Worker(plan, false, Accepting, 0)]
    case BeginStop =>
      if c.owner.Some? && c.owner.value in workers
      then workers[c.owner.value := workers[c.owner.value].(signalled := true)]
      else workers
    case ReceiveShutdown(w) => if w in workers then workers[w := workers[w].(stage := Draining)] else workers
    case DrainTimeout(w) => if w in workers then workers[w := workers[w].(stage := Aborting)] else workers
    case Return(w) =>
      if w in workers
      then workers[w := workers[w].(stage := Returned, ingressShutdowns := workers[w].ingressShutdowns + 1)]
      else workers
    case _ => workers
  }

  function MovedTo(tasks: map<nat, Task>, t: nat, p: Phase): map<nat, Task> {
    if t in tasks then tasks[t := tasks[t].(phase := p)] else tasks
  }

  function NextTasks(tasks: map<nat, Task>, e: Event): map<nat, Task> {
    match e
    case Spawn(w, t) => tasks[t := Task(w, Preparing)]
    case Join(t) => tasks - {t}
    case Prepare(t) => MovedTo(tasks, t, Prepared)
    case PrepareFail(t, _, observed) => MovedTo(tasks, t, if observed.Some? then Failed(observed.value) else Ended)
    case ObserveFailure(t) => MovedTo(tasks, t, Ended)
    case StartFlow(t, _) => MovedTo(tasks, t, Flowing)
    case FinishFlow(t) => MovedTo(tasks, t, Finished)
    case RecordResult(t, _, _, _) => MovedTo(tasks, t, Ended)
    case Abort(t) => MovedTo(tasks, t, Ended)
    case Panic(t) => MovedTo(tasks, t, Ended)
    case _ => tasks
  }

  /** What a step tells the diagnostics recorder. */
  function Report(tasks: map<nat, Task>, e: Event): Option<D.Event> {
    match e
    case AcceptError(_, error) => Some(D.AcceptError(error))
    case Prepare(_) => Some(D.FlowAccepted)
    case PrepareFail(_, error, _) => Some(D.AcceptError(error))
    case ObserveFailure(t) =>
      if t in tasks && tasks[t].phase.Failed? then Some(D.IngressObserved(tasks[t].phase.observation)) else None
    case RecordResult(_, context, result, observation) => Some(D.FlowResult(context, result, observation))
    case _ => None
  }

  /** A task that is dropped while its flow is active finishes the flow through its guard. */
  function NextTraffic(traffic: T.TrafficState, tasks: map<nat, Task>, e: Event): T.TrafficState {
    match e
    case StartFlow(t, host) => T.Started(traffic, t, host)
    case Bytes(t, dir, bytes, now) => T.Recorded(traffic, t, dir, bytes, now)
    case FinishFlow(t) => T.Finished(traffic, t)
    case Abort(t) => if IsAt(tasks, t, Flowing) then T.Finished(traffic, t) else traffic
    case Panic(t) => if IsAt(tasks, t, Flowing) then T.Finished(traffic, t) else traffic
    case _ => traffic
  }

  /** A task is dropped while its flow is active. */
  predicate LosesFlow(tasks: map<nat, Task>, e: Event) {
    (e.Abort? || e.Panic?) && IsAt(tasks, e.task, Flowing)
  }

  function NextLost(lost: nat, tasks: map<nat, Task>, e: Event): nat {
    if LosesFlow(tasks, e) then lost + 1 else lost
  }

  function Reported(d: D.Diagnostics, report: Option<D.Event>): D.Diagnostics {
    if report.Some? then D.Apply(d, report.value) else d
  }

  function Logged(history: seq<D.Event>, report: Option<D.Event>): seq<D.Event> {
    if report.Some? then history + [report.value] else history
  }

  function Step(s: System, e: Event): System {
    System(
      NextService(s.service, e),
      NextWorkers(s.workers, s.service, e),
      NextTasks(s.tasks, e),
      if e.Spawn? then s.spawned + {e.task} else s.spawned,
      Reported(s.diagnostics, Report(s.tasks, e)),
      Logged(s.history, Report(s.tasks, e)),
      NextTraffic(s.traffic, s.tasks, e),
      NextLost(s.lost, s.tasks, e))
  }

  predicate Run(s: System, trace: seq<Event>, t: System)
    decreases |trace|
  {
    if trace == [] then s == t
    else Enabled(s, trace[0]) && Run(Step(s, trace[0]), trace[1..], t)
  }

  // ---- Invariants ----

  /** Unjoined tasks belong to workers that have not returned, within the limit. */
  ghost predicate TasksInv(tasks: map<nat, Task>, workers: map<nat, Worker>, spawned: set<nat>) {
    && tasks.Keys <= spawned
    && (forall t :: t in tasks ==> tasks[t].worker in workers && !workers[tasks[t].worker].stage.Returned?)
    && (forall w :: |TasksOf(tasks, w)| <= MAX_CONNECTIONS)
  }

  /** The recorder is what its history makes it, and its totals account for every task. */
  ghost predicate CountsInv(d: D.Diagnostics, history: seq<D.Event>, tasks: map<nat, Task>, lost: nat) {
    && d == D.After(history)
    && (|history| <= MAX_U64 ==> Balanced(d.totals, |history|, |Running(tasks)| + lost))
  }

  predicate Balanced(t: D.Totals, bound: nat, open: nat) {
    t.accepted == t.completed + t.inFlight && t.inFlight == open && t.accepted <= bound
  }

  ghost predicate WorkersInv(workers: map<nat, Worker>) {
    forall w :: w in workers ==>
      && workers[w].ingressShutdowns == (if workers[w].stage.Returned? then 1 else 0)
      && (workers[w].signalled || workers[w].stage.Accepting?)
  }

  /** Only the owner has not been told to stop; alive besides it are only workers being stopped or abandoned. */
  ghost predicate ServiceInv(c: Service, workers: map<nat, Worker>) {
    && (c.owner.Some? ==> c.stopping.None? && c.owner.value in workers && !workers[c.owner.value].signalled)
    && (c.stopping.Some? ==> c.stopping.value in workers)
    && (forall w :: w in workers && !workers[w].signalled ==> c.owner == Some(w))
    && (forall w :: w in c.abandoned ==> w in workers && workers[w].signalled)
    && (forall w :: w in workers && !workers[w].stage.Returned? ==>
          Some(w) in {c.owner, c.stopping} || w in c.abandoned)
  }

  ghost predicate Inv(s: System) {
    && TasksInv(s.tasks, s.workers, s.spawned)
    && s.traffic.flows.Keys == FlowingTasks(s.tasks)
    && CountsInv(s.diagnostics, s.history, s.tasks, s.lost)
    && WorkersInv(s.workers)
    && ServiceInv(s.service, s.workers)
  }

  lemma InitialInv()
    ensures Inv(INITIAL)
  {
  }

  // ---- Steps ----

  lemma WorkersStep(s: System, e: Event)
    requires Enabled(s, e) && WorkersInv(s.workers) && ServiceInv(s.service, s.workers)
    ensures WorkersInv(Step(s, e).workers) && ServiceInv(Step(s, e).service, Step(s, e).workers)
  {
    hide NextTasks, NextTraffic, NextLost, Report, Reported, Logged, TasksOf, IsAt, HasRoom;
  }

  lemma MovesKeepOwners(tasks: map<nat, Task>, t: nat, p: Phase, w: nat)
    ensures TasksOf(MovedTo(tasks, t, p), w) == TasksOf(tasks, w)
  {
  }

  lemma SpawnAdds(tasks: map<nat, Task>, t: nat, w: nat, v: nat)
    requires t !in tasks
    ensures TasksOf(tasks[t := Task(v, Preparing)], w) == TasksOf(tasks, w) + if v == w then {t} else {}
    ensures t !in TasksOf(tasks, w)
  {
  }

  lemma JoinRemoves(tasks: map<nat, Task>, t: nat, w: nat)
    ensures TasksOf(tasks - {t}, w) == TasksOf(tasks, w) - {t}
  {
  }

  /** A worker's tasks grow only by its own accepted spawns and shrink only by joins. */
  lemma TasksOfStep(s: System, e: Event, w: nat)
    requires Enabled(s, e) && s.tasks.Keys <= s.spawned
    ensures var before, after := TasksOf(s.tasks, w), TasksOf(Step(s, e).tasks, w);
            if e.Spawn? && e.worker == w then e.task !in before && after == before + {e.task}
            else if e.Join? then after == before - {e.task}
            else after == before
  {
    hide NextService, NextWorkers, NextTraffic, NextLost, Report, Reported, Logged, TasksOf, MovedTo, HasRoom;
    match e
    case Spawn(v, t) => SpawnAdds(s.tasks, t, w, v);
    case Join(t) => JoinRemoves(s.tasks, t, w);
    case Prepare(t) => MovesKeepOwners(s.tasks, t, Prepared, w);
    case PrepareFail(t, _, observed) =>
      MovesKeepOwners(s.tasks, t, if observed.Some? then Failed(observed.value) else Ended, w);
    case ObserveFailure(t) => MovesKeepOwners(s.tasks, t, Ended, w);
    case StartFlow(t, _) => MovesKeepOwners(s.tasks, t, Flowing, w);
    case FinishFlow(t) => MovesKeepOwners(s.tasks, t, Finished, w);
    case RecordResult(t, _, _, _) => MovesKeepOwners(s.tasks, t, Ended, w);
    case Abort(t) => MovesKeepOwners(s.tasks, t, Ended, w);
    case Panic(t) => MovesKeepOwners(s.tasks, t, Ended, w);
    case _ =>
  }

  lemma CapStep(s: System, e: Event, w: nat)
    requires Enabled(s, e) && s.tasks.Keys <= s.spawned && |TasksOf(s.tasks, w)| <= MAX_CONNECTIONS
    ensures |TasksOf(Step(s, e).tasks, w)| <= MAX_CONNECTIONS
  {
    hide Step, TasksOf;
    TasksOfStep(s, e, w);
    var before, after := TasksOf(s.tasks, w), TasksOf(Step(s, e).tasks, w);
    if e.Join? && after != before {
      assert after < before;
      SubsetSize(after, before);
    }
  }

  lemma TasksStep(s: System, e: Event)
    requires Enabled(s, e) && TasksInv(s.tasks, s.workers, s.spawned)
    ensures TasksInv(Step(s, e).tasks, Step(s, e).workers, Step(s, e).spawned)
  {
    hide NextTraffic, NextLost, Report, Reported, Logged, NextService, TasksOf, HasRoom;
    var n := Step(s, e);
    forall w {
      CapStep(s, e, w);
    }
    forall t | t in n.tasks
      ensures n.tasks[t].worker in n.workers && !n.workers[n.tasks[t].worker].stage.Returned?
    {
      if e.Return? {
        NotOf(s.tasks, t, e.worker);
      }
    }
  }

  lemma NotOf(tasks: map<nat, Task>, t: nat, w: nat)
    requires t in tasks && TasksOf(tasks, w) == {}
    ensures tasks[t].worker != w
  {
    assert t !in TasksOf(tasks, w);
  }

  lemma FlowsStep(s: System, e: Event)
    requires Enabled(s, e) && s.tasks.Keys <= s.spawned && s.traffic.flows.Keys == FlowingTasks(s.tasks)
    ensures Step(s, e).traffic.flows.Keys == FlowingTasks(Step(s, e).tasks)
  {
    hide NextService, NextWorkers, NextLost, Report, Reported, Logged, TasksOf, W.Credited;
  }

  /** How a step changes the set of running tasks. */
  lemma RunningStep(s: System, e: Event)
    requires Enabled(s, e) && s.tasks.Keys <= s.spawned
    ensures var before, after := Running(s.tasks), Running(Step(s, e).tasks);
            if e.Prepare? then e.task !in before && after == before + {e.task}
            else if e.RecordResult? || LosesFlow(s.tasks, e)
            then e.task in before && after == before - {e.task}
            else after == before
  {
    hide NextService, NextWorkers, NextTraffic, Report, Reported, Logged, TasksOf;
  }

  lemma AfterReport(history: seq<D.Event>, report: Option<D.Event>)
    ensures D.After(Logged(history, report)) == Reported(D.After(history), report)
  {
    hide D.Apply;
    if report.Some? {
      assert (history + [report.value])[..|history|] == history;
    }
  }

  /** Each report moves the totals by exactly one, as long as they have not reached 64 bits. */
  lemma TotalsStep(d: D.Diagnostics, e: D.Event, bound: nat, open: nat)
    requires Balanced(d.totals, bound, open) && bound < MAX_U64 && (e.FlowResult? ==> open > 0)
    ensures Balanced(D.Apply(d, e).totals, bound + 1,
                     if e.FlowAccepted? then open + 1 else if e.FlowResult? then open - 1 else open)
  {
    hide D.Counted, D.Completing, C.PushBounded, D.RecordOf;
  }

  lemma CountsStep(s: System, e: Event)
    requires Enabled(s, e) && s.tasks.Keys <= s.spawned && CountsInv(s.diagnostics, s.history, s.tasks, s.lost)
    ensures CountsInv(Step(s, e).diagnostics, Step(s, e).history, Step(s, e).tasks, Step(s, e).lost)
  {
    hide NextService, NextWorkers, NextTraffic, NextTasks, TasksOf, Running, D.Apply, D.After;
    AfterReport(s.history, Report(s.tasks, e));
    RunningStep(s, e);
    var n := Step(s, e);
    if |n.history| <= MAX_U64 && Report(s.tasks, e).Some? {
      TotalsStep(s.diagnostics, Report(s.tasks, e).value, |s.history|, |Running(s.tasks)| + s.lost);
    }
  }

  lemma StepInv(s: System, e: Event)
    requires Inv(s) && Enabled(s, e)
    ensures Inv(Step(s, e))
  {
    hide Enabled, Step, CountsInv, WorkersInv, ServiceInv, FlowingTasks;
    assert s.tasks.Keys <= s.spawned;
    WorkersStep(s, e);
    TasksStep(s, e);
    FlowsStep(s, e);
    CountsStep(s, e);
  }

  lemma {:induction false} RunInv(s: System, trace: seq<Event>, t: System)
    requires Inv(s) && Run(s, trace, t)
    ensures Inv(t)
    decreases |trace|
  {
    hide Enabled, Step, Inv;
    if trace != [] {
      StepInv(s, trace[0]);
      RunInv(Step(s, trace[0]), trace[1..], t);
    }
  }

  lemma {:induction false} RunAppend(s: System, trace: seq<Event>, t: System, e: Event)
    requires Run(s, trace, t) && Enabled(t, e)
    ensures Run(s, trace + [e], Step(t, e))
    decreases |trace|
  {
    hide Enabled, Step;
    if trace == [] {
      assert Run(Step(t, e), [], Step(t, e));
      assert [e][1..] == [];
    } else {
      RunAppend(Step(s, trace[0]), trace[1..], t, e);
      assert (trace + [e])[1..] == trace[1..] + [e];
    }
  }
}
