/** What holds of every run of proxy services, workers and tasks. */
module ProxyTheorems {
  import opened Common
  import D = FlowDiagnosing
  import T = TrafficMonitoring
  import opened ProxyMachine

  /** Aborts and panics of a run that hit a task whose flow is active. */
  function Losses(s: System, trace: seq<Event>): nat
    decreases |trace|
  {
    if trace == [] then 0
    else (if LosesFlow(s.tasks, trace[0]) then 1 else 0) + Losses(Step(s, trace[0]), trace[1..])
  }

  lemma {:induction false} LostAreLosses(s: System, trace: seq<Event>, t: System)
    requires Run(s, trace, t)
    ensures t.lost == s.lost + Losses(s, trace)
    decreases |trace|
  {
    hide Enabled;
    if trace != [] {
      LostAreLosses(Step(s, trace[0]), trace[1..], t);
    }
  }

  lemma InitiallyNoneLost()
    ensures INITIAL.lost == 0
  {
  }

  /** Records in the diagnostics are the completed flows, so the totals can be compared with them. */
  lemma {:induction false} CompletedAreRecords(history: seq<D.Event>)
    requires |history| <= MAX_U64
    ensures D.After(history).totals.completed == |D.Records(history)|
  {
    D.MapsAreTallies(history);
  }

  /**
   * Whole-system flow accounting. Unless 64-bit counters are exhausted: every accepted flow is
   * completed or in flight; in flight are the accepted flows of unjoined tasks and those that an abort
   * or panic hit while active; and the monitor shows exactly the flows between start and finish.
   */
  lemma FlowAccounting(trace: seq<Event>, t: System)
    requires Run(INITIAL, trace, t)
    ensures t.traffic.flows.Keys == FlowingTasks(t.tasks)
    ensures FlowingTasks(t.tasks) <= Running(t.tasks)
    ensures t.diagnostics == D.After(t.history)
    ensures |t.history| <= MAX_U64 ==>
              && t.diagnostics.totals.accepted == t.diagnostics.totals.completed + t.diagnostics.totals.inFlight
              && t.diagnostics.totals.completed == |D.Records(t.history)|
              && t.diagnostics.totals.inFlight == |Running(t.tasks)| + Losses(INITIAL, trace)
  {
    hide Run, D.After, D.Records, TasksInv, WorkersInv, ServiceInv, INITIAL;
    InitialInv();
    RunInv(INITIAL, trace, t);
    LostAreLosses(INITIAL, trace, t);
    InitiallyNoneLost();
    if |t.history| <= MAX_U64 {
      CompletedAreRecords(t.history);
    }
  }

  /**
   * A worker that has returned has joined all its tasks, shows no flow in the monitor and has shut
   * its ingress down exactly once; a worker that has not returned has not shut it down.
   */
  lemma ReturnedWorkersAreClean(trace: seq<Event>, t: System, w: nat)
    requires Run(INITIAL, trace, t) && w in t.workers
    ensures t.workers[w].ingressShutdowns == if t.workers[w].stage.Returned? then 1 else 0
    ensures t.workers[w].stage.Returned? ==> TasksOf(t.tasks, w) == {}
    ensures t.workers[w].stage.Returned? ==> forall f :: f in t.traffic.flows ==> f in t.tasks && t.tasks[f].worker != w
  {
    hide Run, CountsInv, ServiceInv;
    InitialInv();
    RunInv(INITIAL, trace, t);
    if t.workers[w].stage.Returned? {
      assert forall x :: x in t.tasks ==> t.tasks[x].worker != w;
      assert forall f :: f in t.traffic.flows ==> f in FlowingTasks(t.tasks);
    }
  }

  /**
   * Once every worker has returned nothing is active any more. The in-flight total is then the number
   * of aborts and panics that hit an active flow during the run, so it is back at zero exactly if no
   * such event happened.
   */
  lemma IdleAfterReturn(trace: seq<Event>, t: System)
    requires Run(INITIAL, trace, t)
    requires forall w :: w in t.workers ==> t.workers[w].stage.Returned?
    ensures t.tasks == map[] && t.traffic.flows == map[]
    ensures |t.history| <= MAX_U64 ==> t.diagnostics.totals.inFlight == Losses(INITIAL, trace)
  {
    hide Run, D.After, ServiceInv, WorkersInv, TasksInv, FlowingTasks, Running, INITIAL;
    InitialInv();
    RunInv(INITIAL, trace, t);
    LostAreLosses(INITIAL, trace, t);
    InitiallyNoneLost();
    NothingLeft(t.tasks, t.workers, t.spawned);
    assert t.traffic.flows.Keys == {};
  }

  predicate NobodyAborting(workers: map<nat, Worker>) {
    forall w :: w in workers ==> !workers[w].stage.Aborting?
  }

  lemma NoAbortStep(s: System, e: Event)
    requires Enabled(s, e) && NobodyAborting(s.workers) && !e.DrainTimeout? && !e.Panic?
    ensures NobodyAborting(Step(s, e).workers) && !LosesFlow(s.tasks, e)
  {
    hide NextTasks, NextTraffic, NextLost, Report, Reported, Logged, TasksOf, HasRoom, NextService;
  }

  /** Without a drain timeout and a panic no flow is ever lost. */
  lemma {:induction false} NoTimeoutNoLoss(s: System, trace: seq<Event>, t: System)
    requires Run(s, trace, t) && NobodyAborting(s.workers)
    requires forall e :: e in trace ==> !e.DrainTimeout? && !e.Panic?
    ensures Losses(s, trace) == 0
    decreases |trace|
  {
    hide Enabled, Step, LosesFlow, NobodyAborting;
    if trace != [] {
      assert trace[0] in trace && forall e :: e in trace[1..] ==> e in trace;
      NoAbortStep(s, trace[0]);
      NoTimeoutNoLoss(Step(s, trace[0]), trace[1..], t);
    }
  }

  /** A worker with one active flow. */
  lemma OneFlowRunning() returns (trace: seq<Event>, t: System)
    ensures Run(INITIAL, trace, t) && |t.history| == 1
    ensures t.service == Service(Some(0), None, {}) && t.workers == map[0 := Worker("p", false, Accepting, 0)]
    ensures t.tasks == map[0 := Task(0, Flowing)] && t.lost == 0
  {
    hide D.Apply, D.After, T.Started;
    var e0, e1, e2, e3 := StartWorker(0, "p"), Spawn(0, 0), Prepare(0), StartFlow(0, "");
    var s1 := Step(INITIAL, e0);
    assert TasksOf(s1.tasks, 0) == {};
    var s2 := Step(s1, e1);
    var s3 := Step(s2, e2);
    t := Step(s3, e3);
    RunAppend(INITIAL, [], INITIAL, e0);
    RunAppend(INITIAL, [e0], s1, e1);
    RunAppend(INITIAL, [e0] + [e1], s2, e2);
    RunAppend(INITIAL, [e0] + [e1] + [e2], s3, e3);
    assert [] + [e0] == [e0];
    trace := [e0] + [e1] + [e2] + [e3];
  }

  /** The drain timeout expires while that flow is active. */
  lemma OneFlowAborting() returns (trace: seq<Event>, t: System)
    ensures Run(INITIAL, trace, t) && |t.history| == 1
    ensures t.workers == map[0 := Worker("p", true, Aborting, 0)]
    ensures t.tasks == map[0 := Task(0, Flowing)] && t.lost == 0
  {
    hide D.Apply, D.After, INITIAL;
    var before, s := OneFlowRunning();
    var e0, e1, e2 := BeginStop, ReceiveShutdown(0), DrainTimeout(0);
    assert 0 in TasksOf(s.tasks, 0);
    var s1 := Step(s, e0);
    var s2 := Step(s1, e1);
    t := Step(s2, e2);
    RunAppend(INITIAL, before, s, e0);
    RunAppend(INITIAL, before + [e0], s1, e1);
    RunAppend(INITIAL, before + [e0] + [e1], s2, e2);
    trace := before + [e0] + [e1] + [e2];
  }

  /** The flow is aborted, its task joined, and the worker returns. */
  lemma OneFlowLost() returns (trace: seq<Event>, t: System)
    ensures Run(INITIAL, trace, t) && |t.history| == 1
    ensures t.workers == map[0 := Worker("p", true, Returned, 1)] && t.lost == 1
  {
    hide D.Apply, D.After, INITIAL, Running, FlowingTasks, T.Finished;
    var before, s := OneFlowAborting();
    var e0, e1, e2 := Abort(0), Join(0), Return(0);
    var s1 := Step(s, e0);
    var s2 := Step(s1, e1);
    assert TasksOf(s2.tasks, 0) == {};
    t := Step(s2, e2);
    RunAppend(INITIAL, before, s, e0);
    RunAppend(INITIAL, before + [e0], s1, e1);
    RunAppend(INITIAL, before + [e0] + [e1], s2, e2);
    trace := before + [e0] + [e1] + [e2];
  }

  /** A flow aborted after the drain timeout is in flight for ever: the worker has returned, and one remains. */
  lemma AbortedFlowStaysInFlight() returns (trace: seq<Event>, t: System)
    ensures Run(INITIAL, trace, t) && t.workers == map[0 := Worker("p", true, Returned, 1)]
    ensures t.diagnostics.totals.inFlight == 1
  {
    hide Run, INITIAL, Losses;
    trace, t := OneFlowLost();
    IdleAfterReturn(trace, t);
    LostAreLosses(INITIAL, trace, t);
    InitiallyNoneLost();
  }

  lemma NothingLeft(tasks: map<nat, Task>, workers: map<nat, Worker>, spawned: set<nat>)
    requires TasksInv(tasks, workers, spawned)
    requires forall w :: w in workers ==> workers[w].stage.Returned?
    ensures tasks == map[] && FlowingTasks(tasks) == {} && Running(tasks) == {}
  {
    assert forall x :: x in tasks ==> tasks[x].worker in workers;
    assert tasks.Keys == {};
  }

  /** No worker ever holds more unjoined connections than the limit. */
  lemma ConnectionsBounded(trace: seq<Event>, t: System, w: nat)
    requires Run(INITIAL, trace, t)
    ensures |TasksOf(t.tasks, w)| <= MAX_CONNECTIONS
  {
    hide Run, TasksOf, CountsInv, ServiceInv, WorkersInv, FlowingTasks;
    InitialInv();
    RunInv(INITIAL, trace, t);
  }

  lemma StageStep(s: System, e: Event, w: nat)
    requires Enabled(s, e) && w in s.workers && !s.workers[w].stage.Accepting?
    ensures w in Step(s, e).workers && !Step(s, e).workers[w].stage.Accepting?
    ensures s.workers[w].stage.Returned? ==> Step(s, e).workers[w].stage.Returned?
    ensures !(e.Spawn? && e.worker == w)
  {
    hide NextTasks, NextTraffic, NextLost, Report, Reported, Logged, TasksOf, IsAt, HasRoom, NextService;
  }

  /** From the moment a worker has received its shutdown it spawns nothing: its tasks only disappear. */
  lemma {:induction false} NoSpawnAfterShutdown(s: System, trace: seq<Event>, t: System, w: nat)
    requires Inv(s) && Run(s, trace, t) && w in s.workers && !s.workers[w].stage.Accepting?
    ensures w in t.workers && !t.workers[w].stage.Accepting?
    ensures TasksOf(t.tasks, w) <= TasksOf(s.tasks, w)
    ensures s.workers[w].stage.Returned? ==> t.workers[w].stage.Returned?
    decreases |trace|
  {
    hide Enabled, Step, TasksOf, CountsInv, WorkersInv, ServiceInv, FlowingTasks;
    if trace != [] {
      StageStep(s, trace[0], w);
      TasksOfStep(s, trace[0], w);
      StepInv(s, trace[0]);
      NoSpawnAfterShutdown(Step(s, trace[0]), trace[1..], t, w);
    }
  }

  function Alive(workers: map<nat, Worker>): set<nat> {
    set w | w in workers && !workers[w].stage.Returned?
  }

  function Unsignalled(workers: map<nat, Worker>): set<nat> {
    set w | w in workers && !workers[w].signalled
  }

  predicate OneAlive(workers: map<nat, Worker>) {
    forall v, w :: v in Alive(workers) && w in Alive(workers) ==> v == w
  }

  function AsSet(o: Option<nat>): set<nat> {
    if o.Some? then {o.value} else {}
  }

  /** Every worker whose `stop` call was dropped has returned by now. */
  predicate AbandonedReturned(s: System) {
    forall w :: w in s.service.abandoned ==> InStage(s.workers, w, Returned)
  }

  /**
   * At most one worker has not been told to stop. Alive are only the service's own worker, the one a
   * stop waits for, and those of dropped stops that have not returned; so at most one is alive as soon
   * as those have.
   */
  lemma OneWorker(trace: seq<Event>, t: System)
    requires Run(INITIAL, trace, t)
    ensures forall v, w :: v in Unsignalled(t.workers) && w in Unsignalled(t.workers) ==> v == w
    ensures Alive(t.workers) <= AsSet(t.service.owner) + AsSet(t.service.stopping) + t.service.abandoned
    ensures AbandonedReturned(t) ==> OneAlive(t.workers)
    ensures AbandonedReturned(t) && t.service.owner.None? && t.service.stopping.None? ==> Alive(t.workers) == {}
  {
    hide Run, TasksInv, CountsInv, FlowingTasks, WorkersInv;
    InitialInv();
    RunInv(INITIAL, trace, t);
  }

  /** A start leaves one worker alive exactly if every worker of a dropped stop has returned. */
  lemma StartKeepsOneAlive(s: System, w: nat, plan: string)
    requires Inv(s) && Enabled(s, StartWorker(w, plan))
    ensures OneAlive(Step(s, StartWorker(w, plan)).workers) <==> AbandonedReturned(s)
  {
    hide TasksInv, CountsInv, FlowingTasks, TasksOf, NextTasks, NextTraffic, NextLost, Report, Reported, Logged;
    var n := Step(s, StartWorker(w, plan));
    assert w in Alive(n.workers);
    if OneAlive(n.workers) {
      forall v | v in s.service.abandoned
        ensures InStage(s.workers, v, Returned)
      {
        assert v in n.workers && n.workers[v] == s.workers[v];
        assert v in Alive(n.workers) ==> v == w;
      }
    }
  }

  /** Nothing but a start brings a worker to life. */
  lemma OthersKeepOneAlive(s: System, e: Event)
    requires Enabled(s, e) && !e.StartWorker?
    ensures Alive(Step(s, e).workers) <= Alive(s.workers)
  {
    hide NextTasks, NextTraffic, NextLost, Report, Reported, Logged, TasksOf, IsAt, HasRoom, NextService;
  }

  /** In every state of the run at most one worker is alive. */
  predicate OneAliveThroughout(s: System, trace: seq<Event>)
    decreases |trace|
  {
    OneAlive(s.workers) && (trace != [] ==> OneAliveThroughout(Step(s, trace[0]), trace[1..]))
  }

  /** At every start of the run, every worker of a dropped stop has returned. */
  predicate StartsWait(s: System, trace: seq<Event>)
    decreases |trace|
  {
    trace != [] ==>
      && (trace[0].StartWorker? ==> AbandonedReturned(s))
      && StartsWait(Step(s, trace[0]), trace[1..])
  }

  lemma {:induction false} OneWorkerFrom(s: System, trace: seq<Event>, t: System)
    requires Inv(s) && Run(s, trace, t) && OneAlive(s.workers)
    ensures OneAliveThroughout(s, trace) <==> StartsWait(s, trace)
    decreases |trace|
  {
    hide Inv, Enabled, Step, OneAlive, AbandonedReturned, Alive;
    if trace != [] {
      var e := trace[0];
      StepInv(s, e);
      if e.StartWorker? {
        StartKeepsOneAlive(s, e.worker, e.plan);
      } else {
        OthersKeepOneAlive(s, e);
        FewerAlive(s.workers, Step(s, e).workers);
      }
      if OneAlive(Step(s, e).workers) {
        OneWorkerFrom(Step(s, e), trace[1..], t);
      }
    }
  }

  lemma FewerAlive(before: map<nat, Worker>, after: map<nat, Worker>)
    requires Alive(after) <= Alive(before) && OneAlive(before)
    ensures OneAlive(after)
  {
    hide Alive;
  }

  lemma NobodyYet()
    ensures OneAlive(INITIAL.workers)
  {
  }

  /**
   * Exactly when the service keeps to one worker: over a whole run at most one is alive at any time if
   * and only if no start happens before the worker of every dropped stop has returned.
   */
  lemma OneWorkerIffStartsWait(trace: seq<Event>, t: System)
    requires Run(INITIAL, trace, t)
    ensures OneAliveThroughout(INITIAL, trace) <==> StartsWait(INITIAL, trace)
  {
    hide Run, Inv, OneAliveThroughout, StartsWait, INITIAL, OneAlive;
    InitialInv();
    NobodyYet();
    OneWorkerFrom(INITIAL, trace, t);
  }

  /** A stop that is dropped while it waits leaves its worker draining next to a newly started one. */
  lemma AbandonedStopOverlaps() returns (trace: seq<Event>, t: System)
    ensures Run(INITIAL, trace, t) && !OneAlive(t.workers)
  {
    hide TasksOf, D.After;
    var e0, e1, e2, e3 := StartWorker(0, "p"), BeginStop, AbandonStop, StartWorker(1, "p");
    var s1 := Step(INITIAL, e0);
    var s2 := Step(s1, e1);
    var s3 := Step(s2, e2);
    t := Step(s3, e3);
    RunAppend(INITIAL, [], INITIAL, e0);
    RunAppend(INITIAL, [e0], s1, e1);
    RunAppend(INITIAL, [e0] + [e1], s2, e2);
    RunAppend(INITIAL, [e0] + [e1] + [e2], s3, e3);
    assert [] + [e0] == [e0];
    trace := [e0] + [e1] + [e2] + [e3];
    assert 0 in Alive(t.workers) && 1 in Alive(t.workers);
  }

  // ---- A drain can always be finished ----

  lemma {:induction false} RunJoin(s: System, a: seq<Event>, m: System, b: seq<Event>, t: System)
    requires Run(s, a, m) && Run(m, b, t)
    ensures Run(s, a + b, t)
    decreases |a|
  {
    hide Enabled, Step;
    if a == [] {
      assert a + b == b;
    } else {
      RunJoin(Step(s, a[0]), a[1..], m, b, t);
      assert (a + b)[1..] == a[1..] + b;
    }
  }

  /** One move of a task of an aborting worker that needs no peer: start, abort, record, or join. */
  function Nudge(phase: Phase, t: nat): Event {
    match phase
    case Preparing => Abort(t)
    case Failed(_) => ObserveFailure(t)
    case Prepared => StartFlow(t, "")
    case Flowing => Abort(t)
    case Finished => RecordResult(t, D.Context("", D.Destination("", None), None, None), Err(""), "")
    case Ended => Join(t)
  }

  function Distance(phase: Phase): nat {
    match phase
    case Prepared => 3
    case Ended => 1
    case _ => 2
  }

  lemma NudgeMoves(s: System, w: nat, t: nat)
    requires InStage(s.workers, w, Aborting) && t in s.tasks && s.tasks[t].worker == w
    ensures var e := Nudge(s.tasks[t].phase, t); var n := Step(s, e);
            && Enabled(s, e) && n.workers == s.workers
            && (if s.tasks[t].phase.Ended? then t !in n.tasks
                else t in n.tasks && n.tasks[t].worker == w && Distance(n.tasks[t].phase) < Distance(s.tasks[t].phase))
  {
    hide NextTraffic, NextLost, Report, Reported, Logged, TasksOf, NextService;
  }

  lemma {:induction false} ClearTask(s: System, w: nat, t: nat) returns (trace: seq<Event>, n: System)
    requires Inv(s) && InStage(s.workers, w, Aborting) && t in TasksOf(s.tasks, w)
    ensures Run(s, trace, n) && Inv(n) && n.workers == s.workers
    ensures TasksOf(n.tasks, w) == TasksOf(s.tasks, w) - {t}
    ensures |trace| <= Distance(s.tasks[t].phase)
    decreases Distance(s.tasks[t].phase)
  {
    hide Enabled, Step, Inv, Nudge;
    var e := Nudge(s.tasks[t].phase, t);
    var m := Step(s, e);
    NudgeMoves(s, w, t);
    NudgeOwners(s, w, t);
    StepInv(s, e);
    if s.tasks[t].phase.Ended? {
      trace, n := [e], m;
      assert Run(m, [], m) && [e][1..] == [];
    } else {
      var rest;
      rest, n := ClearTask(m, w, t);
      trace := [e] + rest;
      assert trace[1..] == rest;
    }
  }

  lemma NudgeOwners(s: System, w: nat, t: nat)
    requires Inv(s) && InStage(s.workers, w, Aborting) && t in s.tasks && s.tasks[t].worker == w
    ensures var e := Nudge(s.tasks[t].phase, t);
            TasksOf(Step(s, e).tasks, w) == TasksOf(s.tasks, w) - if s.tasks[t].phase.Ended? then {t} else {}
  {
    hide Enabled, Step, TasksOf, CountsInv, WorkersInv, ServiceInv, FlowingTasks;
    NudgeMoves(s, w, t);
    TasksOfStep(s, Nudge(s.tasks[t].phase, t), w);
  }

  /**
   * After its drain timeout a worker can always finish by itself: whatever its tasks are doing, a
   * bounded number of steps that wait for no peer joins all of them and returns.
   */
  lemma {:induction false} AbortingWorkerReturns(s: System, w: nat) returns (trace: seq<Event>, n: System)
    requires Inv(s) && InStage(s.workers, w, Aborting)
    ensures Run(s, trace, n) && Inv(n) && InStage(n.workers, w, Returned)
    ensures |trace| <= 3 * |TasksOf(s.tasks, w)| + 1
    decreases |TasksOf(s.tasks, w)|
  {
    hide Inv, Enabled, Step, Distance;
    if TasksOf(s.tasks, w) == {} {
      ReturnStep(s, w);
      StepInv(s, Return(w));
      n := Step(s, Return(w));
      trace := [Return(w)];
      assert Run(n, [], n) && trace[1..] == [];
    } else {
      var t :| t in TasksOf(s.tasks, w);
      var first, m := ClearTask(s, w, t);
      FewSteps(s.tasks[t].phase);
      var rest;
      rest, n := AbortingWorkerReturns(m, w);
      RunJoin(s, first, m, rest, n);
      trace := first + rest;
    }
  }

  lemma FewSteps(p: Phase)
    ensures Distance(p) <= 3
  {
  }

  lemma ReturnStep(s: System, w: nat)
    requires InStage(s.workers, w, Aborting) && TasksOf(s.tasks, w) == {}
    ensures Enabled(s, Return(w)) && InStage(Step(s, Return(w)).workers, w, Returned)
  {
    hide TasksOf;
  }

  // ---- No drain goes on for ever ----

  /** Steps that a task has left at most, its join included. */
  function StepsLeft(p: Phase): nat {
    match p
    case Preparing => 5
    case Failed(_) => 2
    case Prepared => 4
    case Flowing => 3
    case Finished => 2
    case Ended => 1
  }

  ghost function SomeTask(ids: set<nat>): (t: nat)
    requires ids != {}
    ensures t in ids
  {
    var t :| t in ids;
    t
  }

  /** Steps left of some tasks together. */
  ghost function Work(tasks: map<nat, Task>, ids: set<nat>): nat {
    if ids == {} then 0
    else
      var t := SomeTask(ids);
      (if t in tasks then StepsLeft(tasks[t].phase) else 0) + Work(tasks, ids - {t})
  }

  lemma {:induction false} WorkWithout(tasks: map<nat, Task>, ids: set<nat>, t: nat)
    requires t in ids && t in tasks
    ensures Work(tasks, ids) == StepsLeft(tasks[t].phase) + Work(tasks, ids - {t})
    decreases |ids|
  {
    var p := SomeTask(ids);
    if p != t {
      WorkWithout(tasks, ids - {p}, t);
      assert ids - {p} - {t} == ids - {t} - {p};
      WorkSplit(tasks, ids - {t}, p);
    }
  }

  lemma {:induction false} WorkSplit(tasks: map<nat, Task>, ids: set<nat>, t: nat)
    requires t in ids
    ensures Work(tasks, ids) == (if t in tasks then StepsLeft(tasks[t].phase) else 0) + Work(tasks, ids - {t})
    decreases |ids|
  {
    var p := SomeTask(ids);
    if p != t {
      WorkSplit(tasks, ids - {p}, t);
      assert ids - {p} - {t} == ids - {t} - {p};
      WorkSplit(tasks, ids - {t}, p);
    }
  }

  lemma {:induction false} SameWork(a: map<nat, Task>, b: map<nat, Task>, ids: set<nat>)
    requires forall t :: t in ids ==> Get(a, t) == Get(b, t)
    ensures Work(a, ids) == Work(b, ids)
    decreases |ids|
  {
    if ids != {} {
      SameWork(a, b, ids - {SomeTask(ids)});
    }
  }

  lemma {:induction false} WorkBounded(tasks: map<nat, Task>, ids: set<nat>)
    ensures Work(tasks, ids) <= 5 * |ids|
    decreases |ids|
  {
    if ids != {} {
      var t := SomeTask(ids);
      WorkBounded(tasks, ids - {t});
    }
  }

  /** The step moves or joins a task of the worker; bytes are no step of a task. */
  predicate Moves(s: System, e: Event, w: nat) {
    match e
    case Join(t) => OfWorker(s.tasks, t, w)
    case Prepare(t) => OfWorker(s.tasks, t, w)
    case PrepareFail(t, _, _) => OfWorker(s.tasks, t, w)
    case ObserveFailure(t) => OfWorker(s.tasks, t, w)
    case StartFlow(t, _) => OfWorker(s.tasks, t, w)
    case FinishFlow(t) => OfWorker(s.tasks, t, w)
    case RecordResult(t, _, _, _) => OfWorker(s.tasks, t, w)
    case Abort(t) => OfWorker(s.tasks, t, w)
    case Panic(t) => OfWorker(s.tasks, t, w)
    case _ => false
  }

  predicate OfWorker(tasks: map<nat, Task>, t: nat, w: nat) {
    t in tasks && tasks[t].worker == w
  }

  /** Such a step moves one task closer to its end and leaves the others of the worker alone. */
  lemma MoveStep(s: System, e: Event, w: nat)
    requires Enabled(s, e) && Moves(s, e, w)
    ensures e.task in s.tasks
    ensures forall t :: t != e.task ==> Get(Step(s, e).tasks, t) == Get(s.tasks, t)
    ensures e.task in Step(s, e).tasks ==>
              StepsLeft(Step(s, e).tasks[e.task].phase) < StepsLeft(s.tasks[e.task].phase)
  {
    hide NextService, NextWorkers, NextTraffic, NextLost, Report, Reported, Logged, TasksOf, HasRoom;
  }

  lemma OtherStep(s: System, e: Event, w: nat)
    requires Enabled(s, e) && s.tasks.Keys <= s.spawned && !Moves(s, e, w) && !(e.Spawn? && e.worker == w)
    ensures forall t :: t in TasksOf(s.tasks, w) ==> Get(Step(s, e).tasks, t) == Get(s.tasks, t)
  {
    hide NextService, NextWorkers, NextTraffic, NextLost, Report, Reported, Logged, HasRoom;
  }

  ghost function WorkOf(s: System, w: nat): nat {
    Work(s.tasks, TasksOf(s.tasks, w))
  }

  lemma WorkStep(s: System, e: Event, w: nat)
    requires Enabled(s, e) && s.tasks.Keys <= s.spawned && !(e.Spawn? && e.worker == w)
    ensures WorkOf(Step(s, e), w) + (if Moves(s, e, w) then 1 else 0) <= WorkOf(s, w)
  {
    hide Enabled, Step, TasksOf, StepsLeft;
    var n := Step(s, e);
    var ids, ids' := TasksOf(s.tasks, w), TasksOf(n.tasks, w);
    TasksOfStep(s, e, w);
    if Moves(s, e, w) {
      MoveStep(s, e, w);
      MovedIsOwn(s, e, w);
      var t := e.task;
      WorkWithout(s.tasks, ids, t);
      SameWork(s.tasks, n.tasks, ids - {t});
      if t in ids' {
        OwnTask(n.tasks, t, w);
        WorkWithout(n.tasks, ids', t);
        assert ids' - {t} == ids - {t};
      } else {
        assert ids' == ids - {t};
        SomeStepLeft(s.tasks[t].phase);
      }
    } else {
      OtherStep(s, e, w);
      if e.Join? {
        JoinedElsewhere(s, e, w);
        assert ids - {e.task} == ids;
      }
      SameWork(s.tasks, n.tasks, ids);
    }
  }

  lemma SomeStepLeft(p: Phase)
    ensures StepsLeft(p) > 0
  {
  }

  lemma OwnTask(tasks: map<nat, Task>, t: nat, w: nat)
    ensures t in TasksOf(tasks, w) <==> OfWorker(tasks, t, w)
  {
  }

  lemma MovedIsOwn(s: System, e: Event, w: nat)
    requires Moves(s, e, w)
    ensures e.task in TasksOf(s.tasks, w) && !e.Spawn?
  {
  }

  lemma JoinedElsewhere(s: System, e: Event, w: nat)
    requires !Moves(s, e, w) && e.Join?
    ensures e.task !in TasksOf(s.tasks, w)
  {
  }

  function MovesOf(s: System, trace: seq<Event>, w: nat): nat
    decreases |trace|
  {
    if trace == [] then 0
    else (if Moves(s, trace[0], w) then 1 else 0) + MovesOf(Step(s, trace[0]), trace[1..], w)
  }

  /**
   * No drain goes on for ever: in every run after a worker has received its shutdown, whatever its peers
   * and everybody else do, its tasks make at most five steps each, joins included.
   */
  lemma {:induction false} DrainsAreBounded(s: System, trace: seq<Event>, t: System, w: nat)
    requires Inv(s) && Run(s, trace, t) && w in s.workers && !s.workers[w].stage.Accepting?
    ensures MovesOf(s, trace, w) + WorkOf(t, w) <= WorkOf(s, w) <= 5 * |TasksOf(s.tasks, w)|
    decreases |trace|
  {
    hide Enabled, Step, TasksOf, CountsInv, WorkersInv, ServiceInv, FlowingTasks, Moves, Work;
    WorkBounded(s.tasks, TasksOf(s.tasks, w));
    if trace != [] {
      StageStep(s, trace[0], w);
      WorkStep(s, trace[0], w);
      StepInv(s, trace[0]);
      DrainsAreBounded(Step(s, trace[0]), trace[1..], t, w);
    }
  }
}
