/**
 * The proxy service and its worker loop as objects. Whatever the runtime offers them, they take only
 * steps of the proxy machine, so every theorem about its runs holds of them.
 */
module ProxyServing {
  import opened Common
  import D = FlowDiagnosing
  import opened ProxyMachine

  /** What the runtime schedules around the service: the shared state and the run that led to it. */
  class Runtime {
    var state: System
    ghost var trace: seq<Event>

    ghost predicate Valid()
      reads this
    {
      Run(INITIAL, trace, state)
    }

    constructor ()
      ensures Valid() && state == INITIAL && trace == []
    {
      state, trace := INITIAL, [];
    }

    method Do(e: Event)
      requires Valid() && Enabled(state, e)
      modifies this
      ensures Valid() && state == Step(old(state), e) && trace == old(trace) + [e]
    {
      hide Step, Enabled, INITIAL;
      RunAppend(INITIAL, trace, state, e);
      state := Step(state, e);
      trace := trace + [e];
    }

    /** An event of somebody else, which happens if it can. */
    method Offer(e: Event)
      requires Valid()
      modifies this
      ensures Valid() && state == Offered(old(state), e)
      ensures trace == old(trace) + if Enabled(old(state), e) then [e] else []
    {
      hide Step, Enabled, Run;
      if Enabled(state, e) {
        Do(e);
      }
    }
  }

  function Offered(s: System, e: Event): System {
    if Enabled(s, e) then Step(s, e) else s
  }

  /** All events of a list offered in turn. */
  function OfferedAll(s: System, events: seq<Event>): System {
    if events == [] then s else Offered(OfferedAll(s, events[..|events| - 1]), Last(events))
  }

  lemma OfferedNext(s: System, events: seq<Event>, i: nat)
    requires i < |events|
    ensures OfferedAll(s, events[..i + 1]) == Offered(OfferedAll(s, events[..i]), events[i])
  {
    assert events[..i + 1][..i] == events[..i];
  }

  lemma {:induction false} OfferedConcat(s: System, a: seq<Event>, b: seq<Event>)
    ensures OfferedAll(OfferedAll(s, a), b) == OfferedAll(s, a + b)
  {
    hide Offered;
    if b == [] {
      assert a + b == a;
    } else {
      OfferedConcat(s, a, b[..|b| - 1]);
      assert (a + b)[..|a + b| - 1] == a + b[..|b| - 1];
    }
  }

  /** Events that are decisions of worker `w`'s own loop. */
  predicate Own(s: System, e: Event, w: nat) {
    match e
    case StartWorker(v, _) => v == w
    case ReceiveShutdown(v) => v == w
    case Spawn(v, _) => v == w
    case AcceptError(v, _) => v == w
    case DrainTimeout(v) => v == w
    case Return(v) => v == w
    case Join(t) => t in s.tasks && s.tasks[t].worker == w
    case _ => false
  }

  lemma OthersKeep(s: System, e: Event, w: nat)
    requires !Own(s, e, w) && w in s.workers && s.tasks.Keys <= s.spawned
    ensures TasksOf(Offered(s, e).tasks, w) == TasksOf(s.tasks, w)
    ensures w in Offered(s, e).workers && Offered(s, e).workers[w].stage == s.workers[w].stage
  {
    hide TasksOf, NextTasks, NextTraffic, NextLost, Report, Reported, Logged, IsAt, HasRoom;
    if Enabled(s, e) {
      TasksOfStep(s, e, w);
      if e.Join? {
        NotTaskOf(s.tasks, e.task, w);
      }
    }
  }

  lemma NotTaskOf(tasks: map<nat, Task>, t: nat, w: nat)
    requires t in tasks ==> tasks[t].worker != w
    ensures t !in TasksOf(tasks, w)
  {
  }

  lemma KeysSpawned(trace: seq<Event>, s: System)
    requires Run(INITIAL, trace, s)
    ensures s.tasks.Keys <= s.spawned
  {
    hide Run, CountsInv, WorkersInv, ServiceInv, FlowingTasks, INITIAL;
    InitialInv();
    RunInv(INITIAL, trace, s);
  }

  lemma ErrorReported(s: System, w: nat, error: string)
    ensures Step(s, AcceptError(w, error)).diagnostics == D.AcceptFailed(s.diagnostics, error)
  {
    hide D.AcceptFailed, TasksOf, NextWorkers, NextTasks, NextTraffic;
  }

  class ProxyWorker {
    const id: nat
    const runtime: Runtime
    /** The spawned and not yet joined connection tasks. */
    var connections: set<nat>

    /** Its join set is the machine's; the rest of the machine is only read through the runtime. */
    ghost predicate Valid(stage: Stage)
      reads this, runtime
    {
      && runtime.Valid()
      && InStage(runtime.state.workers, id, stage)
      && connections == TasksOf(runtime.state.tasks, id)
    }

    constructor (id: nat, runtime: Runtime)
      requires runtime.Valid() && InStage(runtime.state.workers, id, Accepting)
      requires TasksOf(runtime.state.tasks, id) == {}
      ensures this.id == id && this.runtime == runtime && connections == {} && Valid(Accepting)
    {
      this.id, this.runtime, connections := id, runtime, {};
    }

    /**
     * Accepts until shutdown, drains, aborts after the timeout, and shuts the ingress down. Of the
     * arriving events, which are arbitrary, exactly the possible ones happen, up to the one that
     * leaves a stopped worker without connections; then, and only then, the worker is done.
     */
    method Run(arriving: seq<Event>) returns (done: bool)
      requires Valid(Accepting)
      modifies this`connections, runtime
      ensures runtime.Valid() && connections == TasksOf(runtime.state.tasks, id)
      ensures done ==> connections == {} && InStage(runtime.state.workers, id, Returned)
      ensures done ==> RanToReturn(old(runtime.state), arriving, runtime.state, id)
      ensures !done ==> runtime.state == OfferedAll(old(runtime.state), arriving) && !Idle(runtime.state, id)
    {
      hide TasksOf, Step, Enabled, ProxyMachine.Run, Own, Offered, INITIAL, OfferedAll, Idle, RanToReturn;
      ghost var before := runtime.state;
      var i := 0;
      var accepting := true;
      assert OfferedAll(before, arriving[..0]) == before by { assert arriving[..0] == []; NoneOffered(before); }
      while accepting && i < |arriving|
        invariant i <= |arriving| && Valid(if accepting then Accepting else Draining)
        invariant runtime.state == OfferedAll(before, arriving[..i])
        decreases |arriving| - i, accepting
      {
        var e := arriving[i];
        OfferedNext(before, arriving, i);
        i := i + 1;
        if !Own(runtime.state, e, id) {
          Yield(e, Accepting);
        } else {
          accepting := Select(e);
        }
      }
      if accepting {
        assert arriving[..i] == arriving;
        StillAccepting(runtime.state, id);
        return false;
      }
      ghost var drained: nat;
      ghost var middle := runtime.state;
      done, drained := DrainConnections(arriving[i..]);
      OfferedConcat(before, arriving[..i], arriving[i..][..drained]);
      assert arriving[..i] + arriving[i..][..drained] == arriving[..i + drained];
      if done {
        ghost var last := runtime.state;
        ShutDown();
        ReturnedNow(before, arriving, i + drained, last, runtime.state, id);
      } else {
        assert arriving[..i + drained] == arriving;
        NotIdle(runtime.state, id, connections);
      }
    }

    /** Lets somebody else take a step. */
    method Yield(e: Event, stage: Stage)
      requires Valid(stage) && !Own(runtime.state, e, id)
      modifies runtime
      ensures Valid(stage) && runtime.state == Offered(old(runtime.state), e)
    {
      hide TasksOf, Step, Enabled, ProxyMachine.Run, Own, Offered, INITIAL;
      KeysSpawned(runtime.trace, runtime.state);
      OthersKeep(runtime.state, e, id);
      runtime.Offer(e);
    }

    /** One turn of the accept loop: a branch is taken exactly if its guard and its event allow it. */
    method Select(e: Event) returns (accepting: bool)
      requires Valid(Accepting) && Own(runtime.state, e, id)
      modifies this`connections, runtime
      ensures Valid(if accepting then Accepting else Draining)
      ensures runtime.state == Offered(old(runtime.state), e)
      ensures e.AcceptError? && |old(connections)| < 256 ==>
                runtime.state.diagnostics == D.AcceptFailed(old(runtime.state.diagnostics), e.error)
    {
      hide TasksOf, ProxyMachine.Run, Step, INITIAL, HasRoom;
      NotNow(runtime.state, e, id);
      accepting := true;
      match e
      case ReceiveShutdown(_) =>
        if runtime.state.workers[id].signalled {
          StopAccepting();
          accepting := false;
        }
      case Spawn(_, t) => SpawnConnection(t);
      case AcceptError(_, error) => RecordAcceptError(error);
      case Join(t) => JoinNext(t, Accepting);
      case _ =>
    }

    method StopAccepting()
      requires Valid(Accepting) && runtime.state.workers[id].signalled
      modifies runtime
      ensures Valid(Draining) && runtime.state == Offered(old(runtime.state), ReceiveShutdown(id))
    {
      hide TasksOf, ProxyMachine.Run, NextTraffic, NextLost, Report, Reported, Logged, INITIAL, NextService;
      runtime.Do(ReceiveShutdown(id));
    }

    /** Accepts a connection if there is room for it. */
    method SpawnConnection(t: nat)
      requires Valid(Accepting)
      modifies this`connections, runtime
      ensures Valid(Accepting) && runtime.state == Offered(old(runtime.state), Spawn(id, t))
      ensures connections ==
              old(connections) + if |old(connections)| < 256 && t !in old(runtime.state.spawned) then {t} else {}
    {
      hide TasksOf, ProxyMachine.Run, NextTraffic, NextLost, Report, Reported, Logged, INITIAL, NextTasks, NextService;
      KeysSpawned(runtime.trace, runtime.state);
      if |connections| < MAX_CONNECTIONS && t !in runtime.state.spawned {
        TasksOfStep(runtime.state, Spawn(id, t), id);
        runtime.Do(Spawn(id, t));
        connections := connections + {t};
      }
    }

    method RecordAcceptError(error: string)
      requires Valid(Accepting)
      modifies runtime
      ensures Valid(Accepting) && runtime.state == Offered(old(runtime.state), AcceptError(id, error))
      ensures var d, d' := old(runtime.state.diagnostics), runtime.state.diagnostics;
              d' == if |connections| < 256 then D.AcceptFailed(d, error) else d
    {
      hide TasksOf, ProxyMachine.Run, NextTraffic, NextLost, Report, Reported, Logged, INITIAL, NextService;
      if |connections| < MAX_CONNECTIONS {
        ErrorReported(runtime.state, id, error);
        runtime.Do(AcceptError(id, error));
      }
    }

    /** Takes a task that has ended out of the join set. */
    method JoinNext(t: nat, stage: Stage)
      requires Valid(stage)
      modifies this`connections, runtime
      ensures Valid(stage) && runtime.state == Offered(old(runtime.state), Join(t))
      ensures connections <= old(connections)
    {
      hide TasksOf, ProxyMachine.Run, NextTraffic, NextLost, Report, Reported, Logged, INITIAL, MovedTo, NextService;
      KeysSpawned(runtime.trace, runtime.state);
      if IsAt(runtime.state.tasks, t, Ended) {
        TasksOfStep(runtime.state, Join(t), id);
        runtime.Do(Join(t));
        connections := connections - {t};
      }
    }

    /** Waits for the tasks, aborts what is left at the timeout, and waits again; spawns nothing. */
    method DrainConnections(arriving: seq<Event>) returns (done: bool, ghost used: nat)
      requires Valid(Draining)
      modifies this`connections, runtime
      ensures Valid(Draining) || Valid(Aborting)
      ensures connections <= old(connections) && (done <==> connections == {})
      ensures used <= |arriving| && (!done ==> used == |arriving|)
      ensures runtime.state == OfferedAll(old(runtime.state), arriving[..used])
      ensures done ==> Idle(runtime.state, id)
    {
      hide TasksOf, Step, Enabled, ProxyMachine.Run, Own, Offered, INITIAL, OfferedAll, Idle;
      ghost var before := runtime.state;
      var i := 0;
      var stage := Draining;
      assert OfferedAll(before, arriving[..0]) == before by { assert arriving[..0] == []; NoneOffered(before); }
      while connections != {} && i < |arriving|
        invariant stage in {Draining, Aborting} && Valid(stage)
        invariant i <= |arriving| && connections <= old(connections)
        invariant runtime.state == OfferedAll(before, arriving[..i])
      {
        var e := arriving[i];
        OfferedNext(before, arriving, i);
        i := i + 1;
        if !Own(runtime.state, e, id) {
          Yield(e, stage);
        } else if e.Join? {
          JoinNext(e.task, stage);
        } else if e == DrainTimeout(id) && stage == Draining {
          AbortAll();
          stage := Aborting;
        } else {
          NothingElse(runtime.state, e, id, stage, connections);
        }
      }
      done, used := connections == {}, i;
      if done {
        NowIdle(runtime.state, id, stage);
      }
    }

    method AbortAll()
      requires Valid(Draining) && connections != {}
      modifies runtime
      ensures Valid(Aborting) && runtime.state == Offered(old(runtime.state), DrainTimeout(id))
    {
      hide TasksOf, ProxyMachine.Run, NextTraffic, NextLost, Report, Reported, Logged, INITIAL, NextService;
      runtime.Do(DrainTimeout(id));
    }

    method ShutDown()
      requires (Valid(Draining) || Valid(Aborting)) && connections == {}
      modifies runtime
      ensures Valid(Returned) && runtime.state == Step(old(runtime.state), Return(id))
    {
      hide TasksOf, ProxyMachine.Run, NextTraffic, NextLost, Report, Reported, Logged, INITIAL, NextService;
      runtime.Do(Return(id));
    }
  }

  /** The worker has left its accept loop and has no connections. */
  predicate Idle(s: System, w: nat) {
    (InStage(s.workers, w, Draining) || InStage(s.workers, w, Aborting)) && TasksOf(s.tasks, w) == {}
  }

  ghost predicate EndsAfter(before: System, arriving: seq<Event>, n: nat, after: System, w: nat) {
    && n <= |arriving|
    && var last := OfferedAll(before, arriving[..n]);
    Idle(last, w) && after == Step(last, Return(w))
  }

  /** The run ended with the worker's return after the first events of the list. */
  ghost predicate RanToReturn(before: System, arriving: seq<Event>, after: System, w: nat) {
    exists n: nat :: EndsAfter(before, arriving, n, after, w)
  }

  lemma ReturnedNow(before: System, arriving: seq<Event>, n: nat, last: System, after: System, w: nat)
    requires n <= |arriving| && last == OfferedAll(before, arriving[..n])
    requires Idle(last, w) && after == Step(last, Return(w))
    ensures RanToReturn(before, arriving, after, w)
  {
    hide Step, OfferedAll, Idle;
    assert EndsAfter(before, arriving, n, after, w);
  }

  /** An accepting worker neither starts, nor times out, nor returns. */
  lemma NotNow(s: System, e: Event, w: nat)
    requires InStage(s.workers, w, Accepting) && Own(s, e, w)
    ensures e.ReceiveShutdown? || e.Spawn? || e.AcceptError? || e.Join? || Offered(s, e) == s
  {
    hide TasksOf, Step;
  }

  lemma NoneOffered(s: System)
    ensures OfferedAll(s, []) == s
  {
  }

  lemma StillAccepting(s: System, w: nat)
    requires InStage(s.workers, w, Accepting)
    ensures !Idle(s, w)
  {
  }

  lemma NotIdle(s: System, w: nat, connections: set<nat>)
    requires connections == TasksOf(s.tasks, w) && connections != {}
    ensures !Idle(s, w)
  {
  }

  lemma NowIdle(s: System, w: nat, stage: Stage)
    requires stage in {Draining, Aborting} && InStage(s.workers, w, stage) && TasksOf(s.tasks, w) == {}
    ensures Idle(s, w)
  {
  }

  /** A draining worker with connections can do nothing of its own but join and time out. */
  lemma NothingElse(s: System, e: Event, w: nat, stage: Stage, connections: set<nat>)
    requires stage in {Draining, Aborting} && InStage(s.workers, w, stage)
    requires connections == TasksOf(s.tasks, w) && connections != {}
    requires Own(s, e, w) && !e.Join? && !(e == DrainTimeout(w) && stage == Draining)
    ensures Offered(s, e) == s
  {
    hide TasksOf, Step;
  }

  datatype ServiceState = Stopped | Started(plan: string, worker: nat)

  datatype ServiceError = AlreadyRunning(current: string, requested: string) | BindFailed | NotJoined

  class ProxyService {
    const runtime: Runtime
    var state: ServiceState

    /** The lock is free: no stop is waiting, and a started service owns a worker told nothing yet. */
    ghost predicate Valid()
      reads this, runtime
    {
      && runtime.Valid()
      && runtime.state.service.stopping.None?
      && runtime.state.service.owner == (if state.Started? then Some(state.worker) else None)
      && (state.Started? ==> OwnsRunning(runtime.state.workers, state.worker, state.plan))
    }

    constructor (runtime: Runtime)
      requires runtime.Valid() && runtime.state == INITIAL
      ensures Valid() && state == Stopped && this.runtime == runtime
    {
      this.runtime, state := runtime, Stopped;
    }

    /**
     * Starting the running plan again changes nothing, nor does starting another one; a failed bind
     * leaves the service stopped. `bound` is the new worker, if its ingress could be bound.
     */
    method Start(plan: string, bound: Option<nat>) returns (r: Result<ServiceState, ServiceError>)
      requires Valid() && (bound.Some? ==> bound.value !in runtime.state.workers)
      modifies this, runtime
      ensures Valid()
      ensures old(state).Started? ==> state == old(state) && runtime.state == old(runtime.state)
      ensures old(state).Started? && old(state).plan == plan ==> r == Ok(old(state))
      ensures old(state).Started? && old(state).plan != plan ==> r == Err(AlreadyRunning(old(state).plan, plan))
      ensures old(state).Stopped? && bound.None? ==> r == Err(BindFailed) && state == Stopped
      ensures old(state).Stopped? && bound.None? ==> runtime.state == old(runtime.state)
      ensures old(state).Stopped? && bound.Some? ==> r == Ok(state) && state == Started(plan, bound.value)
      ensures old(state).Stopped? && bound.Some? ==>
                runtime.trace == old(runtime.trace) + [StartWorker(bound.value, plan)]
    {
      hide Run, NextTasks, NextTraffic, NextLost, Report, Reported, Logged, INITIAL, TasksOf;
      if state.Started? {
        return if state.plan == plan then Ok(state) else Err(AlreadyRunning(state.plan, plan));
      }
      if bound.None? {
        return Err(BindFailed);
      }
      runtime.Do(StartWorker(bound.value, plan));
      state := Started(plan, bound.value);
      r := Ok(state);
    }

    /**
     * Tells the worker to stop and waits while the rest of the system runs. The service ends up
     * stopped in any case. It succeeds as soon as the worker has returned, which means that it has
     * joined all its tasks; otherwise it was dropped after everything that happened meanwhile.
     */
    method Stop(meanwhile: seq<Event>) returns (r: Result<ServiceState, ServiceError>)
      requires Valid()
      requires forall e :: e in meanwhile ==> !OfService(e)
      modifies this, runtime
      ensures Valid() && state == Stopped
      ensures old(state).Stopped? ==> r == Ok(Stopped) && runtime.state == old(runtime.state)
      ensures old(state).Started? && r.Ok? ==> r == Ok(Stopped) && Quiet(runtime.state, old(state.worker))
      ensures r.Err? ==> r.error == NotJoined && old(state).Started?
      ensures r.Err? ==> Dropped(old(runtime.state), meanwhile, runtime.state, old(state).worker)
    {
      hide Run, Step, Enabled, Quiet, INITIAL, Offered, OfferedAll;
      if state.Stopped? {
        return Ok(state);
      }
      var w := state.worker;
      state := Stopped;
      BeginStopping(w);
      ghost var begun := runtime.state;
      var i := 0;
      assert OfferedAll(begun, meanwhile[..0]) == begun by { assert meanwhile[..0] == []; NoneOffered(begun); }
      while i < |meanwhile| && runtime.state.workers[w].stage != Returned
        invariant runtime.Valid() && runtime.state.service.owner.None?
        invariant state == Stopped && runtime.state.service.stopping == Some(w) && w in runtime.state.workers
        invariant i <= |meanwhile| && runtime.state == OfferedAll(begun, meanwhile[..i])
      {
        OthersKeepService(runtime.state, meanwhile[i]);
        OfferedNext(begun, meanwhile, i);
        runtime.Offer(meanwhile[i]);
        i := i + 1;
      }
      if runtime.state.workers[w].stage == Returned {
        FinishStopping(w);
        r := Ok(state);
      } else {
        assert meanwhile[..i] == meanwhile;
        Abandon();
        r := Err(NotJoined);
      }
    }

    method BeginStopping(w: nat)
      requires runtime.Valid() && runtime.state.service.owner == Some(w) && w in runtime.state.workers
      requires runtime.state.service.stopping.None?
      modifies runtime
      ensures runtime.Valid() && runtime.state.service.owner.None? && runtime.state.service.stopping == Some(w)
      ensures runtime.state == Step(old(runtime.state), BeginStop) && w in runtime.state.workers
    {
      hide Run, NextTasks, NextTraffic, NextLost, Report, Reported, Logged, INITIAL;
      runtime.Do(BeginStop);
    }

    method FinishStopping(w: nat)
      requires runtime.Valid() && runtime.state.service.owner.None? && runtime.state.service.stopping == Some(w)
      requires InStage(runtime.state.workers, w, Returned)
      modifies runtime
      ensures runtime.Valid() && runtime.state.service.owner.None? && runtime.state.service.stopping.None?
      ensures Quiet(runtime.state, w)
    {
      hide Run, NextTasks, NextTraffic, NextLost, Report, Reported, Logged, INITIAL, TasksOf;
      runtime.Do(EndStop);
      ReturnedIsQuiet(runtime.trace, runtime.state, w);
    }

    method Abandon()
      requires runtime.Valid() && runtime.state.service.owner.None? && runtime.state.service.stopping.Some?
      modifies runtime
      ensures runtime.Valid() && runtime.state.service.owner.None? && runtime.state.service.stopping.None?
      ensures runtime.state == Step(old(runtime.state), AbandonStop)
    {
      hide Run, NextTasks, NextTraffic, NextLost, Report, Reported, Logged, INITIAL, NextWorkers;
      runtime.Do(AbandonStop);
    }
  }

  predicate OwnsRunning(workers: map<nat, Worker>, w: nat, plan: string) {
    w in workers && workers[w].plan == plan && !workers[w].signalled
  }

  predicate OfService(e: Event) {
    e.StartWorker? || e.BeginStop? || e.EndStop? || e.AbandonStop?
  }

  /** The stop was told to the worker and given up while the worker had not returned. */
  ghost predicate Dropped(before: System, meanwhile: seq<Event>, after: System, w: nat) {
    var last := OfferedAll(Step(before, BeginStop), meanwhile);
    !InStage(last.workers, w, Returned) && after == Step(last, AbandonStop)
  }

  predicate Quiet(s: System, w: nat) {
    InStage(s.workers, w, Returned) && TasksOf(s.tasks, w) == {}
  }

  lemma ReturnedIsQuiet(trace: seq<Event>, s: System, w: nat)
    requires Run(INITIAL, trace, s) && InStage(s.workers, w, Returned)
    ensures Quiet(s, w)
  {
    hide Run, CountsInv, WorkersInv, ServiceInv, FlowingTasks, INITIAL;
    InitialInv();
    RunInv(INITIAL, trace, s);
    assert forall t :: t in s.tasks ==> s.tasks[t].worker != w;
  }

  lemma OthersKeepService(s: System, e: Event)
    requires !OfService(e)
    ensures Offered(s, e).service == s.service && s.workers.Keys <= Offered(s, e).workers.Keys
  {
    hide TasksOf, NextTasks, NextTraffic, NextLost, Report, Reported, Logged, IsAt, HasRoom;
  }
}
