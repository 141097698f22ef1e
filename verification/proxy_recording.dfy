/** What the two recorders have heard after a run of workers and tasks, read off the events of the run alone. */
module ProxyRecording {
  import opened Common
  import D = FlowDiagnosing
  import T = TrafficMonitoring
  import W = TrafficWindow
  import C = CappedCounts
  import opened ProxyMachine

  /** Messages of failed accepts and failed preparations, oldest first. */
  function ErrorsIn(trace: seq<Event>): seq<string> {
    if trace == [] then [] else ErrorNow(trace[0]) + ErrorsIn(trace[1..])
  }

  function ErrorNow(e: Event): seq<string> {
    match e
    case AcceptError(_, error) => [error]
    case PrepareFail(_, error, _) => [error]
    case _ => []
  }

  /** Records of the flows that reported a result, oldest first. */
  function RecordsIn(trace: seq<Event>): seq<D.FlowRecord> {
    if trace == [] then [] else RecordNow(trace[0]) + RecordsIn(trace[1..])
  }

  function RecordNow(e: Event): seq<D.FlowRecord> {
    match e
    case RecordResult(_, context, result, _) => [D.RecordOf(context, result)]
    case _ => []
  }

  /** Prepared connections, which are the accepted flows. */
  function PreparedIn(trace: seq<Event>): nat {
    if trace == [] then 0 else (if trace[0].Prepare? then 1 else 0) + PreparedIn(trace[1..])
  }

  /** Failed preparations that come with an observation. */
  function FailuresIn(trace: seq<Event>): nat {
    if trace == [] then 0
    else (if trace[0].PrepareFail? && trace[0].observed.Some? then 1 else 0) + FailuresIn(trace[1..])
  }

  /** Observations of failed preparations that are still to be recorded, by task. */
  function OwedAfter(owed: map<nat, string>, e: Event): map<nat, string> {
    match e
    case PrepareFail(t, _, observed) => if observed.Some? then owed[t := observed.value] else owed
    case ObserveFailure(t) => owed - {t}
    case _ => owed
  }

  /** Observations in the order in which they are recorded. */
  function ObservationsIn(trace: seq<Event>, owed: map<nat, string>): seq<string> {
    if trace == [] then []
    else ObservationNow(owed, trace[0]) + ObservationsIn(trace[1..], OwedAfter(owed, trace[0]))
  }

  function ObservationNow(owed: map<nat, string>, e: Event): seq<string> {
    match e
    case ObserveFailure(t) => if t in owed then [owed[t]] else []
    case RecordResult(_, _, _, observation) => [observation]
    case _ => []
  }

  function OwedBy(tasks: map<nat, Task>): map<nat, string> {
    map t | t in tasks && tasks[t].phase.Failed? :: tasks[t].phase.observation
  }

  // ---- Diagnostics ----

  lemma HistoryAppend(history: seq<D.Event>, r: D.Event)
    ensures D.Errors(history + [r]) == D.Errors(history) + D.ErrorOf(r)
    ensures D.Observations(history + [r]) == D.Observations(history) + D.ObservationOf(r)
    ensures D.Records(history + [r]) ==
            D.Records(history) + if r.FlowResult? then [D.RecordOf(r.context, r.result)] else []
  {
    hide D.RecordOf;
    assert (history + [r])[..|history|] == history;
  }

  lemma HistoryStep(s: System, e: Event)
    requires Enabled(s, e)
    ensures var h, h' := s.history, Step(s, e).history;
            && |h'| <= |h| + 1
            && D.Errors(h') == D.Errors(h) + ErrorNow(e)
            && D.Records(h') == D.Records(h) + RecordNow(e)
            && D.Observations(h') == D.Observations(h) + ObservationNow(OwedBy(s.tasks), e)
  {
    hide NextService, NextWorkers, NextTraffic, NextTasks, NextLost, Reported, TasksOf, D.RecordOf;
    hide D.Errors, D.Observations, D.Records;
    var report := Report(s.tasks, e);
    if report.Some? {
      HistoryAppend(s.history, report.value);
    } else {
      assert D.Errors(s.history) + [] == D.Errors(s.history);
      assert D.Records(s.history) + [] == D.Records(s.history);
      assert D.Observations(s.history) + [] == D.Observations(s.history);
    }
  }

  lemma MovedOwes(tasks: map<nat, Task>, t: nat, p: Phase)
    requires t in tasks
    ensures OwedBy(MovedTo(tasks, t, p)) ==
            if p.Failed? then OwedBy(tasks)[t := p.observation] else OwedBy(tasks) - {t}
  {
  }

  lemma NotOwing(tasks: map<nat, Task>, t: nat, w: nat)
    requires t in tasks ==> !tasks[t].phase.Failed?
    ensures OwedBy(tasks) - {t} == OwedBy(tasks) && t !in OwedBy(tasks)
    ensures OwedBy(tasks - {t}) == OwedBy(tasks)
    ensures t !in tasks ==> OwedBy(tasks[t := Task(w, Preparing)]) == OwedBy(tasks)
  {
  }

  /** What is owed are the observations of the tasks that have recorded their error only. */
  lemma OwedStep(s: System, e: Event)
    requires Enabled(s, e) && s.tasks.Keys <= s.spawned
    ensures OwedBy(Step(s, e).tasks) == OwedAfter(OwedBy(s.tasks), e)
  {
    hide NextService, NextWorkers, NextTraffic, NextLost, Report, Reported, Logged, TasksOf, HasRoom, OwedBy, MovedTo;
    match e
    case Spawn(w, t) => NotOwing(s.tasks, t, w);
    case Join(t) => NotOwing(s.tasks, t, 0);
    case Prepare(t) => NotOwing(s.tasks, t, 0); MovedOwes(s.tasks, t, Prepared);
    case PrepareFail(t, _, observed) =>
      NotOwing(s.tasks, t, 0);
      MovedOwes(s.tasks, t, if observed.Some? then Failed(observed.value) else Ended);
    case ObserveFailure(t) => MovedOwes(s.tasks, t, Ended);
    case StartFlow(t, _) => NotOwing(s.tasks, t, 0); MovedOwes(s.tasks, t, Flowing);
    case FinishFlow(t) => NotOwing(s.tasks, t, 0); MovedOwes(s.tasks, t, Finished);
    case RecordResult(t, _, _, _) => NotOwing(s.tasks, t, 0); MovedOwes(s.tasks, t, Ended);
    case Abort(t) => NotOwing(s.tasks, t, 0); MovedOwes(s.tasks, t, Ended);
    case Panic(t) => NotOwing(s.tasks, t, 0); MovedOwes(s.tasks, t, Ended);
    case _ =>
  }

  lemma OwedBalance(s: System, e: Event)
    requires Enabled(s, e)
    ensures var owed := OwedBy(s.tasks);
            |OwedAfter(owed, e)| + |ObservationNow(owed, e)| == |owed| + |RecordNow(e)| + FailuresIn([e])
  {
    hide Step, TasksOf, D.RecordOf, HasRoom;
    var owed := OwedBy(s.tasks);
    assert [e][1..] == [];
    if e.PrepareFail? && e.observed.Some? {
      assert owed[e.task := e.observed.value].Keys == owed.Keys + {e.task};
    } else if e.ObserveFailure? {
      assert (owed - {e.task}).Keys == owed.Keys - {e.task} && e.task in owed;
    }
  }

  lemma {:induction false} RunHeard(s: System, trace: seq<Event>, t: System)
    requires Inv(s) && Run(s, trace, t)
    ensures |t.history| <= |s.history| + |trace|
    ensures D.Errors(t.history) == D.Errors(s.history) + ErrorsIn(trace)
    ensures D.Records(t.history) == D.Records(s.history) + RecordsIn(trace)
    ensures D.Observations(t.history) == D.Observations(s.history) + ObservationsIn(trace, OwedBy(s.tasks))
    ensures |OwedBy(t.tasks)| + |ObservationsIn(trace, OwedBy(s.tasks))| ==
            |OwedBy(s.tasks)| + |RecordsIn(trace)| + FailuresIn(trace)
    decreases |trace|
  {
    hide Enabled, Step, CountsInv, WorkersInv, ServiceInv, FlowingTasks;
    hide ErrorNow, RecordNow, ObservationNow, OwedAfter, OwedBy, D.Errors, D.Records, D.Observations;
    if trace != [] {
      var e, n := trace[0], Step(s, trace[0]);
      HistoryStep(s, e);
      OwedStep(s, e);
      OwedBalance(s, e);
      assert [e][1..] == [];
      StepInv(s, e);
      RunHeard(n, trace[1..], t);
    }
  }

  /** Counted one by one, until 64 bits are exhausted. */
  lemma {:induction false} PreparedAreAccepted(s: System, trace: seq<Event>, t: System)
    requires Run(s, trace, t) && s.diagnostics.totals.accepted + |trace| <= MAX_U64
    ensures t.diagnostics.totals.accepted == s.diagnostics.totals.accepted + PreparedIn(trace)
    decreases |trace|
  {
    hide Enabled, Step;
    if trace != [] {
      AcceptedStep(s, trace[0]);
      PreparedAreAccepted(Step(s, trace[0]), trace[1..], t);
    }
  }

  lemma AcceptedStep(s: System, e: Event)
    requires Enabled(s, e) && s.diagnostics.totals.accepted < MAX_U64
    ensures Step(s, e).diagnostics.totals.accepted ==
            s.diagnostics.totals.accepted + if e.Prepare? then 1 else 0
  {
    hide NextService, NextWorkers, NextTraffic, NextTasks, NextLost, Logged, TasksOf, D.RecordOf, D.Counted;
    hide D.Completing, C.PushBounded;
  }

  /**
   * The diagnostics after any run, from its events alone: the error total is the number of failed accepts
   * and failed preparations and the error queue their newest 25 messages; accepted are the prepared
   * connections; completed are the flows that reported a result, in all nine maps and in the queue of
   * the newest 100; and the observation queue holds the newest 100 in the order they were recorded.
   */
  lemma DiagnosticsTellTheRun(trace: seq<Event>, t: System)
    requires Run(INITIAL, trace, t) && |trace| <= MAX_U64
    ensures var d, errors, observations := t.diagnostics, ErrorsIn(trace), ObservationsIn(trace, map[]);
            && d.totals.acceptErrors == |errors|
            && d.recent.acceptErrors == errors[|errors| - Min(25, |errors|)..]
            && d.recent.observations == observations[|observations| - Min(100, |observations|)..]
            && d.totals.accepted == PreparedIn(trace)
    ensures var d, records := t.diagnostics, RecordsIn(trace);
            && d.totals.completed == |records| && D.Tallies(d.counts, records)
            && d.recent.flows == records[|records| - Min(100, |records|)..]
  {
    hide Run, D.After, Inv, D.Errors, D.Records, D.Observations, ErrorsIn, ObservationsIn, RecordsIn, D.Tallies;
    hide C.Recent;
    NothingHeardYet();
    InitialInv();
    RunInv(INITIAL, trace, t);
    RunHeard(INITIAL, trace, t);
    PreparedAreAccepted(INITIAL, trace, t);
    InvRecorder(t);
    assert [] + ErrorsIn(trace) == ErrorsIn(trace);
    assert [] + RecordsIn(trace) == RecordsIn(trace);
    assert [] + ObservationsIn(trace, map[]) == ObservationsIn(trace, map[]);
    D.QueuesAreRecent(t.history);
    D.MapsAreTallies(t.history);
    C.RecentIsSuffix(RecordsIn(trace), D.MAX_RECENT_FLOWS);
  }

  lemma NothingHeardYet()
    ensures INITIAL.history == [] && OwedBy(INITIAL.tasks) == map[] && INITIAL.diagnostics.totals.accepted == 0
    ensures D.Errors([]) == [] && D.Records([]) == [] && D.Observations([]) == []
  {
  }

  lemma InvRecorder(s: System)
    requires Inv(s)
    ensures s.diagnostics == D.After(s.history)
  {
  }

  // ---- Failed preparations ----

  /** A task that owes an observation still owes it, or has recorded it. */
  lemma {:induction false} OwedUntilRecorded(s: System, trace: seq<Event>, t: System, task: nat, observation: string)
    requires Inv(s) && Run(s, trace, t) && IsAt(s.tasks, task, Failed(observation))
    ensures IsAt(t.tasks, task, Failed(observation)) || observation in ObservationsIn(trace, OwedBy(s.tasks))
    decreases |trace|
  {
    hide Enabled, Step, CountsInv, WorkersInv, ServiceInv, FlowingTasks, ObservationNow, OwedAfter;
    if trace != [] {
      var e, n := trace[0], Step(s, trace[0]);
      OwedStep(s, e);
      OwedMoves(s, e, task, observation);
      StepInv(s, e);
      if IsAt(n.tasks, task, Failed(observation)) {
        OwedUntilRecorded(n, trace[1..], t, task, observation);
      }
    }
  }

  lemma OwedMoves(s: System, e: Event, task: nat, observation: string)
    requires Enabled(s, e) && s.tasks.Keys <= s.spawned && IsAt(s.tasks, task, Failed(observation))
    ensures IsAt(Step(s, e).tasks, task, Failed(observation)) || observation in ObservationNow(OwedBy(s.tasks), e)
  {
    hide NextService, NextWorkers, NextTraffic, NextLost, Report, Reported, Logged, TasksOf, HasRoom;
    if e == ObserveFailure(task) {
      assert task in OwedBy(s.tasks);
    }
  }

  /**
   * The observation of a failed preparation always follows its error: in any later state it has been
   * recorded, unless the task is still on its way between the two; so it has been once the task is joined.
   */
  lemma FailuresAreObserved(
    s: System, trace: seq<Event>, t: System, task: nat, error: string, observation: string)
    requires Inv(s) && Enabled(s, PrepareFail(task, error, Some(observation)))
    requires Run(Step(s, PrepareFail(task, error, Some(observation))), trace, t)
    ensures var owed := OwedBy(Step(s, PrepareFail(task, error, Some(observation))).tasks);
            observation in ObservationsIn(trace, owed) || IsAt(t.tasks, task, Failed(observation))
  {
    var e := PrepareFail(task, error, Some(observation));
    hide Run, Inv, ObservationsIn, OwedBy, Enabled;
    StepInv(s, e);
    FailedNow(s, task, error, observation);
    OwedUntilRecorded(Step(s, e), trace, t, task, observation);
  }

  lemma FailedNow(s: System, task: nat, error: string, observation: string)
    requires Enabled(s, PrepareFail(task, error, Some(observation)))
    ensures IsAt(Step(s, PrepareFail(task, error, Some(observation))).tasks, task, Failed(observation))
  {
    hide NextService, NextWorkers, NextTraffic, NextLost, Report, Reported, Logged, TasksOf;
  }

  /** Over a whole run, results and observed failures are exactly the observations recorded and still owed. */
  lemma ObservationsAddUp(trace: seq<Event>, t: System)
    requires Run(INITIAL, trace, t)
    ensures |ObservationsIn(trace, map[])| + |OwedBy(t.tasks)| == |RecordsIn(trace)| + FailuresIn(trace)
    ensures t.tasks == map[] ==> |ObservationsIn(trace, map[])| == |RecordsIn(trace)| + FailuresIn(trace)
  {
    hide Run, Inv, ObservationsIn, RecordsIn, FailuresIn;
    InitialInv();
    NothingHeardYet();
    RunHeard(INITIAL, trace, t);
  }

  // ---- Traffic ----

  /** Flows between their start and the first event that ends them. */
  function ActiveAfter(active: set<nat>, e: Event): set<nat> {
    match e
    case StartFlow(t, _) => active + {t}
    case FinishFlow(t) => active - {t}
    case Abort(t) => active - {t}
    case Panic(t) => active - {t}
    case _ => active
  }

  /** Bytes of one direction that arrive while their flow is active. */
  function BytesIn(trace: seq<Event>, active: set<nat>, dir: W.Direction): nat {
    if trace == [] then 0
    else BytesNow(active, trace[0], dir) + BytesIn(trace[1..], ActiveAfter(active, trace[0]), dir)
  }

  function BytesNow(active: set<nat>, e: Event, dir: W.Direction): nat {
    if e.Bytes? && e.task in active && e.dir == dir then e.bytes else 0
  }

  /** Bytes of one direction of one flow since its start. */
  function FlowBytesIn(trace: seq<Event>, flow: nat, dir: W.Direction, before: nat): nat {
    if trace == [] then before
    else FlowBytesIn(trace[1..], flow, dir, FlowBytesAfter(trace[0], flow, dir, before))
  }

  function FlowBytesAfter(e: Event, flow: nat, dir: W.Direction, before: nat): nat {
    match e
    case StartFlow(t, _) => if t == flow then 0 else before
    case Bytes(t, d, bytes, _) => if t == flow && d == dir then before + bytes else before
    case _ => before
  }

  /** All bytes offered, counted or not. */
  function OfferedBytes(trace: seq<Event>): nat {
    if trace == [] then 0 else (if trace[0].Bytes? then trace[0].bytes else 0) + OfferedBytes(trace[1..])
  }

  lemma ActiveStep(s: System, e: Event)
    requires Enabled(s, e) && s.traffic.flows.Keys == FlowingTasks(s.tasks)
    ensures Step(s, e).traffic.flows.Keys == ActiveAfter(s.traffic.flows.Keys, e)
  {
    hide NextService, NextWorkers, NextTasks, NextLost, Report, Reported, Logged, TasksOf, W.Credited;
    match e
    case Abort(t) => assert t in FlowingTasks(s.tasks) <==> IsAt(s.tasks, t, Flowing);
    case Panic(t) => assert t in FlowingTasks(s.tasks) <==> IsAt(s.tasks, t, Flowing);
    case _ =>
  }

  lemma TotalStep(s: System, e: Event, dir: W.Direction)
    requires Enabled(s, e) && W.Countable(dir)
    requires T.Total(s.traffic, dir) + BytesNow(s.traffic.flows.Keys, e, dir) <= MAX_U64
    ensures T.Total(Step(s, e).traffic, dir) ==
            T.Total(s.traffic, dir) + BytesNow(s.traffic.flows.Keys, e, dir)
  {
    hide NextService, NextWorkers, NextTasks, NextLost, Report, Reported, Logged, TasksOf, W.Credited, IsAt;
  }

  lemma {:induction false} RunCounted(s: System, trace: seq<Event>, t: System, dir: W.Direction)
    requires Inv(s) && Run(s, trace, t) && W.Countable(dir)
    requires T.Total(s.traffic, dir) + BytesIn(trace, s.traffic.flows.Keys, dir) <= MAX_U64
    ensures T.Total(t.traffic, dir) == T.Total(s.traffic, dir) + BytesIn(trace, s.traffic.flows.Keys, dir)
    decreases |trace|
  {
    hide Enabled, Step, CountsInv, WorkersInv, ServiceInv, TasksInv, FlowingTasks, BytesNow, T.Total;
    if trace != [] {
      ActiveStep(s, trace[0]);
      TotalStep(s, trace[0], dir);
      StepInv(s, trace[0]);
      RunCounted(Step(s, trace[0]), trace[1..], t, dir);
    }
  }

  ghost predicate FlowHas(s: System, flow: nat, dir: W.Direction, n: nat) {
    flow in s.traffic.flows ==> T.FlowBytes(s.traffic.flows[flow], dir) == n
  }

  lemma FlowBytesStep(s: System, e: Event, flow: nat, dir: W.Direction, n: nat)
    requires Enabled(s, e) && W.Countable(dir) && FlowHas(s, flow, dir, n)
    requires FlowBytesAfter(e, flow, dir, n) <= MAX_U64
    ensures FlowHas(Step(s, e), flow, dir, FlowBytesAfter(e, flow, dir, n))
  {
    hide NextService, NextWorkers, NextTasks, NextLost, Report, Reported, Logged, TasksOf, W.Credited, IsAt;
  }

  lemma {:induction false} RunFlowBytes(
    s: System, trace: seq<Event>, t: System, flow: nat, dir: W.Direction, n: nat)
    requires Run(s, trace, t) && W.Countable(dir) && FlowHas(s, flow, dir, n)
    requires n + OfferedBytes(trace) <= MAX_U64
    ensures FlowHas(t, flow, dir, FlowBytesIn(trace, flow, dir, n))
    decreases |trace|
  {
    hide Enabled, Step, FlowHas;
    if trace != [] {
      FlowBytesStep(s, trace[0], flow, dir, n);
      RunFlowBytes(Step(s, trace[0]), trace[1..], t, flow, dir, FlowBytesAfter(trace[0], flow, dir, n));
    }
  }

  /**
   * The traffic monitor after any run, from its events alone: each total is the sum of the bytes that
   * arrived in its direction while their flow was active, and a flow shown has the bytes since its start.
   */
  lemma TrafficTellsTheRun(trace: seq<Event>, t: System, dir: W.Direction, flow: nat)
    requires Run(INITIAL, trace, t) && dir in {W.ClientToUpstream, W.UpstreamToClient}
    ensures BytesIn(trace, {}, dir) <= MAX_U64 ==>
              BytesIn(trace, {}, dir) ==
              if dir == W.ClientToUpstream then t.traffic.totalUpload else t.traffic.totalDownload
    ensures flow in t.traffic.flows && OfferedBytes(trace) <= MAX_U64 ==>
              var f := t.traffic.flows[flow];
              FlowBytesIn(trace, flow, dir, 0) == if dir == W.ClientToUpstream then f.upload else f.download
  {
    hide Run, Inv, BytesIn, FlowBytesIn, OfferedBytes;
    InitialInv();
    NoTrafficYet(dir);
    if BytesIn(trace, {}, dir) <= MAX_U64 {
      RunCounted(INITIAL, trace, t, dir);
    }
    if OfferedBytes(trace) <= MAX_U64 {
      RunFlowBytes(INITIAL, trace, t, flow, dir, 0);
    }
  }

  lemma NoTrafficYet(dir: W.Direction)
    ensures INITIAL.traffic.flows == map[] && INITIAL.traffic.flows.Keys == {} && T.Total(INITIAL.traffic, dir) == 0
  {
  }
}
